/**
 Data model of asset-attribute function calls: the Solidity return types a
 call may declare, the untyped values a node hands back, the tagged attribute
 values the decoder produces, and the call descriptor that keys the in-flight
 map of the attribute provider.
 */
module Values {

  /** An Ethereum address, kept opaque: only its identity matters here. */
  datatype Address = Address(id: nat)

  /** A network, identified by its chain id. */
  type Server = nat

  /** One byte of a `Data` value. */
  type Byte = bv8

  /** Solidity return types, collapsed into families. The width fields say
      which member of a family is meant (`BytesType(0)` is dynamic `bytes`,
      `BytesType(n)` is `bytesN`; `UintType(0)` and `IntType(0)` are the bare
      `uint` and `int`); the decoder treats every member of a family alike. */
  datatype SolidityType =
    | AddressType
    | BoolType
    | BytesType(size: nat)
    | StringType
    | UintType(bits: nat)
    | IntType(bits: nat)
    | VoidType

  /** An untyped value as the web3 layer returns it. Each constructor stands
      for one dynamic type the decoder tests for; `WireDictionary` is the
      `[String: AnyObject]` a contract call answers with, and `WireOther`
      is any object of a type the decoder never accepts. */
  datatype WireValue =
    | WireAddress(address: Address)
    | WireBool(flag: bool)
    | WireData(data: seq<Byte>)
    | WireString(text: string)
    | WireBigUInt(unsigned: nat)
    | WireBigInt(signed: int)
    | WireDictionary(entries: map<string, WireValue>)
    | WireOther

  /** A decoded attribute value (the cases of `AssetInternalValue` that the
      provider produces). Integers are arbitrary precision, like `BigUInt`
      and `BigInt`. */
  datatype AssetValue =
    | AddressValue(address: Address)
    | BoolValue(flag: bool)
    | BytesValue(data: seq<Byte>)
    | StringValue(text: string)
    | UintValue(unsigned: nat)
    | IntValue(signed: int)

  /** True when `v` carries the tag that a well-typed result of a function
      declared to return `t` carries. A `void` function has no such tag. */
  predicate HasTagOf(t: SolidityType, v: AssetValue)
  {
    match t
    case AddressType => v.AddressValue?
    case BoolType => v.BoolValue?
    case BytesType(_) => v.BytesValue?
    case StringType => v.StringValue?
    case UintType(_) => v.UintValue?
    case IntType(_) => v.IntValue?
    case VoidType => false
  }

  /** The call descriptor `AssetFunctionCall`: the key of the in-flight map.
      Equality is structural over every field, argument order included. */
  datatype AssetFunctionCall = AssetFunctionCall(
    server: Server,
    contract: Address,
    functionName: string,
    inputs: seq<SolidityType>,
    output: SolidityType,
    arguments: seq<WireValue>)

  /** Why a call produced no value. The source reports each of these as an
      error with a descriptive message; here they are kept structured. */
  datatype CallError =
    | DescriptorUnavailable(functionName: string)
    | SessionUnavailable(server: Server, functionName: string)
    | CastError
    | EmptyResult(functionName: string, contract: Address)
    | TransportError

  /** The outcome of a call: a value, or the error that rejected it. */
  datatype Result<+T> = Success(value: T) | Failure(error: CallError)
}
