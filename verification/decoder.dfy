/**
 The result decoder `CallForAssetAttributeProvider.functional.mapValue`: a
 total map from an untyped wire value and a declared return type to a tagged
 attribute value, substituting a fixed default when the wire value has the
 wrong dynamic type.
 */
module Decoder {
  import opened Values

  /** True when `w` has the dynamic type the decoder accepts for `t`. No wire
      value is accepted for `void`. */
  predicate Conforms(t: SolidityType, w: WireValue)
  {
    match t
    case AddressType => w.WireAddress?
    case BoolType => w.WireBool?
    case BytesType(_) => w.WireData?
    case StringType => w.WireString?
    case UintType(_) => w.WireBigUInt?
    case IntType(_) => w.WireBigInt?
    case VoidType => false
  }

  /** The value a scalar wire value carries, tagged by its dynamic type. */
  function Lift(w: WireValue): (v: AssetValue)
    requires !w.WireDictionary? && !w.WireOther?
  {
    match w
    case WireAddress(a) => AddressValue(a)
    case WireBool(b) => BoolValue(b)
    case WireData(d) => BytesValue(d)
    case WireString(s) => StringValue(s)
    case WireBigUInt(u) => UintValue(u)
    case WireBigInt(i) => IntValue(i)
  }

  /** The value substituted for a wire value of the wrong type. An address
      and a `void` declaration both fall back to `false`, not to an address. */
  function Default(t: SolidityType): (v: AssetValue)
  {
    match t
    case AddressType => BoolValue(false)
    case BoolType => BoolValue(false)
    case BytesType(_) => BytesValue([])
    case StringType => StringValue("")
    case UintType(_) => UintValue(0)
    case IntType(_) => IntValue(0)
    case VoidType => BoolValue(false)
  }

  /** The wire value a node hands back for the attribute value `v`. */
  function Encode(v: AssetValue): (w: WireValue)
  {
    match v
    case AddressValue(a) => WireAddress(a)
    case BoolValue(b) => WireBool(b)
    case BytesValue(d) => WireData(d)
    case StringValue(s) => WireString(s)
    case UintValue(u) => WireBigUInt(u)
    case IntValue(i) => WireBigInt(i)
  }

  /** `mapValue(of:for:)`. It never fails: a conforming value is lifted as
      is, anything else becomes the default for the declared type. Every
      declared type except `address` and `void` yields its own tag whatever
      the wire value; `address` yields an address or `false`. */
  function MapValue(output: SolidityType, value: WireValue): (r: AssetValue)
    ensures Conforms(output, value) ==> r == Lift(value)
    ensures !Conforms(output, value) ==> r == Default(output)
    ensures output != AddressType && output != VoidType ==> HasTagOf(output, r)
    ensures output == AddressType ==> r.AddressValue? || r == BoolValue(false)
    ensures output == VoidType ==> r == BoolValue(false)
  {
    match output
    case AddressType =>
      if value.WireAddress? then AddressValue(value.address) else BoolValue(false)
    case BoolType =>
      BoolValue(if value.WireBool? then value.flag else false)
    case BytesType(_) =>
      BytesValue(if value.WireData? then value.data else [])
    case StringType =>
      StringValue(if value.WireString? then value.text else "")
    case UintType(_) =>
      UintValue(if value.WireBigUInt? then value.unsigned else 0)
    case IntType(_) =>
      IntValue(if value.WireBigInt? then value.signed else 0)
    case VoidType =>
      BoolValue(false)
  }

  /** A well-typed wire value decodes to a value with the declared type's tag. */
  lemma WellTypedKeepsTag(output: SolidityType, value: WireValue)
    requires Conforms(output, value)
    ensures HasTagOf(output, MapValue(output, value))
  {
  }

  /** Round trip: the wire form of a value decodes back to that value under
      every declared type whose tag the value carries. */
  lemma DecodeEncode(output: SolidityType, v: AssetValue)
    requires HasTagOf(output, v)
    ensures Conforms(output, Encode(v))
    ensures MapValue(output, Encode(v)) == v
  {
  }

  /** The wire form of `v` conforms to `output` exactly when `v` carries the
      tag of `output`. */
  lemma EncodeConformsIff(output: SolidityType, v: AssetValue)
    ensures Conforms(output, Encode(v)) <==> HasTagOf(output, v)
  {
  }
}
