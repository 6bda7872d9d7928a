/**
 The call executor: `CallForAssetAttributeProvider.makeRpcPromise`, which
 either rejects at once or issues one contract call, and
 `AssetAttributeMethodCall.response(from:)`, which turns the node's answer
 into an attribute value.
 */
module MethodCall {
  import opened Values
  import opened Decoder

  /** What `makeRpcPromise` depends on but cannot see: whether a function
      descriptor can be built from a function name, input types and output
      type (`CallForAssetAttribute.init`, whose code is not part of this
      model), and the networks that currently have a session. */
  datatype Environment = Environment(
    describable: (string, seq<SolidityType>, SolidityType) -> bool,
    sessions: set<Server>)

  /** Whether `CallForAssetAttribute` can be built for `call`: it sees only
      the function name, the input types and the output type. */
  predicate Describable(env: Environment, call: AssetFunctionCall)
  {
    env.describable(call.functionName, call.inputs, call.output)
  }

  /** The contract call handed to the blockchain provider. The ABI text
      synthesised for the one function is not modelled. */
  datatype ContractCall = ContractCall(
    contract: Address,
    name: string,
    parameters: seq<WireValue>)

  /** `makeRpcPromise`: rejects without issuing anything when the function
      descriptor cannot be built or the call's network has no session (in
      that order), and otherwise issues one call to the call's contract,
      naming its function and passing its arguments. */
  function MakeRpc(env: Environment, call: AssetFunctionCall): (r: Result<ContractCall>)
    ensures r.Success? <==> Describable(env, call) && call.server in env.sessions
    ensures !Describable(env, call) ==> r == Failure(DescriptorUnavailable(call.functionName))
    ensures Describable(env, call) && call.server !in env.sessions ==>
              r == Failure(SessionUnavailable(call.server, call.functionName))
    ensures r.Success? ==>
              r.value == ContractCall(call.contract, call.functionName, call.arguments)
  {
    if !Describable(env, call) then
      Failure(DescriptorUnavailable(call.functionName))
    else if call.server !in env.sessions then
      Failure(SessionUnavailable(call.server, call.functionName))
    else
      Success(ContractCall(call.contract, call.functionName, call.arguments))
  }

  /** `response(from:)`: anything but a dictionary is a cast error; the
      first output slot `"0"` is decoded when present; without it a `void`
      function yields the placeholder `false` and any other function fails
      with an error naming the function and the contract. */
  function Response(call: AssetFunctionCall, result: WireValue): (r: Result<AssetValue>)
    ensures !result.WireDictionary? ==> r == Failure(CastError)
    ensures result.WireDictionary? && "0" in result.entries ==>
              r == Success(MapValue(call.output, result.entries["0"]))
    ensures result.WireDictionary? && "0" !in result.entries ==>
              (r.Success? <==> call.output == VoidType)
    ensures result.WireDictionary? && "0" !in result.entries && call.output == VoidType ==>
              r == Success(BoolValue(false))
    ensures result.WireDictionary? && "0" !in result.entries && call.output != VoidType ==>
              r == Failure(EmptyResult(call.functionName, call.contract))
  {
    if !result.WireDictionary? then
      Failure(CastError)
    else if "0" in result.entries then
      Success(MapValue(call.output, result.entries["0"]))
    else if call.output == VoidType then
      Success(BoolValue(false))
    else
      Failure(EmptyResult(call.functionName, call.contract))
  }

  /** The answer a node gives when the call returns `v` in its first slot. */
  function Answer(v: AssetValue): (w: WireValue)
    ensures w.WireDictionary? && "0" in w.entries
  {
    WireDictionary(map["0" := Encode(v)])
  }

  /** Round trip through the whole response path: a value of the declared
      type, answered in slot `"0"`, comes back unchanged. */
  lemma ResponseAnswer(call: AssetFunctionCall, v: AssetValue)
    requires HasTagOf(call.output, v)
    ensures Response(call, Answer(v)) == Success(v)
  {
    DecodeEncode(call.output, v);
  }

  /** A dictionary answer fails only when the first slot is missing and the
      function is not `void`; a wrong-typed slot is never an error. */
  lemma ResponseFailsOnlyWhenEmpty(call: AssetFunctionCall, result: WireValue)
    requires result.WireDictionary?
    ensures Response(call, result).Failure? <==> "0" !in result.entries && call.output != VoidType
  {
  }
}
