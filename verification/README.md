# Single-flight attribute provider — a Dafny model

This project models `CallForAssetAttributeProvider` from AlphaWallet's
TokenScript client. The provider resolves asset attributes that are computed
by calling a smart-contract function. It keeps a map from each call descriptor
(`AssetFunctionCall`) to the promise of the one network call in flight for
it. A second request for a descriptor already in flight attaches to that
promise and issues no new call. When the promise settles, the key is removed,
so nothing is cached once a call completes. The model also covers the pure
parts: the decoder `functional.mapValue`, which turns an untyped wire value
into a tagged `AssetInternalValue` and falls back to a fixed default when the
value has the wrong type, and `AssetAttributeMethodCall.response(from:)`,
which picks output slot `"0"` out of the node's answer.

Files:

- `values.dfy` (module `Values`): Solidity return-type families, wire values,
  attribute values, the call descriptor, errors and `Result`.
- `decoder.dfy` (module `Decoder`): `mapValue`, with an independent
  reference (`Conforms`, `Lift`, `Default`) and the wire encoding `Encode`
  for round trips.
- `method_call.dfy` (module `MethodCall`): `makeRpcPromise` and
  `response(from:)`.
- `provider.dfy` (module `AttributeProvider`): `getValue` and the promise settle
  handlers as a state machine. It includes the invariant that no handle is
  served twice, and the single-flight and no-lost-wake-up lemmas.
- `scenarios.dfy` (module `Scenarios`): short end-to-end event sequences.

The provider's state holds:

- the in-flight map;
- a log of issued contract calls, which stands in for the network;
- the next handle number;
- a log of values delivered to handles.

A `Request` event is one call of `getValue`; it carries the sessions and
the descriptor-building answer `makeRpcPromise` sees at that moment, so
these may change from one request to the next. A `Settlement` event is a
promise settling; it runs all of that promise's handlers at once and carries
the node's reply. Each event is one atomic step.

A promise that `makeRpcPromise` rejects at once is still stored in the map,
because line 27 runs whatever line 26 returned. The model keeps such an entry
as `Rejected` and issues no call for it. Requests that arrive before its
`catch` handler runs attach to it and receive nothing. Its settlement removes
the key.

Two behaviours of the code worth stating:

- A `void` declaration whose answer has slot `"0"` decodes to `false`
  (lines 83-84 and 123-125); it is not an error (`Decoder.MapValue`,
  `MethodCall.Response`).
- Lookup (line 19) and insert (line 27) are separate operations; the model
  treats a request as one atomic step (see Left out).

## Model

| member | source | states |
|---|---|---|
| Decoder.MapValue | modules/AlphaWalletFoundation/AlphaWalletFoundation/TokenScriptClient/Models/CallForAssetAttributeProvider.swift:100-127 | total decoder: a value of the declared type's dynamic type is lifted unchanged; any other value gives the type's default (false, empty bytes, empty string, 0). Every type except address and void always yields its own tag. Address yields an address or false, and void yields false |
| Decoder.WellTypedKeepsTag | modules/AlphaWalletFoundation/AlphaWalletFoundation/TokenScriptClient/Models/CallForAssetAttributeProvider.swift:102-122 | a well-typed wire value decodes to the tag of the declared family (address, bool, bytes, string, uint, int) |
| Decoder.DecodeEncode | modules/AlphaWalletFoundation/AlphaWalletFoundation/TokenScriptClient/Models/CallForAssetAttributeProvider.swift:100-122 | round trip: the wire form of a value decodes back to exactly that value under every declared type of its family |
| Decoder.EncodeConformsIff | modules/AlphaWalletFoundation/AlphaWalletFoundation/TokenScriptClient/Models/CallForAssetAttributeProvider.swift:102-122 | the wire form of a value is accepted for a declared type if and only if the value carries that type's tag |
| MethodCall.MakeRpc | modules/AlphaWalletFoundation/AlphaWalletFoundation/TokenScriptClient/Models/CallForAssetAttributeProvider.swift:42-54 | rejects without issuing a call when the function descriptor cannot be built (checked first) or the network has no session; otherwise issues one call to the descriptor's contract with its function name and arguments |
| MethodCall.Response | modules/AlphaWalletFoundation/AlphaWalletFoundation/TokenScriptClient/Models/CallForAssetAttributeProvider.swift:78-92 | a non-dictionary answer is a cast error. A present slot "0" gives exactly mapValue of it. A missing slot gives false for void and an empty-result error naming function and contract otherwise |
| MethodCall.ResponseAnswer | modules/AlphaWalletFoundation/AlphaWalletFoundation/TokenScriptClient/Models/CallForAssetAttributeProvider.swift:78-84 | round trip through the response path: a value of the declared type answered in slot "0" comes back unchanged |
| MethodCall.ResponseFailsOnlyWhenEmpty | modules/AlphaWalletFoundation/AlphaWalletFoundation/TokenScriptClient/Models/CallForAssetAttributeProvider.swift:78-92 | a dictionary answer fails if and only if slot "0" is missing and the function is not void |
| AttributeProvider.Init | modules/AlphaWalletFoundation/AlphaWalletFoundation/TokenScriptClient/Models/CallForAssetAttributeProvider.swift:10-15 | a fresh provider has nothing in flight, no calls issued and nothing delivered |
| AttributeProvider.InitInv | modules/AlphaWalletFoundation/AlphaWalletFoundation/TokenScriptClient/Models/CallForAssetAttributeProvider.swift:10-15 | a fresh provider satisfies the provider invariant |
| AttributeProvider.ReachableInv | modules/AlphaWalletFoundation/AlphaWalletFoundation/TokenScriptClient/Models/CallForAssetAttributeProvider.swift:8-40 | every state a provider reaches from its creation, through any requests (each under its own sessions) and settlements, satisfies the invariant, so no handle is ever served twice |
| AttributeProvider.RejectedPromiseServesNoOne | modules/AlphaWalletFoundation/AlphaWalletFoundation/TokenScriptClient/Models/CallForAssetAttributeProvider.swift:20-22 | a promise rejected by makeRpcPromise, with every request attached to it, is served nothing when it settles, whatever the reply, and its key is freed |
| AttributeProvider.GetValue | modules/AlphaWalletFoundation/AlphaWalletFoundation/TokenScriptClient/Models/CallForAssetAttributeProvider.swift:17-40 | always a fresh handle. A key in flight gets the handle as a waiter, with no call issued and nothing else changed. An absent key is inserted with the handle as originator, and exactly one call is issued unless makeRpcPromise rejects. No other key's entry changes |
| AttributeProvider.Outcome | modules/AlphaWalletFoundation/AlphaWalletFoundation/TokenScriptClient/Models/CallForAssetAttributeProvider.swift:26-37 | a promise rejected by makeRpcPromise settles with its error. An issued call fails on a transport error and otherwise settles with what response(from:) makes of the reply |
| AttributeProvider.Settle | modules/AlphaWalletFoundation/AlphaWalletFoundation/TokenScriptClient/Models/CallForAssetAttributeProvider.swift:30-37 | settlement removes the key on success and on failure and leaves every other key untouched. On success, the originator and every attached waiter each receive the value once, in registration order. On failure nothing is delivered |
| AttributeProvider.GetValueInv | modules/AlphaWalletFoundation/AlphaWalletFoundation/TokenScriptClient/Models/CallForAssetAttributeProvider.swift:17-27 | getValue keeps the provider invariant: handles are fresh, distinct and unserved, and no handle is registered on two entries |
| AttributeProvider.SettleInv | modules/AlphaWalletFoundation/AlphaWalletFoundation/TokenScriptClient/Models/CallForAssetAttributeProvider.swift:20-37 | settlement keeps the provider invariant: the handles served were registered and not yet served |
| AttributeProvider.RunInv | modules/AlphaWalletFoundation/AlphaWalletFoundation/TokenScriptClient/Models/CallForAssetAttributeProvider.swift:8-40 | every state reachable from a well-formed one by any sequence of requests and settlements, with sessions free to change between requests, is well formed, and no handle is ever delivered a value twice |
| AttributeProvider.SingleFlight | modules/AlphaWalletFoundation/AlphaWalletFoundation/TokenScriptClient/Models/CallForAssetAttributeProvider.swift:19-27 | while a key is in flight and not settled, it keeps the same promise and originator, its registered waiters stay registered, and no further call is issued for it, whatever other requests come and whatever sessions each of them sees |
| AttributeProvider.RegisteredHandleIsServed | modules/AlphaWalletFoundation/AlphaWalletFoundation/TokenScriptClient/Models/CallForAssetAttributeProvider.swift:19-37 | no lost wake-up: a handle registered on a key's promise is still registered when that key settles, and a successful settlement delivers the value to it, whatever requests (under whatever sessions) come in between |
| AttributeProvider.FreshCallAfterSettle | modules/AlphaWalletFoundation/AlphaWalletFoundation/TokenScriptClient/Models/CallForAssetAttributeProvider.swift:26-36 | no result caching: after a key settles, the next request for it issues a new call |
| Scenarios.CoalescedRequests | modules/AlphaWalletFoundation/AlphaWalletFoundation/TokenScriptClient/Models/CallForAssetAttributeProvider.swift:17-37 | two requests for one call before it settles issue one call, and both handles receive the answered value |
| Scenarios.NoCachingAfterSettle | modules/AlphaWalletFoundation/AlphaWalletFoundation/TokenScriptClient/Models/CallForAssetAttributeProvider.swift:26-36 | after a coalesced call settles, a third request for the same call issues a second call |
| Scenarios.DistinctCallsIssueSeparately | modules/AlphaWalletFoundation/AlphaWalletFoundation/TokenScriptClient/Models/CallForAssetAttributeProvider.swift:26-27 | requests for two different descriptors issue two separate calls |
| Scenarios.MissingSessionNeverResolves | modules/AlphaWalletFoundation/AlphaWalletFoundation/TokenScriptClient/Models/CallForAssetAttributeProvider.swift:42-48 | without a session nothing is issued, the promise is rejected, settlement delivers nothing whatever the reply, and the key is freed |
| Scenarios.BalanceOfExample | modules/AlphaWalletFoundation/AlphaWalletFoundation/TokenScriptClient/Models/CallForAssetAttributeProvider.swift:17-37 | two balanceOf requests answered 42 both see unsigned 42 with one call recorded, and a later request records a second call |

## Left out

- Concurrency. The source looks up a key (line 19) and inserts it (line 27) as two separate operations on an `AtomicDictionary`. So two concurrent first requests could both issue a call. The model makes every request one atomic step and claims single flight only under that assumption.
- The window between a promise settling and its handlers running. PromiseKit runs `done` and `catch` handlers asynchronously. A request that arrives after settlement but before removal still attaches, and is served if the promise was fulfilled; a rejected promise serves it nothing, since its handler (lines 20-22) is a `done` followed by `cauterize`. The model settles and removes in one step, so this window does not exist in it.
- The `[weak self]` guard (lines 31 and 35). Once the provider is deallocated, the originator's `done` handler returns before line 32, so the originator's handle is never served and the key is never removed; the `catch` handler likewise skips removal. Waiters are still served, because their handler (lines 20-21) does not capture the provider. The model's provider is never deallocated, so it always serves the originator and always removes the key.
- PromiseKit and `Subscribable` internals, including late subscribers replaying an already-sent value. A handle is modelled only by the values delivered to it.
- The network round trip (`callPromise`). Issuing a call is recorded in the call log. The node's reply, or a transport error, is the parameter of the settlement event.
- `CallForAssetAttribute.init` is not part of this model. Whether a descriptor can be built is a parameter of each request (`Environment.describable`), a function of the function name, input types and output type, which are all that line 43 passes it. The sessions provider is a parameter of each request too: the set of networks with a session at that moment.
- The call log records the descriptor of each issued call rather than the `ContractCall` built from it; `MethodCall.MakeRpc` states that the contract call is determined by the descriptor (its contract, function name and arguments).
- The synthesised ABI text (line 73) and `shouldDelayIfCached`, which do not affect what is decoded.
- The unused `attributeId` parameter of `getValue` and `makeRpcPromise`.
- `BigUInt`, `BigInt` and `EthereumAddress` are modelled as `nat`, `int` and an opaque address. The conversion from `EthereumAddress` to `AlphaWallet.Address` is taken as the identity.
- Swift's dynamic casts (`as?`) are modelled as a test of one wire constructor. Foundation bridging, such as an `NSNumber` cast to `Bool`, is not modelled.
- Error messages are kept as structured `CallError` values rather than description strings. The empty-result error names the function through `function.name`, which is taken to be the descriptor's function name.
- The cases of `AssetInternalValue` that this provider never produces.
- The widths of the Solidity integer and byte types are kept but not checked, because `mapValue` treats every member of a family alike.
- A settlement event for a key not in flight leaves the state unchanged, because no promise exists to settle.
- The view controller and coordinator tests in the same repository, which hold no logic of this component.
