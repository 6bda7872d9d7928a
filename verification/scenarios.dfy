/**
 End-to-end behaviour of the attribute provider over short event sequences:
 coalescing of identical requests, independence of distinct ones, a missing
 session, and a fresh call after settlement.
 */
module Scenarios {
  import opened Values
  import opened Decoder
  import opened MethodCall
  import opened AttributeProvider

  /** Two requests for the same call before it settles share one issued
      call, and a successful answer reaches both handles, originator first. */
  lemma CoalescedRequests(p: Provider, env: Environment, k: AssetFunctionCall, v: AssetValue)
    requires k !in p.inflight
    requires MakeRpc(env, k).Success?
    requires HasTagOf(k.output, v)
    ensures var r1 := GetValue(p, env, k);
            var r2 := GetValue(r1.provider, env, k);
            var q := Settle(r2.provider, k, Success(Answer(v)));
            && r1.handle != r2.handle
            && q.rpcs == p.rpcs + [k]
            && q.deliveries == p.deliveries + [Delivery(r1.handle, v), Delivery(r2.handle, v)]
            && k !in q.inflight
  {
    var r1 := GetValue(p, env, k);
    var r2 := GetValue(r1.provider, env, k);
    var e := r2.provider.inflight[k];
    assert Subscribers(e) == [r1.handle, r2.handle];
    ResponseAnswer(k, v);
    var q := Settle(r2.provider, k, Success(Answer(v)));
    assert q.deliveries[..|p.deliveries|] == p.deliveries;
    assert q.deliveries == q.deliveries[..|p.deliveries|] + q.deliveries[|p.deliveries|..];
  }

  /** After the coalesced call has settled, a third request for the same
      call issues a second, independent call. */
  lemma NoCachingAfterSettle(p: Provider, env: Environment, k: AssetFunctionCall, v: AssetValue)
    requires k !in p.inflight
    requires MakeRpc(env, k).Success?
    requires HasTagOf(k.output, v)
    ensures var r1 := GetValue(p, env, k);
            var r2 := GetValue(r1.provider, env, k);
            var q := Settle(r2.provider, k, Success(Answer(v)));
            var r3 := GetValue(q, env, k);
            && r3.provider.rpcs == p.rpcs + [k, k]
            && r3.provider.inflight[k].origin == r3.handle
            && r3.provider.inflight[k].promise == Pending(|p.rpcs| + 1)
  {
    CoalescedRequests(p, env, k, v);
  }

  /** Requests for two different calls issue two calls. */
  lemma DistinctCallsIssueSeparately(p: Provider, env: Environment, k1: AssetFunctionCall, k2: AssetFunctionCall)
    requires k1 != k2 && k1 !in p.inflight && k2 !in p.inflight
    requires MakeRpc(env, k1).Success? && MakeRpc(env, k2).Success?
    ensures var r1 := GetValue(p, env, k1);
            var r2 := GetValue(r1.provider, env, k2);
            && r2.provider.rpcs == p.rpcs + [k1, k2]
            && r2.provider.inflight[k1].promise != r2.provider.inflight[k2].promise
  {
  }

  /** A call whose network has no session issues nothing, is rejected with
      a session error (or a descriptor error, which is checked first), and
      serves no handle when it settles, whatever the reply; its key is
      still freed. */
  lemma MissingSessionNeverResolves(p: Provider, env: Environment, k: AssetFunctionCall, reply: Result<WireValue>)
    requires k !in p.inflight
    requires k.server !in env.sessions
    ensures var r := GetValue(p, env, k);
            var q := Settle(r.provider, k, reply);
            && r.provider.rpcs == p.rpcs
            && r.provider.inflight[k].promise in
                 {Rejected(DescriptorUnavailable(k.functionName)),
                  Rejected(SessionUnavailable(k.server, k.functionName))}
            && q.deliveries == p.deliveries
            && k !in q.inflight
  {
  }

  /** A `balanceOf` query on network 1: two callers ask for it, the node answers 42, and both handles see
      unsigned 42 while exactly one call is recorded; a later third caller
      causes a second call. */
  lemma BalanceOfExample(env: Environment)
    requires MakeRpc(env, BalanceOf()).Success?
    ensures var r1 := GetValue(Init(), env, BalanceOf());
            var r2 := GetValue(r1.provider, env, BalanceOf());
            var q := Settle(r2.provider, BalanceOf(), Success(Answer(UintValue(42))));
            && q.rpcs == [BalanceOf()]
            && q.deliveries == [Delivery(r1.handle, UintValue(42)), Delivery(r2.handle, UintValue(42))]
            && GetValue(q, env, BalanceOf()).provider.rpcs == [BalanceOf(), BalanceOf()]
  {
    NoCachingAfterSettle(Init(), env, BalanceOf(), UintValue(42));
  }

  /** A `balanceOf` call on network 1, asking about one account. */
  function BalanceOf(): (c: AssetFunctionCall)
  {
    AssetFunctionCall(1, Address(0xAAA), "balanceOf", [AddressType], UintType(256),
                      [WireAddress(Address(0xBBB))])
  }
}
