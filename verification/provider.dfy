/**
 The single-flight attribute provider `CallForAssetAttributeProvider`:
 `getValue` and the settle handlers of its promises, as a sequential state
 machine. Each request and each settlement is one atomic step.

 The in-flight map sends a call descriptor to the promise of the one call
 issued for it. A promise remembers the handle of the request that created
 it (its `done` handler both delivers and removes the key) and the handles
 of the requests that attached to it later (their `done` handlers only
 deliver). Issued contract calls and delivered values are kept as logs.
 */
module AttributeProvider {
  import opened Values
  import opened MethodCall

  /** A `Subscribable` returned by `getValue`, named by a fresh number. */
  type HandleId = nat

  /** The state of the promise of an in-flight call: waiting for the answer
      to issued call number `rpc`, or already rejected by `makeRpcPromise`
      without any call being issued. */
  datatype Promise = Pending(rpc: nat) | Rejected(error: CallError)

  /** An in-flight entry: the promise and the handles registered on it. */
  datatype Entry = Entry(origin: HandleId, waiters: seq<HandleId>, promise: Promise)

  /** A value sent to a handle. */
  datatype Delivery = Delivery(handle: HandleId, value: AssetValue)

  /** The provider's state. `rpcs` logs the descriptor of every contract
      call issued, in order (the descriptor determines the contract call
      sent, as `MakeRpc` states); `deliveries` logs every value sent to a
      handle, in order; `nextHandle` is the number the next handle gets. */
  datatype Provider = Provider(
    inflight: map<AssetFunctionCall, Entry>,
    rpcs: seq<AssetFunctionCall>,
    nextHandle: nat,
    deliveries: seq<Delivery>)

  /** What `getValue` returns: the new state and the caller's handle. */
  datatype Requested = Requested(provider: Provider, handle: HandleId)

  /** A freshly created provider holds nothing in flight. */
  function Init(): (p: Provider)
    ensures p.inflight == map[] && p.rpcs == [] && p.deliveries == []
  {
    Provider(map[], [], 0, [])
  }

  /** Every handle registered on an entry, in registration order: the
      originator's `done` handler comes first. */
  function Subscribers(e: Entry): (s: seq<HandleId>)
    ensures |s| == |e.waiters| + 1 && s[0] == e.origin
  {
    [e.origin] + e.waiters
  }

  /** `getValue(forAttributeId:functionCall:)`. The caller always gets a new
      handle. A call already in flight gains the handle as a waiter and
      nothing else changes: no call is issued and every other entry stays.
      A call not in flight is inserted with the handle as its originator,
      and exactly one contract call is issued for it unless
      `makeRpcPromise` rejects, in which case the rejected promise is
      stored and nothing is issued. Nothing is delivered either way. */
  function GetValue(p: Provider, env: Environment, call: AssetFunctionCall): (r: Requested)
    ensures r.handle == p.nextHandle && r.provider.nextHandle == p.nextHandle + 1
    ensures r.provider.deliveries == p.deliveries
    ensures r.provider.inflight.Keys == p.inflight.Keys + {call}
    ensures forall k :: k in p.inflight && k != call ==> r.provider.inflight[k] == p.inflight[k]
    ensures call in p.inflight ==>
              && r.provider.rpcs == p.rpcs
              && r.provider.inflight[call].origin == p.inflight[call].origin
              && r.provider.inflight[call].promise == p.inflight[call].promise
              && r.provider.inflight[call].waiters == p.inflight[call].waiters + [r.handle]
    ensures call !in p.inflight ==>
              && r.provider.inflight[call].origin == r.handle
              && r.provider.inflight[call].waiters == []
    ensures call !in p.inflight && MakeRpc(env, call).Success? ==>
              && r.provider.rpcs == p.rpcs + [call]
              && r.provider.inflight[call].promise == Pending(|p.rpcs|)
    ensures call !in p.inflight && MakeRpc(env, call).Failure? ==>
              && r.provider.rpcs == p.rpcs
              && r.provider.inflight[call].promise == Rejected(MakeRpc(env, call).error)
  {
    var h := p.nextHandle;
    var p1 := p.(nextHandle := h + 1);
    if call in p.inflight then
      var e := p.inflight[call];
      Requested(p1.(inflight := p.inflight[call := e.(waiters := e.waiters + [h])]), h)
    else
      match MakeRpc(env, call)
      case Failure(err) =>
        Requested(p1.(inflight := p.inflight[call := Entry(h, [], Rejected(err))]), h)
      case Success(_) =>
        Requested(p1.(inflight := p.inflight[call := Entry(h, [], Pending(|p.rpcs|))],
                      rpcs := p.rpcs + [call]), h)
  }

  /** How a promise settles: the chain `makeRpcPromise` builds, where the
      blockchain provider's `callPromise` hands the node's answer to
      `response(from:)`. A rejected promise keeps its error; a pending one
      fails on a transport error and otherwise settles with whatever
      `response(from:)` makes of the node's answer. */
  function Outcome(call: AssetFunctionCall, promise: Promise, reply: Result<WireValue>): (r: Result<AssetValue>)
    ensures promise.Rejected? ==> r == Failure(promise.error)
    ensures promise.Pending? && reply.Failure? ==> r == Failure(reply.error)
    ensures promise.Pending? && reply.Success? ==> r == Response(call, reply.value)
  {
    match promise
    case Rejected(err) => Failure(err)
    case Pending(_) =>
      match reply
      case Failure(err) => Failure(err)
      case Success(w) => Response(call, w)
  }

  /** The deliveries of one value to each handle of `hs`, in order. */
  function Fanout(hs: seq<HandleId>, v: AssetValue): (ds: seq<Delivery>)
    ensures |ds| == |hs|
    ensures forall i :: 0 <= i < |hs| ==> ds[i] == Delivery(hs[i], v)
  {
    if hs == [] then [] else [Delivery(hs[0], v)] + Fanout(hs[1..], v)
  }

  /** The settle handlers of the promise for `call`, run together. The key
      leaves the map whatever the outcome, and no other entry changes. On
      success every handle registered on the promise, originator first,
      receives the value once; on failure nothing is delivered. The reply
      is consulted only when a call was actually issued. A call that is
      not in flight has no promise to settle. */
  function Settle(p: Provider, call: AssetFunctionCall, reply: Result<WireValue>): (r: Provider)
    ensures r.inflight == p.inflight - {call}
    ensures r.rpcs == p.rpcs && r.nextHandle == p.nextHandle
    ensures call !in p.inflight ==> r.deliveries == p.deliveries
    ensures call in p.inflight && Outcome(call, p.inflight[call].promise, reply).Failure? ==>
              r.deliveries == p.deliveries
    ensures call in p.inflight && Outcome(call, p.inflight[call].promise, reply).Success? ==>
              var subs := Subscribers(p.inflight[call]);
              var v := Outcome(call, p.inflight[call].promise, reply).value;
              && |r.deliveries| == |p.deliveries| + |subs|
              && r.deliveries[..|p.deliveries|] == p.deliveries
              && forall i :: 0 <= i < |subs| ==> r.deliveries[|p.deliveries| + i] == Delivery(subs[i], v)
  {
    if call !in p.inflight then
      p
    else
      var e := p.inflight[call];
      var sent := match Outcome(call, e.promise, reply)
                  case Success(v) => Fanout(Subscribers(e), v)
                  case Failure(_) => [];
      var r := p.(inflight := p.inflight - {call}, deliveries := p.deliveries + sent);
      assert r.deliveries[..|p.deliveries|] == p.deliveries;
      r
  }

  /** The events the provider reacts to: a `getValue` call, carrying the
      environment `makeRpcPromise` sees at that moment (sessions come and
      go between requests), and the settlement of the promise in flight
      for a call, carrying the node's reply (or a transport error). */
  datatype Event =
    | Request(call: AssetFunctionCall, env: Environment)
    | Settlement(call: AssetFunctionCall, reply: Result<WireValue>)

  /** One atomic step. */
  function Step(p: Provider, ev: Event): (q: Provider)
  {
    match ev
    case Request(call, env) => GetValue(p, env, call).provider
    case Settlement(call, reply) => Settle(p, call, reply)
  }

  /** The state after a sequence of events. */
  function Run(p: Provider, evs: seq<Event>): (q: Provider)
    decreases |evs|
  {
    if evs == [] then p else Run(Step(p, evs[0]), evs[1..])
  }

  predicate Distinct(s: seq<HandleId>)
  {
    forall i, j :: 0 <= i < j < |s| ==> s[i] != s[j]
  }

  predicate DistinctDeliveries(ds: seq<Delivery>)
  {
    forall i, j :: 0 <= i < j < |ds| ==> ds[i].handle != ds[j].handle
  }

  predicate Delivered(ds: seq<Delivery>, h: HandleId)
  {
    exists i :: 0 <= i < |ds| && ds[i].handle == h
  }

  /** A well-formed entry for `k`: its handles are distinct, already handed
      out, and not yet served; a pending promise names the issued call made
      for `k`. */
  predicate EntryOk(p: Provider, k: AssetFunctionCall)
    requires k in p.inflight
  {
    var e := p.inflight[k];
    && Distinct(Subscribers(e))
    && (forall h :: h in Subscribers(e) ==> h < p.nextHandle && !Delivered(p.deliveries, h))
    && (e.promise.Pending? ==> e.promise.rpc < |p.rpcs| && p.rpcs[e.promise.rpc] == k)
  }

  /** The provider's invariant: well-formed entries, no handle registered
      on two entries, every served handle handed out, and no handle served
      twice. */
  predicate Inv(p: Provider)
  {
    && (forall k :: k in p.inflight ==> EntryOk(p, k))
    && (forall k1, k2, h :: k1 in p.inflight && k2 in p.inflight && k1 != k2 && h in Subscribers(p.inflight[k1])
          ==> h !in Subscribers(p.inflight[k2]))
    && (forall i :: 0 <= i < |p.deliveries| ==> p.deliveries[i].handle < p.nextHandle)
    && DistinctDeliveries(p.deliveries)
  }

  /** A freshly created provider is well formed. */
  lemma InitInv()
    ensures Inv(Init())
  {
  }

  /** `getValue` keeps the invariant: the new handle is fresh. */
  lemma GetValueInv(p: Provider, env: Environment, call: AssetFunctionCall)
    requires Inv(p)
    ensures Inv(GetValue(p, env, call).provider)
  {
    var r := GetValue(p, env, call);
    var q := r.provider;
    var h := r.handle;
    forall k | k in q.inflight
      ensures EntryOk(q, k)
    {
      if k == call && call in p.inflight {
        var s := Subscribers(p.inflight[call]);
        assert Subscribers(q.inflight[call]) == s + [h];
        assert h !in s;
      }
    }
    forall k1, k2, x | k1 in q.inflight && k2 in q.inflight && k1 != k2 && x in Subscribers(q.inflight[k1])
      ensures x !in Subscribers(q.inflight[k2])
    {
      if k1 == call && call in p.inflight {
        assert Subscribers(q.inflight[call]) == Subscribers(p.inflight[call]) + [h];
      }
      if k2 == call && call in p.inflight {
        assert Subscribers(q.inflight[call]) == Subscribers(p.inflight[call]) + [h];
      }
    }
  }

  /** The handles served by appending a fan-out are those served before
      and those fanned out to. */
  lemma DeliveredAfterFanout(ds: seq<Delivery>, hs: seq<HandleId>, v: AssetValue, x: HandleId)
    ensures Delivered(ds + Fanout(hs, v), x) <==> Delivered(ds, x) || x in hs
  {
    var all := ds + Fanout(hs, v);
    if Delivered(all, x) {
      var i :| 0 <= i < |all| && all[i].handle == x;
      if i >= |ds| {
        assert all[i] == Delivery(hs[i - |ds|], v);
      } else {
        assert all[i] == ds[i];
      }
    }
    if x in hs {
      var j :| 0 <= j < |hs| && hs[j] == x;
      assert all[|ds| + j].handle == x;
    }
    if Delivered(ds, x) {
      var i :| 0 <= i < |ds| && ds[i].handle == x;
      assert all[i] == ds[i];
    }
  }

  /** Fanning out to distinct, not yet served handles serves no handle twice. */
  lemma FanoutKeepsDistinct(ds: seq<Delivery>, hs: seq<HandleId>, v: AssetValue)
    requires DistinctDeliveries(ds) && Distinct(hs)
    requires forall h :: h in hs ==> !Delivered(ds, h)
    ensures DistinctDeliveries(ds + Fanout(hs, v))
  {
    var all := ds + Fanout(hs, v);
    var n := |ds|;
    forall i, j | 0 <= i < j < |all|
      ensures all[i].handle != all[j].handle
    {
      if j < n {
        assert all[i] == ds[i] && all[j] == ds[j];
      } else if i < n {
        assert all[i] == ds[i];
        assert all[j].handle == hs[j - n];
        assert hs[j - n] in hs;
      } else {
        assert all[i].handle == hs[i - n];
        assert all[j].handle == hs[j - n];
      }
    }
  }

  /** Settling keeps the invariant: the handles served are the removed
      entry's, which were distinct and not yet served, and belong to no
      other entry. */
  lemma SettleInv(p: Provider, call: AssetFunctionCall, reply: Result<WireValue>)
    requires Inv(p)
    ensures Inv(Settle(p, call, reply))
  {
    var q := Settle(p, call, reply);
    if call in p.inflight && Outcome(call, p.inflight[call].promise, reply).Success? {
      var e := p.inflight[call];
      var subs := Subscribers(e);
      var v := Outcome(call, e.promise, reply).value;
      assert q.deliveries == p.deliveries + Fanout(subs, v);
      assert EntryOk(p, call);
      FanoutKeepsDistinct(p.deliveries, subs, v);
      forall i | 0 <= i < |q.deliveries|
        ensures q.deliveries[i].handle < q.nextHandle
      {
        if i >= |p.deliveries| {
          assert subs[i - |p.deliveries|] in subs;
        }
      }
      forall k | k in q.inflight
        ensures EntryOk(q, k)
      {
        assert EntryOk(p, k);
        forall x | x in Subscribers(q.inflight[k])
          ensures !Delivered(q.deliveries, x)
        {
          DeliveredAfterFanout(p.deliveries, subs, v, x);
        }
      }
    } else {
      forall k | k in q.inflight
        ensures EntryOk(q, k)
      {
        assert EntryOk(p, k);
      }
    }
  }

  lemma StepInv(p: Provider, ev: Event)
    requires Inv(p)
    ensures Inv(Step(p, ev))
  {
    match ev
    case Request(call, env) => GetValueInv(p, env, call);
    case Settlement(call, reply) => SettleInv(p, call, reply);
  }

  /** Every reachable state keeps the invariant; in particular no handle is
      ever served twice. */
  lemma {:induction false} RunInv(p: Provider, evs: seq<Event>)
    requires Inv(p)
    ensures Inv(Run(p, evs))
    ensures DistinctDeliveries(Run(p, evs).deliveries)
    decreases |evs|
  {
    if evs != [] {
      StepInv(p, evs[0]);
      RunInv(Step(p, evs[0]), evs[1..]);
    }
  }

  /** Every state a real provider reaches, from its creation through any
      requests and settlements, is well formed: no handle is served twice. */
  lemma ReachableInv(evs: seq<Event>)
    ensures Inv(Run(Init(), evs))
    ensures DistinctDeliveries(Run(Init(), evs).deliveries)
  {
    InitInv();
    RunInv(Init(), evs);
  }

  /** A request that attached to a promise `makeRpcPromise` rejected is
      served nothing when that promise settles, whatever the reply. */
  lemma RejectedPromiseServesNoOne(p: Provider, k: AssetFunctionCall, reply: Result<WireValue>)
    requires k in p.inflight && p.inflight[k].promise.Rejected?
    ensures Settle(p, k, reply).deliveries == p.deliveries
    ensures k !in Settle(p, k, reply).inflight
  {
  }

  predicate SettlesCall(ev: Event, k: AssetFunctionCall)
  {
    ev.Settlement? && ev.call == k
  }

  /** Single flight: while no settlement for `k` happens, `k` stays in flight
      on the same promise with the same originator, the handles registered
      so far stay registered, and no further call is issued for `k`. */
  lemma {:induction false} SingleFlight(p: Provider, evs: seq<Event>, k: AssetFunctionCall)
    requires k in p.inflight
    requires forall i :: 0 <= i < |evs| ==> !SettlesCall(evs[i], k)
    ensures var q := Run(p, evs);
            && k in q.inflight
            && q.inflight[k].origin == p.inflight[k].origin
            && q.inflight[k].promise == p.inflight[k].promise
            && p.inflight[k].waiters <= q.inflight[k].waiters
            && multiset(q.rpcs)[k] == multiset(p.rpcs)[k]
    decreases |evs|
  {
    if evs != [] {
      var p1 := Step(p, evs[0]);
      assert !SettlesCall(evs[0], k);
      if evs[0].Request? && evs[0].call != k {
        assert p1.rpcs == p.rpcs || p1.rpcs == p.rpcs + [evs[0].call];
      }
      assert p1.inflight[k] == p.inflight[k] || p1.inflight[k].waiters == p.inflight[k].waiters + [p.nextHandle];
      assert multiset(p1.rpcs)[k] == multiset(p.rpcs)[k];
      forall i | 0 <= i < |evs[1..]|
        ensures !SettlesCall(evs[1..][i], k)
      {
        assert evs[1..][i] == evs[i + 1];
      }
      SingleFlight(p1, evs[1..], k);
    }
  }

  /** No lost wake-up: a handle registered on the promise for `k` is still
      registered when `k` settles, however many other events come first,
      and a successful settlement serves it the settled value. */
  lemma RegisteredHandleIsServed(p: Provider, evs: seq<Event>,
                                 k: AssetFunctionCall, h: HandleId, reply: Result<WireValue>)
    requires k in p.inflight && h in Subscribers(p.inflight[k])
    requires forall i :: 0 <= i < |evs| ==> !SettlesCall(evs[i], k)
    ensures var q := Run(p, evs);
            var outcome := Outcome(k, p.inflight[k].promise, reply);
            && k in q.inflight
            && (outcome.Success? ==>
                  exists i :: 0 <= i < |Settle(q, k, reply).deliveries|
                           && Settle(q, k, reply).deliveries[i] == Delivery(h, outcome.value))
  {
    SingleFlight(p, evs, k);
    var q := Run(p, evs);
    var subs := Subscribers(q.inflight[k]);
    var j :| 0 <= j < |Subscribers(p.inflight[k])| && Subscribers(p.inflight[k])[j] == h;
    if j > 0 {
      assert p.inflight[k].waiters[j - 1] == q.inflight[k].waiters[j - 1];
    }
    assert subs[j] == h;
    var outcome := Outcome(k, p.inflight[k].promise, reply);
    if outcome.Success? {
      var r := Settle(q, k, reply);
      assert r.deliveries[|q.deliveries| + j] == Delivery(h, outcome.value);
    }
  }

  /** No result caching: once `k` has settled, the next request for it
      issues a new call, provided the call can be made at all. */
  lemma FreshCallAfterSettle(p: Provider, env: Environment, k: AssetFunctionCall, reply: Result<WireValue>)
    requires MakeRpc(env, k).Success?
    ensures var q := Settle(p, k, reply);
            var r := GetValue(q, env, k).provider;
            && k !in q.inflight
            && r.rpcs == p.rpcs + [k]
            && multiset(r.rpcs)[k] == multiset(p.rpcs)[k] + 1
  {
  }
}
