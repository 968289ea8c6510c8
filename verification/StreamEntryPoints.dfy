/** Everything that can reach the stream allocator from outside, on the real objects. */
module StreamEntryPoints {
  import opened Prelude
  import opened StreamTransport
  import L = StreamLedger
  import S = StreamSafety
  import B = StreamCallbacks

  /** A call into the transport, by its caller, by a timer or by IB, with what its environment decides. */
  datatype Call =
    | Subscribe(trades: bool, contract: L.Contract, wantsError: bool, answer: L.Answer)
    | CloseHandle(handle: SubscriptionHandle, loop: bool, cancelRaises: bool)
    | SnapshotBegins(contract: L.Contract, answer: L.Answer)
    | SnapshotEnds(stream: Stream, timedOut: bool, loop: bool, cancelRaises: bool)
    | TopBegins(contract: L.Contract, answer: L.Answer)
    | TopTimesOut(stream: Stream, loop: bool, cancelRaises: bool)
    | TimerFires(stream: Stream, cancelRaises: bool)
    | IbError(reqId: int, code: int, loop: bool, cancelRaises: bool)
    | ResubscribeAll(cancelOld: bool, lost: bool, moves: nat -> L.Move)
    | Disconnect(raises: nat -> bool)

  ghost function EventOf(c: Call): S.Event {
    match c
    case Subscribe(trades, k, e, a) => S.Subscribing(if trades then L.Trades else L.Depth, k, e, a)
    case CloseHandle(h, loop, r) => S.Closing(h.id, L.Env(loop, r))
    case SnapshotBegins(k, a) => S.SnapshotStarts(k, a)
    case SnapshotEnds(s, t, loop, r) => S.SnapshotEnds(s.serial, t, L.Env(loop, r))
    case TopBegins(k, a) => S.TopStarts(k, a)
    case TopTimesOut(s, loop, r) => S.TopTimesOut(s.serial, L.Env(loop, r))
    case TimerFires(s, r) => S.TimerFires(s.serial, L.Env(true, r))
    case IbError(q, code, loop, r) => S.IbError(q, code, L.Env(loop, r))
    case ResubscribeAll(c, lost, moves) => S.Resubscribing(c, lost, moves)
    case Disconnect(raises) => S.Disconnecting(raises)
  }

  /** The objects named in a call are this transport's. */
  ghost predicate Names(t: IbStreamTransport, c: Call)
    reads t
  {
    match c
    case CloseHandle(h, _, _) => t.Owns(h)
    case SnapshotEnds(s, _, _, _) => t.Has(s) && s.kind.Depth?
    case TopTimesOut(s, _, _) => t.Has(s) && s.kind.L1?
    case TimerFires(s, _) => t.Has(s) && s.kind.Depth?
    case _ => true
  }

  lemma SoundNames(t: IbStreamTransport)
    requires S.Inv(t.w)
    ensures t.Named() && L.Wired(t.w)
  {
    S.InvGives(t.w);
  }

  /** Every entry point keeps every invariant, and does exactly what the transition system says. */
  method Dispatch(t: IbStreamTransport, c: Call)
    requires t.Valid() && S.Inv(t.w) && Names(t, c) && S.Enabled(t.w, EventOf(c))
    modifies t, t.streams, t.handles
    ensures t.Valid() && S.Inv(t.w) && t.w == S.Step(old(t.w), EventOf(c))
  {
    hide S.Inv, L.Subscribe, L.Close, L.SnapshotBegin, L.SnapshotEnd, L.TopOfBook, L.TimedOut, L.IdleExpired,
         L.StreamError, L.ResubscribeAll, L.ReleaseAll, S.FreshAll;
    SoundNames(t);
    S.StepKeeps(t.w, EventOf(c));
    match c
    case Subscribe(trades, k, e, a) => var _ := t.Subscribe(trades, k, e, a);
    case CloseHandle(h, loop, r) => HandleReachable(t, h); t.Close(h, loop, r);
    case SnapshotBegins(k, a) => var _ := t.DepthSnapshotBegin(k, a);
    case SnapshotEnds(s, timedOut, loop, r) => t.DepthSnapshotEnd(s, timedOut, loop, r);
    case TopBegins(k, a) => var _ := t.TopOfBookBegin(k, a);
    case TopTimesOut(s, loop, r) => t.TimedOut(s, false, loop, r);
    case TimerFires(s, r) => t.IdleExpired(s, L.Env(true, r));
    case IbError(q, code, loop, r) => t.OnStreamError(q, code, loop, r);
    case ResubscribeAll(cancelOld, lost, moves) => t.ResubscribeAll(cancelOld, lost, moves);
    case Disconnect(raises) => t.ReleaseAllStreams(raises);
  }

  // ---- callbacks that subscribe, on the objects ------------------------------------------------

  /** subscribe() admits depth and trades. */
  ghost predicate Subscribable(again: seq<B.Again>) {
    forall k :: 0 <= k < |again| ==> !again[k].kind.L1?
  }

  /** What one callback subscribes. */
  method React(t: IbStreamTransport, again: seq<B.Again>)
    requires t.Valid() && B.Sound(t.w) && Subscribable(again)
    modifies t, t.streams
    ensures t.Valid() && t.w == B.SubscribeAll(old(t.w), again)
    ensures old(t.streams) <= t.streams && fresh(t.streams[|old(t.streams)|..])
    ensures old(t.handles) <= t.handles
    decreases |again|
  {
    hide L.Subscribe, B.SubscribeOne;
    if again != [] {
      var a := again[0];
      B.SubscribeSound(t.w, a);
      SubscribeIsOne(t.w, a);
      var _ := t.Subscribe(a.kind.Trades?, a.contract, a.wantsError, a.answer);
      ghost var mid := t.streams;
      assert mid == old(t.streams) + mid[|old(t.streams)|..];
      React(t, again[1..]);
      assert t.streams[|old(t.streams)|..] == mid[|old(t.streams)|..] + t.streams[|mid|..];
    }
  }

  lemma SubscribeIsOne(w: L.Ledger, a: B.Again)
    requires B.Sound(w) && !a.kind.L1?
    ensures B.SubscribeOne(w, a)
      == L.Subscribe(w, if a.kind.Trades? then L.Trades else L.Depth, a.contract, a.wantsError, a.answer)
  {
  }

  /** The loop over the copied subscriber list; reacts[k] is what the callback of the k-th subscriber subscribes. */
  method TellWithCallbacks(t: IbStreamTransport, subscribers: seq<SubscriptionHandle>, reacts: seq<seq<B.Again>>,
                           ghost ids: seq<nat>, code: int, loop: bool, ghost cancelRaises: bool,
                           ghost calls: nat -> seq<B.Again>)
    requires t.Valid() && L.Wired(t.w) && B.Sound(t.w) && L.Known(t.w, ids) && |subscribers| == |reacts| == |ids|
    requires forall k :: 0 <= k < |ids| ==> t.Owns(subscribers[k]) && subscribers[k].id == ids[k]
    requires forall k :: 0 <= k < |ids| ==> reacts[k] == calls(ids[k]) && Subscribable(reacts[k])
    modifies t, t.streams, t.handles
    ensures t.Valid() && t.w == B.NotifyAllWith(old(t.w), ids, code, L.Env(loop, cancelRaises), calls)
  {
    hide L.Notify, L.Wired, B.Sound, B.SubscribeAll;
    forall k | 0 <= k < |ids| ensures subscribers[k] in old(t.handles) {
      HandleReachable(t, subscribers[k]);
    }
    ghost var env := L.Env(loop, cancelRaises);
    assert ids[0..] == ids;
    for n := 0 to |subscribers|
      invariant old(t.streams) <= t.streams && fresh(t.streams[|old(t.streams)|..]) && old(t.handles) <= t.handles
      invariant forall k :: 0 <= k < |ids| ==> subscribers[k] in old(t.handles) && t.Owns(subscribers[k])
      invariant t.Valid() && L.Wired(t.w) && B.Sound(t.w) && L.Known(t.w, ids[n..])
      invariant B.NotifyAllWith(t.w, ids[n..], code, env, calls) == B.NotifyAllWith(old(t.w), ids, code, env, calls)
    {
      ghost var mid := t.streams;
      assert mid == old(t.streams) + mid[|old(t.streams)|..];
      TellOne(t, subscribers[n], reacts[n], ids[n..], code, loop, cancelRaises, calls);
      assert t.streams[|old(t.streams)|..] == mid[|old(t.streams)|..] + t.streams[|mid|..];
      assert ids[n..][1..] == ids[n + 1..];
    }
  }

  /** One subscriber told, and what its callback subscribes. */
  method TellOne(t: IbStreamTransport, h: SubscriptionHandle, again: seq<B.Again>, ghost ids: seq<nat>,
                 code: int, loop: bool, ghost cancelRaises: bool, ghost calls: nat -> seq<B.Again>)
    requires t.Valid() && L.Wired(t.w) && B.Sound(t.w) && L.Known(t.w, ids) && t.Owns(h)
    requires ids != [] && h.id == ids[0] && again == calls(ids[0]) && Subscribable(again)
    modifies t, t.streams, h
    ensures old(t.streams) <= t.streams && fresh(t.streams[|old(t.streams)|..]) && old(t.handles) <= t.handles
    ensures t.Valid() && L.Wired(t.w) && B.Sound(t.w) && L.Known(t.w, ids[1..])
    ensures B.NotifyAllWith(t.w, ids[1..], code, L.Env(loop, cancelRaises), calls)
      == B.NotifyAllWith(old(t.w), ids, code, L.Env(loop, cancelRaises), calls)
  {
    hide L.Notify, L.Wired, B.Sound, B.SubscribeAll;
    t.HandleMirror(h);
    HandleReachable(t, h);
    var calling := !h.closed && h.wantsError;
    B.NotifySound(t.w, h.id, code, L.Env(loop, cancelRaises));
    ghost var told := L.Notify(t.w, h.id, code, L.Env(loop, cancelRaises));
    t.Notify(h, code, loop, cancelRaises);
    B.SubscribeAllSound(told, if calling then again else []);
    B.SubscribeNone(told);
    if calling { React(t, again); }
  }

  /** The stream of a failing reqId, dropped from its registry. */
  method DropRouted(t: IbStreamTransport, reqId: int, ghost env: L.Env) returns (s: Stream)
    requires t.Valid() && L.RouteOf(t.w, reqId).Some?
    requires var i := L.RouteOf(t.w, reqId).value; i < |t.w.streams| && L.Live(t.w, i)
    modifies t`depthStreams, t`l1Streams, t`tradesStreams, t`streamByReqId, t`tradesByReqId, t`mdLines, t`w, t.streams
    ensures t.Valid() && t.Has(s) && s.serial == L.RouteOf(old(t.w), reqId).value
    ensures t.w == B.FailDrop(old(t.w), s.serial, env)
    ensures t.w.streams[s.serial].subscribers == old(t.w).streams[s.serial].subscribers
  {
    hide L.DropTrades, L.DropPersistent, B.FailDrop, L.Live;
    t.RouteMirror(reqId);
    s := if reqId in t.tradesByReqId then t.tradesByReqId[reqId] else t.streamByReqId[reqId].0;
    t.HasMirror(s);
    FailDropIs(t.w, s.serial, env);
    t.DropKeepsSubscribers(t.w, s.serial, env.cancelRaises);
    if reqId in t.tradesByReqId {
      t.DropTrades(s, env.cancelRaises);
    } else {
      t.DropStream(s, t.streamByReqId[reqId].1, env.cancelRaises);
    }
  }

  lemma FailDropIs(w: L.Ledger, i: nat, env: L.Env)
    requires i < |w.streams| && L.Live(w, i)
    ensures B.FailDrop(w, i, env) == if w.streams[i].kind.Trades?
      then L.DropTrades(w, i, env.cancelRaises) else L.DropPersistent(w, i, env.cancelRaises)
  {
    hide L.DropTrades, L.DropPersistent;
  }

  /** Everyone to be told of the failure, the list of the dropped stream being cleared. */
  method TakeRouted(t: IbStreamTransport, reqId: int, ghost env: L.Env) returns (subscribers: seq<SubscriptionHandle>)
    requires t.Valid() && L.RouteOf(t.w, reqId).Some?
    requires var i := L.RouteOf(t.w, reqId).value; i < |t.w.streams| && L.Live(t.w, i)
    modifies t`depthStreams, t`l1Streams, t`tradesStreams, t`streamByReqId, t`tradesByReqId, t`mdLines, t`w, t.streams
    ensures var i := L.RouteOf(old(t.w), reqId).value; var ids := old(t.w).streams[i].subscribers;
      && t.Valid() && t.w == B.ClearSubscribers(B.FailDrop(old(t.w), i, env), i)
      && |subscribers| == |ids|
      && forall k :: 0 <= k < |ids| ==> t.Owns(subscribers[k]) && subscribers[k].id == ids[k]
  {
    hide B.FailDrop, L.Live;
    var s := DropRouted(t, reqId, env);
    t.SubscribersMirror(s);
    subscribers := t.TakeSubscribers(s);
  }

  /** _on_stream_error for a failing code on a routed reqId, with callbacks that subscribe. */
  method FailWithCallbacks(t: IbStreamTransport, reqId: int, code: int, loop: bool, ghost cancelRaises: bool,
                           reacts: seq<seq<B.Again>>, ghost calls: nat -> seq<B.Again>)
    requires t.Valid() && S.Inv(t.w) && L.FailsStream(code)
    requires L.RouteOf(t.w, reqId).Some? && L.RouteOf(t.w, reqId).value < |t.w.streams|
    requires var ids := t.w.streams[L.RouteOf(t.w, reqId).value].subscribers;
      |reacts| == |ids| && forall k :: 0 <= k < |ids| ==> reacts[k] == calls(ids[k]) && Subscribable(reacts[k])
    modifies t, t.streams, t.handles
    ensures t.Valid() && t.w == B.StreamErrorWith(old(t.w), reqId, code, L.Env(loop, cancelRaises), calls)
  {
    hide S.Inv, B.FailDrop, B.ClearSubscribers, B.Sound, B.NotifyAllWith, L.Wired, L.Live, L.StreamError;
    ghost var env := L.Env(loop, cancelRaises);
    ghost var ids := t.w.streams[L.RouteOf(t.w, reqId).value].subscribers;
    B.FailReady(t.w, reqId, env);
    var subscribers := TakeRouted(t, reqId, env);
    TellWithCallbacks(t, subscribers, reacts, ids, code, loop, cancelRaises, calls);
  }

  lemma HandleReachable(t: IbStreamTransport, h: SubscriptionHandle)
    requires t.Counts() && t.Objects() && t.Owns(h)
    ensures h in t.handles && h.stream in t.streams
  {
    t.HandleMirror(h);
  }

  function KeysOf(reg: map<L.Slot, nat>, kind: L.Kind): set<L.Slot> {
    set slot | slot in reg && slot.kind == kind
  }

  lemma DictSize(t: IbStreamTransport, kind: L.Kind, m: map<L.Key, Stream>)
    requires t.IsDict(kind, m)
    ensures |m| == |KeysOf(t.w.reg, kind)|
  {
    var slots := map key | key in m :: L.Slot(kind, key);
    assert slots.Keys == m.Keys;
    InjectiveSize(slots);
    assert slots.Values == KeysOf(t.w.reg, kind) by {
      forall slot ensures slot in slots.Values <==> slot in KeysOf(t.w.reg, kind) {
        if slot in KeysOf(t.w.reg, kind) { assert slots[slot.key] == slot; }
      }
    }
  }

  lemma KindsSplit(reg: map<L.Slot, nat>)
    ensures |reg| == |KeysOf(reg, L.L1)| + |KeysOf(reg, L.Depth)| + |KeysOf(reg, L.Trades)|
  {
    var A, B, C := KeysOf(reg, L.L1), KeysOf(reg, L.Depth), KeysOf(reg, L.Trades);
    assert reg.Keys == A + B + C;
    assert |A + B| == |A| + |B| && |A + B + C| == |A + B| + |C|;
  }

  /** On the fields themselves: the line count is the size of the three dicts and within the cap. */
  lemma LinesAreTheDicts(t: IbStreamTransport)
    requires t.Valid() && S.Inv(t.w)
    ensures t.mdLines == |t.l1Streams| + |t.depthStreams| + |t.tradesStreams| <= t.cap
  {
    hide S.HandlesOk, S.RoutesOk, S.IbOk, S.StreamOk, S.Settled;
    DictSize(t, L.L1, t.l1Streams);
    DictSize(t, L.Depth, t.depthStreams);
    DictSize(t, L.Trades, t.tradesStreams);
    KindsSplit(t.w.reg);
  }
}
