/**
  The stream allocator of IbGatewayTransport in its own form: stream and handle objects updated in
  place, three stream dicts, two reqId dicts, the subscription dict and the line count. Every method
  is proved to make the transition of StreamLedger that carries its name, so all that StreamSafety
  proves of those transitions holds of the objects here.
*/
module StreamTransport {
  import opened Prelude
  import L = StreamLedger

  /** _Stream. `serial` numbers the streams in creation order, which is a dict's iteration order. */
  class Stream {
    const contract: L.Contract
    const serial: nat
    ghost const kind: L.Kind
    var refs: int
    var idle: bool
    var reqId: Option<nat>
    var hooked: bool
    var warning: Option<int>
    var subscribers: seq<SubscriptionHandle>

    constructor (contract: L.Contract, serial: nat, ghost kind: L.Kind)
      ensures this.contract == contract && this.serial == serial && this.kind == kind
      ensures refs == 0 && !idle && reqId == None && !hooked && warning == None && subscribers == []
    {
      this.contract, this.serial, this.kind := contract, serial, kind;
      refs, idle, reqId, hooked, warning, subscribers := 0, false, None, false, None, [];
    }
  }

  /** SubscriptionHandle, together with the subscription it cleans up. */
  class SubscriptionHandle {
    const stream: Stream
    const trades: bool
    const contract: L.Contract
    const wantsError: bool
    const eventKey: nat
    ghost const id: nat
    var closed: bool
    var error: Option<int>
    var calls: nat

    constructor (stream: Stream, trades: bool, contract: L.Contract, wantsError: bool, eventKey: nat, ghost id: nat)
      ensures this.stream == stream && this.trades == trades && this.contract == contract
      ensures this.wantsError == wantsError && this.eventKey == eventKey && this.id == id
      ensures !closed && error == None && calls == 0
    {
      this.stream, this.trades, this.contract := stream, trades, contract;
      this.wantsError, this.eventKey, this.id := wantsError, eventKey, id;
      closed, error, calls := false, None, 0;
    }
  }

  class IbStreamTransport {
    const cap: nat
    var mdLines: int
    var l1Streams: map<L.Key, Stream>
    var depthStreams: map<L.Key, Stream>
    var tradesStreams: map<L.Key, Stream>
    var streamByReqId: map<nat, (Stream, bool)>
    var tradesByReqId: map<nat, Stream>
    var subscriptions: map<nat, SubscriptionHandle>
    var subscribeSeq: nat
    var created: nat
    // Every object ever made, and the state of the transition system they stand for.
    ghost var streams: seq<Stream>
    ghost var handles: seq<SubscriptionHandle>
    ghost var w: L.Ledger

    // ---- what the objects stand for ---------------------------------------------------------

    ghost predicate Mirrors(s: Stream, v: L.Stream)
      reads s
    {
      && s.kind == v.kind && s.contract == v.contract && s.refs == v.refs && s.idle == v.timer
      && s.reqId == v.reqId && s.hooked == v.hooked && s.warning == v.warning
    }

    ghost predicate IsStream(i: nat)
      requires i < |streams| == |w.streams|
      reads this, streams
    {
      var s, v := streams[i], w.streams[i];
      && s.serial == i && Mirrors(s, v)
      && |s.subscribers| == |v.subscribers|
      && (forall k :: 0 <= k < |s.subscribers| ==> Owns(s.subscribers[k]) && s.subscribers[k].id == v.subscribers[k])
    }

    ghost predicate Owns(h: SubscriptionHandle)
      reads this
    {
      h.id < |handles| && handles[h.id] == h
    }

    ghost predicate Has(s: Stream)
      reads this
    {
      s.serial < |streams| && streams[s.serial] == s
    }

    ghost predicate IsHandle(h: nat)
      requires h < |handles| == |w.handles|
      reads this, handles
    {
      var a, v := handles[h], w.handles[h];
      && a.id == h && Has(a.stream) && a.stream.serial == v.stream && a.contract == v.contract
      && a.wantsError == v.wantsError && a.closed == v.closed && a.error == v.error && a.calls == v.calls
      && (a.trades <==> a.stream.kind.Trades?) && !a.stream.kind.L1?
      && a.eventKey <= subscribeSeq
      && (!a.closed <==> a.eventKey in subscriptions && subscriptions[a.eventKey] == a)
    }

    ghost predicate IsDict(kind: L.Kind, m: map<L.Key, Stream>)
      reads this
    {
      && (forall key :: key in m <==> L.Slot(kind, key) in w.reg)
      && (forall key :: key in m ==> Has(m[key]) && m[key].serial == w.reg[L.Slot(kind, key)] && m[key].kind == kind)
    }

    ghost predicate IsRoutes()
      reads this
    {
      && streamByReqId.Keys == w.routes.Keys && tradesByReqId.Keys == w.tradeRoutes.Keys
      && (forall r :: r in streamByReqId ==>
            var (s, depth) := streamByReqId[r];
            Has(s) && s.serial == w.routes[r] && (depth <==> s.kind.Depth?) && !s.kind.Trades?)
      && (forall r :: r in tradesByReqId ==>
            Has(tradesByReqId[r]) && tradesByReqId[r].serial == w.tradeRoutes[r] && tradesByReqId[r].kind.Trades?)
    }

    ghost predicate Counts()
      reads this
    {
      mdLines == w.lines && cap == w.cap && created == |streams| == |w.streams| && |handles| == |w.handles|
    }

    ghost predicate Objects()
      requires Counts()
      reads this, streams, handles
    {
      && (forall i :: 0 <= i < |streams| ==> IsStream(i))
      && (forall h :: 0 <= h < |handles| ==> IsHandle(h))
    }

    ghost predicate Dicts()
      reads this
    {
      IsDict(L.L1, l1Streams) && IsDict(L.Depth, depthStreams) && IsDict(L.Trades, tradesStreams) && IsRoutes()
    }

    ghost predicate Valid()
      reads this, streams, handles
    {
      Counts() && Objects() && Dicts()
    }

    constructor (cap: nat)
      ensures Valid() && w == L.Init(cap) && streams == [] && handles == []
    {
      this.cap := cap;
      mdLines, subscribeSeq, created := 0, 0, 0;
      l1Streams, depthStreams, tradesStreams := map[], map[], map[];
      streamByReqId, tradesByReqId, subscriptions := map[], map[], map[];
      streams, handles, w := [], [], L.Init(cap);
      new;
      hide Objects, Dicts;
      NoObjects();
      NoDicts();
    }

    lemma NoObjects()
      requires Counts() && streams == [] && handles == []
      ensures Objects()
    {
    }

    lemma NoDicts()
      requires l1Streams == map[] && depthStreams == map[] && tradesStreams == map[]
      requires streamByReqId == map[] && tradesByReqId == map[]
      requires w.reg == map[] && w.routes == map[] && w.tradeRoutes == map[]
      ensures Dicts()
    {
    }

    // ---- how one write carries over ---------------------------------------------------------

    /** One stream object was written to, and not its subscriber list. */
    twostate lemma Updated(s: Stream)
      requires old(Counts() && Objects()) && Counts() && old(Has(s))
      requires streams == old(streams) && handles == old(handles)
      requires subscriptions == old(subscriptions) && subscribeSeq == old(subscribeSeq)
      requires w.handles == old(w.handles)
      requires forall i :: 0 <= i < |streams| && i != s.serial ==> w.streams[i] == old(w.streams[i])
      requires forall i :: 0 <= i < |streams| && streams[i] != s ==> unchanged(streams[i])
      requires forall h :: 0 <= h < |handles| ==> unchanged(handles[h])
      requires Mirrors(s, w.streams[s.serial])
      requires s.subscribers == old(s.subscribers)
      requires w.streams[s.serial].subscribers == old(w.streams[s.serial].subscribers)
      ensures Objects()
    {
      forall i | 0 <= i < |streams| ensures IsStream(i) { assert old(IsStream(i)); }
      forall h | 0 <= h < |handles| ensures IsHandle(h) {
        assert old(IsHandle(h));
        assert old(IsStream(handles[h].stream.serial));
      }
    }

    /** A stream object was created. */
    twostate lemma Appended(new s: Stream)
      requires old(Counts() && Objects()) && Counts()
      requires streams == old(streams) + [s] && handles == old(handles) && s.serial == |old(streams)|
      requires subscriptions == old(subscriptions) && subscribeSeq == old(subscribeSeq)
      requires w.handles == old(w.handles)
      requires forall i :: 0 <= i < |old(streams)| ==> w.streams[i] == old(w.streams[i]) && unchanged(streams[i])
      requires forall h :: 0 <= h < |handles| ==> unchanged(handles[h])
      requires Mirrors(s, w.streams[s.serial]) && s.subscribers == [] && w.streams[s.serial].subscribers == []
      ensures Objects()
    {
      forall i | 0 <= i < |streams| ensures IsStream(i) { if i < |old(streams)| { assert old(IsStream(i)); } }
      forall h | 0 <= h < |handles| ensures IsHandle(h) {
        assert old(IsHandle(h));
        assert old(IsStream(handles[h].stream.serial));
      }
    }

    /** The newest handle was created on s and appended to its subscribers. */
    twostate lemma Subscribed(s: Stream)
      requires old(Counts() && Objects()) && Counts() && old(Has(s)) && !s.kind.L1?
      requires streams == old(streams) && |handles| == |old(handles)| + 1 && handles[..|old(handles)|] == old(handles)
      requires subscribeSeq == old(subscribeSeq)
      requires var h := handles[|old(handles)|];
        && h.id == |old(handles)| && h.stream == s && !h.closed && (h.trades <==> s.kind.Trades?)
        && subscriptions == old(subscriptions)[h.eventKey := h] && h.eventKey == subscribeSeq
        && w.handles == old(w.handles) + [L.Handle(s.serial, h.contract, h.wantsError, false, None, 0)]
        && h.error == None && h.calls == 0
        && s.subscribers == old(s.subscribers) + [h]
      requires forall k :: 0 <= k < |old(handles)| ==> handles[k].eventKey < subscribeSeq
      requires forall i :: 0 <= i < |streams| && i != s.serial ==> w.streams[i] == old(w.streams[i])
      requires forall i :: 0 <= i < |streams| && streams[i] != s ==> unchanged(streams[i])
      requires forall k :: 0 <= k < |old(handles)| ==> unchanged(handles[k])
      requires Mirrors(s, w.streams[s.serial])
      requires w.streams[s.serial].subscribers == old(w.streams[s.serial].subscribers) + [|old(handles)|]
      ensures Objects()
    {
      forall i | 0 <= i < |streams| ensures IsStream(i) { assert old(IsStream(i)); }
      forall h | 0 <= h < |handles| ensures IsHandle(h) {
        if h < |old(handles)| {
          assert old(IsHandle(h));
          assert handles[h] == old(handles)[h];
          assert old(IsStream(handles[h].stream.serial));
        }
      }
    }

    /** A handle was written to; its stream's subscribers lost it if it was closed. */
    twostate lemma HandleWritten(h: SubscriptionHandle)
      requires old(Counts() && Objects()) && Counts() && old(Owns(h))
      requires streams == old(streams) && handles == old(handles) && subscribeSeq == old(subscribeSeq)
      requires old(!h.closed)
      requires subscriptions == if h.closed then old(subscriptions) - {h.eventKey} else old(subscriptions)
      requires var hd := w.handles[h.id];
        && w.handles == old(w.handles)[h.id := hd]
        && hd == old(w.handles[h.id]).(closed := h.closed, error := h.error, calls := h.calls)
      requires forall i :: 0 <= i < |streams| && i != h.stream.serial ==> w.streams[i] == old(w.streams[i])
      requires forall i :: 0 <= i < |streams| && streams[i] != h.stream ==> unchanged(streams[i])
      requires forall k :: 0 <= k < |handles| && handles[k] != h ==> unchanged(handles[k])
      requires h.stream.serial < |w.streams|
      requires Mirrors(h.stream, w.streams[h.stream.serial])
      requires |h.stream.subscribers| == |w.streams[h.stream.serial].subscribers|
      requires forall k :: 0 <= k < |h.stream.subscribers| ==>
        Owns(h.stream.subscribers[k]) && h.stream.subscribers[k].id == w.streams[h.stream.serial].subscribers[k]
      ensures Objects()
    {
      assert old(IsHandle(h.id));
      forall i | 0 <= i < |streams| ensures IsStream(i) { assert old(IsStream(i)); }
      forall k | 0 <= k < |handles| ensures IsHandle(k) {
        assert old(IsHandle(k));
        assert old(IsStream(handles[k].stream.serial));
      }
    }

    /** A closed handle was written to: only its call count. */
    twostate lemma HandleCounted(h: SubscriptionHandle)
      requires old(Counts() && Objects()) && Counts() && old(Owns(h))
      requires streams == old(streams) && handles == old(handles) && subscribeSeq == old(subscribeSeq)
      requires subscriptions == old(subscriptions) && h.closed == old(h.closed) && h.error == old(h.error)
      requires w.streams == old(w.streams)
      requires w.handles == old(w.handles)[h.id := old(w.handles[h.id]).(calls := h.calls)]
      requires forall i :: 0 <= i < |streams| ==> unchanged(streams[i])
      requires forall k :: 0 <= k < |handles| && handles[k] != h ==> unchanged(handles[k])
      ensures Objects()
    {
      assert old(IsHandle(h.id));
      forall i | 0 <= i < |streams| ensures IsStream(i) { assert old(IsStream(i)); }
      forall k | 0 <= k < |handles| ensures IsHandle(k) { assert old(IsHandle(k)); }
    }

    /** Object numbers stay valid when a stream is created. */
    twostate lemma DictsGrown()
      requires w.reg == old(w.reg) && old(streams) <= streams
      requires l1Streams == old(l1Streams) && depthStreams == old(depthStreams) && tradesStreams == old(tradesStreams)
      requires w.routes == old(w.routes) && w.tradeRoutes == old(w.tradeRoutes)
      requires streamByReqId == old(streamByReqId) && tradesByReqId == old(tradesByReqId)
      requires old(IsDict(L.L1, l1Streams) && IsDict(L.Depth, depthStreams) && IsDict(L.Trades, tradesStreams))
      requires old(IsRoutes())
      ensures IsDict(L.L1, l1Streams) && IsDict(L.Depth, depthStreams) && IsDict(L.Trades, tradesStreams) && IsRoutes()
    {
    }

    /** Dicts nobody wrote to, nor the registry. */
    twostate lemma DictsSame()
      requires w.reg == old(w.reg) && streams == old(streams)
      requires l1Streams == old(l1Streams) && depthStreams == old(depthStreams) && tradesStreams == old(tradesStreams)
      requires old(IsDict(L.L1, l1Streams) && IsDict(L.Depth, depthStreams) && IsDict(L.Trades, tradesStreams))
      ensures IsDict(L.L1, l1Streams) && IsDict(L.Depth, depthStreams) && IsDict(L.Trades, tradesStreams)
    {
    }

    twostate lemma TradesForgot(r: Option<nat>)
      requires old(IsRoutes()) && streams == old(streams)
      requires w.routes == old(w.routes) && w.tradeRoutes == L.Forget(old(w.tradeRoutes), r)
      requires streamByReqId == old(streamByReqId)
      requires tradesByReqId == if r.None? then old(tradesByReqId) else old(tradesByReqId) - {r.value}
      ensures IsRoutes()
    {
    }

    twostate lemma PersistentForgot(r: Option<nat>)
      requires old(IsRoutes()) && streams == old(streams)
      requires w.routes == L.Forget(old(w.routes), r) && w.tradeRoutes == old(w.tradeRoutes)
      requires streamByReqId == if r.None? then old(streamByReqId) else old(streamByReqId) - {r.value}
      requires tradesByReqId == old(tradesByReqId)
      ensures IsRoutes()
    {
    }

    twostate lemma RoutesSame()
      requires old(IsRoutes()) && streams == old(streams)
      requires w.routes == old(w.routes) && w.tradeRoutes == old(w.tradeRoutes)
      requires streamByReqId == old(streamByReqId) && tradesByReqId == old(tradesByReqId)
      ensures IsRoutes()
    {
    }

    /** The request of s, if it has a known reqId, has just been entered. */
    twostate lemma TradesRemembered(s: Stream)
      requires old(IsRoutes()) && streams == old(streams) && old(Has(s)) && s.kind.Trades?
      requires w.routes == old(w.routes) && streamByReqId == old(streamByReqId)
      requires || (w.tradeRoutes == old(w.tradeRoutes) && tradesByReqId == old(tradesByReqId))
               || (&& s.reqId.Some? && w.tradeRoutes == old(w.tradeRoutes)[s.reqId.value := s.serial]
                   && tradesByReqId == old(tradesByReqId)[s.reqId.value := s])
      ensures IsRoutes()
    {
    }

    twostate lemma PersistentRemembered(s: Stream)
      requires old(IsRoutes()) && streams == old(streams) && old(Has(s)) && !s.kind.Trades?
      requires w.tradeRoutes == old(w.tradeRoutes) && tradesByReqId == old(tradesByReqId)
      requires || (w.routes == old(w.routes) && streamByReqId == old(streamByReqId))
               || (&& s.reqId.Some? && w.routes == old(w.routes)[s.reqId.value := s.serial]
                   && streamByReqId == old(streamByReqId)[s.reqId.value := (s, s.kind.Depth?)])
      ensures IsRoutes()
    {
    }

    /** s left its dict. */
    twostate lemma Unregistered(s: Stream)
      requires old(IsDict(L.L1, l1Streams) && IsDict(L.Depth, depthStreams) && IsDict(L.Trades, tradesStreams))
      requires streams == old(streams) && w.reg == old(w.reg) - {L.Slot(s.kind, L.StreamKey(s.contract))}
      requires var key := L.StreamKey(s.contract);
        && l1Streams == (if s.kind.L1? then old(l1Streams) - {key} else old(l1Streams))
        && depthStreams == (if s.kind.Depth? then old(depthStreams) - {key} else old(depthStreams))
        && tradesStreams == (if s.kind.Trades? then old(tradesStreams) - {key} else old(tradesStreams))
      ensures IsDict(L.L1, l1Streams) && IsDict(L.Depth, depthStreams) && IsDict(L.Trades, tradesStreams)
    {
    }

    /** s entered its dict. */
    twostate lemma Registered(s: Stream)
      requires old(IsDict(L.L1, l1Streams) && IsDict(L.Depth, depthStreams) && IsDict(L.Trades, tradesStreams))
      requires streams == old(streams) && Has(s)
      requires w.reg == old(w.reg)[L.Slot(s.kind, L.StreamKey(s.contract)) := s.serial]
      requires var key := L.StreamKey(s.contract);
        && l1Streams == (if s.kind.L1? then old(l1Streams)[key := s] else old(l1Streams))
        && depthStreams == (if s.kind.Depth? then old(depthStreams)[key := s] else old(depthStreams))
        && tradesStreams == (if s.kind.Trades? then old(tradesStreams)[key := s] else old(tradesStreams))
      ensures IsDict(L.L1, l1Streams) && IsDict(L.Depth, depthStreams) && IsDict(L.Trades, tradesStreams)
    {
    }

    lemma HasMirror(s: Stream)
      requires Counts() && Objects() && Has(s)
      ensures Mirrors(s, w.streams[s.serial])
    {
      assert IsStream(s.serial);
    }

    // ---- requests ---------------------------------------------------------------------------

    /** _unhook_trades. */
    method UnhookTrades(s: Stream)
      requires Valid()
      requires Has(s)
      requires s.kind.Trades?
      modifies this`tradesByReqId, this`w, s
      ensures Valid() && w == L.Unhook(old(w), s.serial)
    {
      hide Objects, IsDict, IsRoutes;
      HasMirror(s);
      ghost var r := s.reqId;
      s.hooked := false;
      if s.reqId.Some? {
        tradesByReqId := tradesByReqId - {s.reqId.value};
        s.reqId := None;
      }
      w := L.Unhook(w, s.serial);
      Updated(s);
      DictsSame();
      TradesForgot(r);
    }

    /** _unhook_persistent. */
    method UnhookPersistent(s: Stream)
      requires Valid() && Has(s) && !s.kind.Trades?
      modifies this`streamByReqId, this`w, s
      ensures Valid() && w == L.Unhook(old(w), s.serial)
    {
      hide Objects, IsDict, IsRoutes;
      HasMirror(s);
      ghost var r := s.reqId;
      s.hooked := false;
      if s.reqId.Some? {
        streamByReqId := streamByReqId - {s.reqId.value};
        s.reqId := None;
      }
      w := L.Unhook(w, s.serial);
      Updated(s);
      DictsSame();
      PersistentForgot(r);
    }

    /** _request_trades, once the request was sent. */
    method RequestTrades(s: Stream, reqId: Option<nat>)
      requires Valid() && Has(s) && s.kind.Trades?
      modifies this`tradesByReqId, this`w, s
      ensures Valid() && w == L.Request(old(w), s.serial, reqId)
      ensures s.hooked
    {
      hide Objects, IsDict, IsRoutes;
      HasMirror(s);
      s.hooked := true;
      if reqId.Some? {
        s.reqId := reqId;
        tradesByReqId := tradesByReqId[reqId.value := s];
      }
      w := L.Request(w, s.serial, reqId);
      Updated(s);
      DictsSame();
      TradesRemembered(s);
    }

    /** _request_persistent, once the request was sent. */
    method RequestPersistent(s: Stream, reqId: Option<nat>, depth: bool)
      requires Valid() && Has(s) && !s.kind.Trades? && (depth <==> s.kind.Depth?)
      modifies this`streamByReqId, this`w, s
      ensures Valid() && w == L.Request(old(w), s.serial, reqId)
      ensures s.hooked
    {
      hide Objects, IsDict, IsRoutes;
      HasMirror(s);
      s.hooked := true;
      if reqId.Some? {
        s.reqId := reqId;
        streamByReqId := streamByReqId[reqId.value := (s, depth)];
      }
      w := L.Request(w, s.serial, reqId);
      Updated(s);
      DictsSame();
      PersistentRemembered(s);
    }

    /** The cancel that ends a teardown reaches IB, or raises and is only logged. */
    ghost method FinalCancel(s: Stream, raises: bool)
      requires Valid() && Has(s)
      modifies this`w
      ensures Valid() && w == L.FinalCancel(old(w), s.serial, raises)
    {
      hide Objects, IsDict, IsRoutes;
      HasMirror(s);
      w := L.FinalCancel(w, s.serial, raises);
      Updated(s);
      DictsSame();
      RoutesSame();
    }

    // ---- teardown ---------------------------------------------------------------------------

    /** `streams.get(key) is stream` on the dict of its kind. */
    predicate Registers(m: map<L.Key, Stream>, s: Stream) {
      var key := L.StreamKey(s.contract); key in m && m[key] == s
    }

    lemma RegistersIsLive(s: Stream, m: map<L.Key, Stream>)
      requires Counts() && Objects() && Has(s) && IsDict(s.kind, m)
      ensures Registers(m, s) <==> L.Live(w, s.serial)
    {
      assert IsStream(s.serial);
    }

    /** `del streams[key]` on the trades dict. */
    method ForgetTrades(s: Stream)
      requires Valid() && Has(s) && s.kind.Trades? && Registers(tradesStreams, s)
      modifies this`tradesStreams, this`w
      ensures Valid() && w == old(w).(reg := old(w).reg - {old(w).streams[s.serial].At()})
    {
      hide Objects, IsDict, IsRoutes;
      HasMirror(s);
      tradesStreams := tradesStreams - {L.StreamKey(s.contract)};
      w := w.(reg := w.reg - {w.streams[s.serial].At()});
      Updated(s);
      Unregistered(s);
      RoutesSame();
    }

    /** `del streams[key]` and _release_line on the L1 or the depth dict. */
    method ForgetPersistent(s: Stream, depth: bool)
      requires Valid() && Has(s) && !s.kind.Trades? && (depth <==> s.kind.Depth?)
      requires Registers(if depth then depthStreams else l1Streams, s)
      modifies this`depthStreams, this`l1Streams, this`mdLines, this`w
      ensures Valid()
      ensures w == old(w).(reg := old(w).reg - {old(w).streams[s.serial].At()}, lines := old(w).lines - 1)
    {
      hide Objects, IsDict, IsRoutes;
      HasMirror(s);
      if depth { depthStreams := depthStreams - {L.StreamKey(s.contract)}; }
      else { l1Streams := l1Streams - {L.StreamKey(s.contract)}; }
      mdLines := mdLines - 1;
      w := w.(reg := w.reg - {w.streams[s.serial].At()}, lines := w.lines - 1);
      Updated(s);
      Unregistered(s);
      RoutesSame();
    }

    /** _release_line / _take_line. */
    method MoveLines(s: Stream, delta: int)
      requires Valid() && Has(s)
      modifies this`mdLines, this`w
      ensures Valid() && w == old(w).(lines := old(w).lines + delta)
    {
      hide Objects, IsDict, IsRoutes;
      HasMirror(s);
      mdLines := mdLines + delta;
      w := w.(lines := w.lines + delta);
      Updated(s);
      DictsSame();
      RoutesSame();
    }

    /** _drop_trades: a no-op once dropped. */
    method DropTrades(s: Stream, ghost cancelRaises: bool)
      requires Valid() && Has(s) && s.kind.Trades?
      modifies this`tradesStreams, this`tradesByReqId, this`mdLines, this`w, s
      ensures Valid() && w == L.DropTrades(old(w), s.serial, cancelRaises)
    {
      hide Objects, IsDict, IsRoutes, L.Unhook, L.FinalCancel;
      RegistersIsLive(s, tradesStreams);
      if Registers(tradesStreams, s) {
        ForgetTrades(s);
        UnhookTrades(s);
        MoveLines(s, -1);
        FinalCancel(s, cancelRaises);
      }
    }

    /** _drop_stream. */
    method DropStream(s: Stream, depth: bool, ghost cancelRaises: bool)
      requires Valid() && Has(s) && !s.kind.Trades? && (depth <==> s.kind.Depth?)
      modifies this`depthStreams, this`l1Streams, this`streamByReqId, this`mdLines, this`w, s
      ensures Valid() && w == L.DropPersistent(old(w), s.serial, cancelRaises)
    {
      hide Objects, IsDict, IsRoutes, L.Unhook, L.FinalCancel;
      RegistersIsLive(s, if depth then depthStreams else l1Streams);
      if Registers(if depth then depthStreams else l1Streams, s) {
        ForgetPersistent(s, depth);
      }
      StopIdle(s);
      UnhookPersistent(s);
      FinalCancel(s, cancelRaises);
    }

    /** Stop the idle timer, if it is armed. */
    method StopIdle(s: Stream)
      requires Valid() && Has(s)
      modifies this`w, s
      ensures Valid() && w == L.SetStream(old(w), s.serial, old(w).streams[s.serial].(timer := false))
    {
      hide Objects, IsDict, IsRoutes;
      HasMirror(s);
      s.idle := false;
      w := L.SetStream(w, s.serial, w.streams[s.serial].(timer := false));
      Updated(s);
      DictsSame();
      RoutesSame();
    }

    // ---- opening ----------------------------------------------------------------------------

    method CreateStream(contract: L.Contract, ghost kind: L.Kind) returns (s: Stream)
      requires Valid()
      modifies this`created, this`streams, this`w
      ensures Valid() && fresh(s) && s.kind == kind && s.contract == contract
      ensures streams == old(streams) + [s] && Has(s) && s.serial == |old(streams)|
      ensures w == old(w).(streams := old(w).streams + [L.NewStream(kind, contract)])
    {
      hide Objects, IsDict, IsRoutes;
      s := new Stream(contract, created, kind);
      created := created + 1;
      streams := streams + [s];
      w := w.(streams := w.streams + [L.NewStream(kind, contract)]);
      Appended(s);
      DictsGrown();
    }

    /** `streams[key] = stream` and _take_line, for a trades stream. */
    method EnterTrades(s: Stream)
      requires Valid() && Has(s) && s.kind.Trades?
      modifies this`tradesStreams, this`mdLines, this`w
      ensures Valid()
      ensures w == old(w).(reg := old(w).reg[L.Slot(L.Trades, L.StreamKey(s.contract)) := s.serial],
                           lines := old(w).lines + 1)
    {
      hide Objects, IsDict, IsRoutes;
      HasMirror(s);
      tradesStreams := tradesStreams[L.StreamKey(s.contract) := s];
      mdLines := mdLines + 1;
      w := w.(reg := w.reg[L.Slot(L.Trades, L.StreamKey(s.contract)) := s.serial], lines := w.lines + 1);
      Updated(s);
      Registered(s);
      RoutesSame();
    }

    /** `streams[key] = stream` and _take_line, for an L1 or a depth stream. */
    method EnterPersistent(s: Stream, depth: bool)
      requires Valid() && Has(s) && !s.kind.Trades? && (depth <==> s.kind.Depth?)
      modifies this`depthStreams, this`l1Streams, this`mdLines, this`w
      ensures Valid()
      ensures w == old(w).(reg := old(w).reg[L.Slot(s.kind, L.StreamKey(s.contract)) := s.serial],
                           lines := old(w).lines + 1)
    {
      hide Objects, IsDict, IsRoutes;
      HasMirror(s);
      if depth { depthStreams := depthStreams[L.StreamKey(s.contract) := s]; }
      else { l1Streams := l1Streams[L.StreamKey(s.contract) := s]; }
      mdLines := mdLines + 1;
      w := w.(reg := w.reg[L.Slot(s.kind, L.StreamKey(s.contract)) := s.serial], lines := w.lines + 1);
      Updated(s);
      Registered(s);
      RoutesSame();
    }

    lemma DictHolds(kind: L.Kind, m: map<L.Key, Stream>, key: L.Key)
      requires Counts() && Objects() && IsDict(kind, m) && key in m
      ensures L.Slot(kind, key) in w.reg && Has(m[key]) && m[key].serial == w.reg[L.Slot(kind, key)] && m[key].kind == kind
    {
    }

    lemma DictMisses(kind: L.Kind, m: map<L.Key, Stream>, key: L.Key)
      requires IsDict(kind, m) && key !in m
      ensures L.Slot(kind, key) !in w.reg
    {
    }

    /** What opening or finding a stream amounts to. */
    twostate predicate Found(kind: L.Kind, contract: L.Contract, answer: L.Answer, new r: Result<Stream, L.Failure>)
      reads this
    {
      var (v, f) := L.Find(old(w), kind, contract, answer);
      && w == v && old(streams) <= streams
      && (r.Err? ==> f == Err(r.error) && streams == old(streams))
      && (r.Ok? ==> f == Ok(r.value.serial) && Has(r.value) && r.value.kind == kind)
    }

    /** The part of _acquire_trades that finds the stream or opens it. */
    method FindTrades(contract: L.Contract, answer: L.Answer) returns (r: Result<Stream, L.Failure>)
      requires Valid()
      modifies this`tradesStreams, this`tradesByReqId, this`mdLines, this`created, this`streams, this`w
      ensures Valid() && Found(L.Trades, contract, answer, r)
      ensures fresh(streams[|old(streams)|..])
    {
      hide Objects, IsDict, IsRoutes, L.Request;
      var key := L.StreamKey(contract);
      if key in tradesStreams {
        DictHolds(L.Trades, tradesStreams, key);
        return Ok(tradesStreams[key]);
      }
      DictMisses(L.Trades, tradesStreams, key);
      if mdLines >= cap { return Err(L.LinesExhausted); }
      if answer.Raises? { return Err(L.RequestFailed); }
      var s := CreateStream(contract, L.Trades);
      RequestTrades(s, answer.reqId);
      EnterTrades(s);
      r := Ok(s);
    }

    /** The part of top_of_book and _acquire_depth that finds the stream or opens it. */
    method FindPersistent(contract: L.Contract, depth: bool, answer: L.Answer) returns (r: Result<Stream, L.Failure>)
      requires Valid()
      modifies this`depthStreams, this`l1Streams, this`streamByReqId, this`mdLines, this`created, this`streams, this`w
      ensures Valid() && Found(if depth then L.Depth else L.L1, contract, answer, r)
      ensures fresh(streams[|old(streams)|..])
    {
      hide Objects, IsDict, IsRoutes, L.Request;
      ghost var kind := if depth then L.Depth else L.L1;
      var m := if depth then depthStreams else l1Streams;
      var key := L.StreamKey(contract);
      if key in m {
        DictHolds(kind, m, key);
        return Ok(m[key]);
      }
      DictMisses(kind, m, key);
      if mdLines >= cap { return Err(L.LinesExhausted); }
      if answer.Raises? { return Err(L.RequestFailed); }
      var s := CreateStream(contract, kind);
      RequestPersistent(s, answer.reqId, depth);
      EnterPersistent(s, depth);
      r := Ok(s);
    }

    /** `stream.refs += 1`; for a depth stream the idle timer is stopped first. */
    method AddUser(s: Stream, depth: bool)
      requires Valid() && Has(s) && (depth <==> s.kind.Depth?)
      modifies this`w, s
      ensures Valid() && w == L.AddUser(old(w), s.serial) && s.subscribers == old(s.subscribers)
    {
      hide Objects, IsDict, IsRoutes;
      HasMirror(s);
      if depth { s.idle := false; }
      s.refs := s.refs + 1;
      w := L.AddUser(w, s.serial);
      Updated(s);
      DictsSame();
      RoutesSame();
    }

    /** What _acquire_trades and _acquire_depth amount to. */
    twostate predicate Acquired(kind: L.Kind, contract: L.Contract, answer: L.Answer, new r: Result<Stream, L.Failure>)
      reads this
    {
      var (v, f) := L.Find(old(w), kind, contract, answer);
      && old(streams) <= streams
      && (r.Err? ==> w == v && f == Err(r.error) && streams == old(streams))
      && (r.Ok? ==> && f == Ok(r.value.serial) && Has(r.value) && r.value.kind == kind
                    && r.value.serial < |v.streams| && w == L.AddUser(v, r.value.serial))
    }

    lemma OldOrNew(s: Stream, before: seq<Stream>)
      requires Has(s) && before <= streams
      ensures s in before || s in streams[|before|..]
    {
    }

    method AcquireTrades(contract: L.Contract, answer: L.Answer) returns (r: Result<Stream, L.Failure>)
      requires Valid()
      modifies this`tradesStreams, this`tradesByReqId, this`mdLines, this`created, this`streams, this`w, streams
      ensures Valid() && Acquired(L.Trades, contract, answer, r) && fresh(streams[|old(streams)|..])
    {
      hide Objects, IsDict, IsRoutes, L.Find, L.AddUser;
      r := FindTrades(contract, answer);
      if r.Ok? {
        OldOrNew(r.value, old(streams));
        AddUser(r.value, false);
      }
    }

    method AcquireDepth(contract: L.Contract, answer: L.Answer) returns (r: Result<Stream, L.Failure>)
      requires Valid()
      modifies this`depthStreams, this`l1Streams, this`streamByReqId, this`mdLines, this`created, this`streams, this`w, streams
      ensures Valid() && Acquired(L.Depth, contract, answer, r) && fresh(streams[|old(streams)|..])
    {
      hide Objects, IsDict, IsRoutes, L.Find, L.AddUser;
      r := FindPersistent(contract, true, answer);
      if r.Ok? {
        OldOrNew(r.value, old(streams));
        AddUser(r.value, true);
      }
    }

    // ---- releasing --------------------------------------------------------------------------

    /** `stream.refs -= 1`. */
    method Unuse(s: Stream)
      requires Valid() && Has(s)
      modifies this`w, s
      ensures Valid() && s.refs == old(s.refs) - 1 && s.refs == w.streams[s.serial].refs
      ensures w == L.SetStream(old(w), s.serial, old(w).streams[s.serial].(refs := old(w).streams[s.serial].refs - 1))
    {
      hide Objects, IsDict, IsRoutes;
      HasMirror(s);
      s.refs := s.refs - 1;
      w := L.SetStream(w, s.serial, w.streams[s.serial].(refs := w.streams[s.serial].refs - 1));
      Updated(s);
      DictsSame();
      RoutesSame();
    }

    /** Arm the idle timer. */
    method StartIdle(s: Stream)
      requires Valid() && Has(s)
      modifies this`w, s
      ensures Valid() && w == L.SetStream(old(w), s.serial, old(w).streams[s.serial].(timer := true))
    {
      hide Objects, IsDict, IsRoutes;
      HasMirror(s);
      s.idle := true;
      w := L.SetStream(w, s.serial, w.streams[s.serial].(timer := true));
      Updated(s);
      DictsSame();
      RoutesSame();
    }

    /** _release_trades. */
    method ReleaseTrades(s: Stream, ghost env: L.Env)
      requires Valid() && Has(s) && s.kind.Trades?
      modifies this`tradesStreams, this`tradesByReqId, this`mdLines, this`w, s
      ensures Valid() && w == L.Release(old(w), s.serial, env)
    {
      hide Objects, IsDict, IsRoutes, L.DropTrades, L.DropPersistent;
      HasMirror(s);
      Unuse(s);
      if s.refs <= 0 { DropTrades(s, env.cancelRaises); }
    }

    /** _release_depth. */
    method ReleaseDepth(s: Stream, loop: bool, ghost cancelRaises: bool)
      requires Valid() && Has(s) && s.kind.Depth?
      modifies this`depthStreams, this`l1Streams, this`streamByReqId, this`mdLines, this`w, s
      ensures Valid() && w == L.Release(old(w), s.serial, L.Env(loop, cancelRaises))
    {
      hide Objects, IsDict, IsRoutes, L.DropTrades, L.DropPersistent;
      HasMirror(s);
      Unuse(s);
      RegistersIsLive(s, depthStreams);
      if s.refs > 0 || !Registers(depthStreams, s) { return; }
      if !loop { DropStream(s, true, cancelRaises); }
      else { StartIdle(s); }
    }

    /** _idle_expired. */
    method IdleExpired(s: Stream, ghost env: L.Env)
      requires Valid() && Has(s) && s.kind.Depth?
      modifies this`depthStreams, this`l1Streams, this`streamByReqId, this`mdLines, this`w, s
      ensures Valid() && w == L.IdleExpired(old(w), s.serial, env)
    {
      hide Objects, IsDict, IsRoutes, L.DropTrades, L.DropPersistent;
      HasMirror(s);
      StopIdle(s);
      HasMirror(s);
      RegistersIsLive(s, depthStreams);
      if s.refs <= 0 && Registers(depthStreams, s) { DropStream(s, true, env.cancelRaises); }
    }

    // ---- subscriptions ----------------------------------------------------------------------

    lemma KeysSoFar()
      requires Counts() && Objects()
      ensures forall k :: 0 <= k < |handles| ==> handles[k].eventKey <= subscribeSeq
    {
      forall k | 0 <= k < |handles| ensures handles[k].eventKey <= subscribeSeq { assert IsHandle(k); }
    }

    /** The subscription is entered and its _fail callback joins the stream's subscribers. */
    method Attach(s: Stream, trades: bool, contract: L.Contract, wantsError: bool) returns (h: SubscriptionHandle)
      requires Valid() && Has(s) && !s.kind.L1? && (trades <==> s.kind.Trades?)
      requires forall k :: 0 <= k < |handles| ==> handles[k].eventKey < subscribeSeq
      modifies this`subscriptions, this`handles, this`w, s
      ensures Valid() && w == L.AddHandle(old(w), s.serial, contract, wantsError)
      ensures handles == old(handles) + [h] && fresh(h) && h.stream == s && !h.closed
    {
      hide Objects, IsDict, IsRoutes;
      HasMirror(s);
      h := new SubscriptionHandle(s, trades, contract, wantsError, subscribeSeq, |handles|);
      subscriptions := subscriptions[subscribeSeq := h];
      s.subscribers := s.subscribers + [h];
      handles := handles + [h];
      w := L.AddHandle(w, s.serial, contract, wantsError);
      Subscribed(s);
      DictsSame();
      RoutesSame();
    }

    /** `self._subscribe_seq += 1`. */
    method NextKey()
      requires Valid()
      modifies this`subscribeSeq
      ensures Valid() && forall k :: 0 <= k < |handles| ==> handles[k].eventKey < subscribeSeq
    {
      hide IsDict, IsRoutes;
      KeysSoFar();
      subscribeSeq := subscribeSeq + 1;
      KeyMoved();
      DictsSame();
      RoutesSame();
    }

    twostate lemma KeyMoved()
      requires old(Counts() && Objects()) && Counts()
      requires streams == old(streams) && handles == old(handles) && w == old(w)
      requires subscriptions == old(subscriptions) && subscribeSeq >= old(subscribeSeq)
      requires forall i :: 0 <= i < |streams| ==> unchanged(streams[i])
      requires forall k :: 0 <= k < |handles| ==> unchanged(handles[k])
      ensures Objects()
    {
      forall i | 0 <= i < |streams| ensures IsStream(i) { assert old(IsStream(i)); }
      forall h | 0 <= h < |handles| ensures IsHandle(h) { assert old(IsHandle(h)); }
    }

    /** subscribe(): trades selects the channel. */
    method Subscribe(trades: bool, contract: L.Contract, wantsError: bool, answer: L.Answer)
      returns (r: Result<SubscriptionHandle, L.Failure>)
      requires Valid()
      requires forall slot :: slot in w.reg ==> w.reg[slot] < |w.streams|
      modifies this, streams
      ensures Valid() && w == L.Subscribe(old(w), if trades then L.Trades else L.Depth, contract, wantsError, answer)
      ensures old(streams) <= streams && fresh(streams[|old(streams)|..])
      ensures r.Err? ==>
        handles == old(handles)
        && L.Find(old(w), if trades then L.Trades else L.Depth, contract, answer).1 == Err(r.error)
      ensures r.Ok? ==> handles == old(handles) + [r.value] && fresh(r.value) && !r.value.closed
    {
      hide Objects, IsDict, IsRoutes, L.Find, L.AddUser, L.AddHandle;
      NextKey();
      var got;
      if trades { got := AcquireTrades(contract, answer); } else { got := AcquireDepth(contract, answer); }
      if got.Err? { return Err(got.error); }
      OldOrNew(got.value, old(streams));
      var h := Attach(got.value, trades, contract, wantsError);
      r := Ok(h);
    }

    // ---- closing and failing ----------------------------------------------------------------

    lemma {:induction false} RemoveMirrors(a: seq<SubscriptionHandle>, ids: seq<nat>, h: SubscriptionHandle)
      requires |a| == |ids| && Owns(h) && forall k :: 0 <= k < |a| ==> Owns(a[k]) && a[k].id == ids[k]
      ensures var b, js := Remove(a, h), Remove(ids, h.id);
        |b| == |js| && forall k :: 0 <= k < |b| ==> Owns(b[k]) && b[k].id == js[k]
      decreases |a|
    {
      if a != [] && a[0] != h { RemoveMirrors(a[1..], ids[1..], h); }
    }

    lemma HandleMirror(h: SubscriptionHandle)
      requires Counts() && Objects() && Owns(h)
      ensures h.id < |w.handles| && Has(h.stream) && w.handles[h.id].stream == h.stream.serial < |w.streams|
      ensures w.handles[h.id].closed == h.closed && w.handles[h.id].error == h.error && w.handles[h.id].calls == h.calls
      ensures w.handles[h.id].wantsError == h.wantsError && (h.trades <==> h.stream.kind.Trades?) && !h.stream.kind.L1?
    {
      assert IsHandle(h.id);
    }

    lemma SubscribersMirror(s: Stream)
      requires Counts() && Objects() && Has(s)
      ensures |s.subscribers| == |w.streams[s.serial].subscribers|
      ensures forall k :: 0 <= k < |s.subscribers| ==>
        Owns(s.subscribers[k]) && s.subscribers[k].id == w.streams[s.serial].subscribers[k]
    {
      assert IsStream(s.serial);
    }

    lemma ValidWired()
      requires Counts() && Objects()
      ensures L.Wired(w)
    {
      forall h | 0 <= h < |w.handles| ensures w.handles[h].stream < |w.streams| { assert IsHandle(h); }
    }

    lemma ValidKnown(s: Stream)
      requires Counts() && Objects() && Has(s)
      ensures L.Known(w, w.streams[s.serial].subscribers)
    {
      assert IsStream(s.serial);
    }

    /** The part of a subscription's cleanup before the release. */
    method Detach(h: SubscriptionHandle)
      requires Valid() && Owns(h) && !h.closed && Has(h.stream)
      modifies this`subscriptions, this`w, h`closed, h.stream`subscribers
      ensures Valid() && h.closed
      ensures var hd := old(w).handles[h.id]; var i := h.stream.serial; var s := old(w).streams[i];
        w == L.SetStream(old(w).(handles := old(w).handles[h.id := hd.(closed := true)]), i,
                         s.(subscribers := Remove(s.subscribers, h.id)))
    {
      hide Objects, IsDict, IsRoutes;
      HandleMirror(h);
      HasMirror(h.stream);
      SubscribersMirror(h.stream);
      ghost var hd, i := w.handles[h.id], h.stream.serial;
      RemoveMirrors(h.stream.subscribers, w.streams[i].subscribers, h);
      h.closed := true;
      subscriptions := subscriptions - {h.eventKey};
      h.stream.subscribers := Remove(h.stream.subscribers, h);
      w := L.SetStream(w.(handles := w.handles[h.id := hd.(closed := true)]), i,
                       w.streams[i].(subscribers := Remove(w.streams[i].subscribers, h.id)));
      HandleWritten(h);
      DictsSame();
      RoutesSame();
    }

    /** SubscriptionHandle.close(): idempotent. */
    method Close(h: SubscriptionHandle, loop: bool, ghost cancelRaises: bool)
      requires Valid() && Owns(h) && L.Wired(w)
      modifies this`depthStreams, this`l1Streams, this`tradesStreams, this`streamByReqId, this`tradesByReqId,
               this`mdLines, this`subscriptions, this`w, h`closed, h.stream
      ensures Valid() && h.closed && h.id < |old(w).handles|
      ensures w == L.Close(old(w), h.id, L.Env(loop, cancelRaises))
    {
      hide Objects, IsDict, IsRoutes, L.Release;
      HandleMirror(h);
      if h.closed { return; }
      Detach(h);
      if h.trades { ReleaseTrades(h.stream, L.Env(loop, cancelRaises)); }
      else { ReleaseDepth(h.stream, loop, cancelRaises); }
    }

    /** `handle.error = exc`. */
    method SetError(h: SubscriptionHandle, code: int)
      requires Valid() && Owns(h) && !h.closed && Has(h.stream)
      modifies this`w, h`error
      ensures Valid() && w == old(w).(handles := old(w).handles[h.id := old(w).handles[h.id].(error := Some(code))])
    {
      hide Objects, IsDict, IsRoutes;
      HandleMirror(h);
      HasMirror(h.stream);
      SubscribersMirror(h.stream);
      h.error := Some(code);
      w := w.(handles := w.handles[h.id := w.handles[h.id].(error := Some(code))]);
      HandleWritten(h);
      DictsSame();
      RoutesSame();
    }

    /** The on_error callback of a subscriber that gave one. */
    method CallOnError(h: SubscriptionHandle)
      requires Valid() && Owns(h)
      modifies this`w, h`calls
      ensures Valid()
      ensures var hd := old(w).handles[h.id];
        w == old(w).(handles := old(w).handles[h.id := hd.(calls := hd.calls + if hd.wantsError then 1 else 0)])
    {
      hide Objects, IsDict, IsRoutes;
      HandleMirror(h);
      if h.wantsError { h.calls := h.calls + 1; }
      ghost var hd := w.handles[h.id];
      w := w.(handles := w.handles[h.id := hd.(calls := hd.calls + if hd.wantsError then 1 else 0)]);
      HandleCounted(h);
      DictsSame();
      RoutesSame();
    }

    lemma WiredAfterError(u: L.Ledger, h: nat, hd: L.Handle)
      requires L.Wired(u) && h < |u.handles| && hd.stream == u.handles[h].stream
      ensures L.Wired(u.(handles := u.handles[h := hd]))
    {
    }

    lemma CloseKeepsCalls(u: L.Ledger, h: nat, env: L.Env)
      requires L.Wired(u) && h < |u.handles|
      ensures var v := L.Close(u, h, env);
        v.handles[h].calls == u.handles[h].calls && v.handles[h].wantsError == u.handles[h].wantsError
    {
    }

    /** A subscriber's _fail. */
    method Notify(h: SubscriptionHandle, code: int, loop: bool, ghost cancelRaises: bool)
      requires Valid() && Owns(h) && L.Wired(w)
      modifies this`depthStreams, this`l1Streams, this`tradesStreams, this`streamByReqId, this`tradesByReqId,
               this`mdLines, this`subscriptions, this`w, h, h.stream
      ensures Valid() && h.id < |old(w).handles|
      ensures w == L.Notify(old(w), h.id, code, L.Env(loop, cancelRaises))
    {
      hide Objects, IsDict, IsRoutes, L.Close, L.Wired;
      HandleMirror(h);
      if h.closed { return; }
      SetError(h, code);
      WiredAfterError(old(w), h.id, w.handles[h.id]);
      CloseKeepsCalls(w, h.id, L.Env(loop, cancelRaises));
      Close(h, loop, cancelRaises);
      CallOnError(h);
    }

    /** `subscribers = list(stream.subscribers); stream.subscribers.clear()`. */
    method TakeSubscribers(s: Stream) returns (subscribers: seq<SubscriptionHandle>)
      requires Valid() && Has(s)
      modifies this`w, s`subscribers
      ensures Valid() && w == L.SetStream(old(w), s.serial, old(w).streams[s.serial].(subscribers := []))
      ensures subscribers == old(s.subscribers)
    {
      hide Objects, IsDict, IsRoutes;
      HasMirror(s);
      subscribers := s.subscribers;
      s.subscribers := [];
      w := L.SetStream(w, s.serial, w.streams[s.serial].(subscribers := []));
      Cleared(s);
      DictsSame();
      RoutesSame();
    }

    twostate lemma Cleared(s: Stream)
      requires old(Counts() && Objects()) && Counts() && old(Has(s))
      requires streams == old(streams) && handles == old(handles)
      requires subscriptions == old(subscriptions) && subscribeSeq == old(subscribeSeq)
      requires w.handles == old(w.handles)
      requires forall i :: 0 <= i < |streams| && i != s.serial ==> w.streams[i] == old(w.streams[i])
      requires forall i :: 0 <= i < |streams| && streams[i] != s ==> unchanged(streams[i])
      requires forall h :: 0 <= h < |handles| ==> unchanged(handles[h])
      requires Mirrors(s, w.streams[s.serial])
      requires s.subscribers == [] && w.streams[s.serial].subscribers == []
      ensures Objects()
    {
      forall i | 0 <= i < |streams| ensures IsStream(i) { assert old(IsStream(i)); }
      forall h | 0 <= h < |handles| ensures IsHandle(h) {
        assert old(IsHandle(h));
        assert old(IsStream(handles[h].stream.serial));
      }
    }

    /** Every subscriber of a stream that was dropped is told, the list being cleared first. */
    method FailSubscribers(s: Stream, code: int, loop: bool, ghost cancelRaises: bool)
      requires Valid() && Has(s)
      modifies this`depthStreams, this`l1Streams, this`tradesStreams, this`streamByReqId, this`tradesByReqId,
               this`mdLines, this`subscriptions, this`w, streams, handles
      ensures Valid() && L.Wired(old(w)) && L.Known(old(w), old(w).streams[s.serial].subscribers)
      ensures w == L.FailSubscribers(old(w), s.serial, old(w).streams[s.serial].subscribers, code, L.Env(loop, cancelRaises))
    {
      hide Objects, IsDict, IsRoutes, L.Notify, L.Wired;
      ValidWired();
      ValidKnown(s);
      SubscribersMirror(s);
      ghost var ids := w.streams[s.serial].subscribers;
      ghost var env := L.Env(loop, cancelRaises);
      var subscribers := TakeSubscribers(s);
      ValidWired();
      var k := 0;
      while k < |subscribers|
        invariant k <= |subscribers| == |ids|
        invariant Valid() && L.Wired(w) && L.Known(w, ids[k..])
        invariant forall j :: 0 <= j < |subscribers| ==> Owns(subscribers[j]) && subscribers[j].id == ids[j]
        invariant L.NotifyAll(w, ids[k..], code, env)
                  == L.FailSubscribers(old(w), s.serial, old(w).streams[s.serial].subscribers, code, env)
      {
        HandleMirror(subscribers[k]);
        assert ids[k..][0] == ids[k] && ids[k..][1..] == ids[k + 1..];
        Notify(subscribers[k], code, loop, cancelRaises);
        ValidWired();
        k := k + 1;
      }
    }

    /** _fail_stream. */
    method FailStream(s: Stream, depth: bool, code: Option<int>, loop: bool, ghost cancelRaises: bool)
      requires Valid() && Has(s) && !s.kind.Trades? && (depth <==> s.kind.Depth?)
      modifies this`depthStreams, this`l1Streams, this`tradesStreams, this`streamByReqId, this`tradesByReqId,
               this`mdLines, this`subscriptions, this`w, streams, handles
      ensures Valid() && L.Wired(old(w)) && L.Known(old(w), old(w).streams[s.serial].subscribers)
      ensures w == L.FailPersistent(old(w), s.serial, code, L.Env(loop, cancelRaises))
    {
      hide Objects, IsDict, IsRoutes, L.DropPersistent, L.FailSubscribers, L.Wired;
      ValidWired();
      ValidKnown(s);
      RegistersIsLive(s, if depth then depthStreams else l1Streams);
      DropKeepsSubscribers(w, s.serial, cancelRaises);
      if Registers(if depth then depthStreams else l1Streams, s) { DropStream(s, depth, cancelRaises); }
      if code.Some? { FailSubscribers(s, code.value, loop, cancelRaises); }
    }

    lemma DropKeepsSubscribers(u: L.Ledger, i: nat, raises: bool)
      requires i < |u.streams|
      ensures L.DropPersistent(u, i, raises).streams[i].subscribers == u.streams[i].subscribers
      ensures L.DropTrades(u, i, raises).streams[i].subscribers == u.streams[i].subscribers
    {
    }

    /** _fail_trades. */
    method FailTrades(s: Stream, code: int, loop: bool, ghost cancelRaises: bool)
      requires Valid() && Has(s) && s.kind.Trades?
      modifies this`depthStreams, this`l1Streams, this`tradesStreams, this`streamByReqId, this`tradesByReqId,
               this`mdLines, this`subscriptions, this`w, streams, handles
      ensures Valid() && L.Wired(old(w)) && L.Known(old(w), old(w).streams[s.serial].subscribers)
      ensures w == L.FailTrades(old(w), s.serial, code, L.Env(loop, cancelRaises))
    {
      hide Objects, IsDict, IsRoutes, L.DropTrades, L.FailSubscribers, L.Wired;
      ValidWired();
      ValidKnown(s);
      DropKeepsSubscribers(w, s.serial, cancelRaises);
      if code !in L.HARD_PERMISSION_CODES && code != L.MAX_TICKERS_CODE { return; }
      DropTrades(s, cancelRaises);
      FailSubscribers(s, code, loop, cancelRaises);
    }

    lemma RouteMirror(reqId: int)
      requires Counts() && Objects() && IsRoutes()
      ensures reqId in tradesByReqId <==> reqId in w.tradeRoutes
      ensures reqId in streamByReqId <==> reqId in w.routes
      ensures reqId in tradesByReqId ==>
        var s := tradesByReqId[reqId]; Has(s) && s.kind.Trades? && s.serial == w.tradeRoutes[reqId] < |w.streams|
      ensures reqId in streamByReqId ==>
        var (s, depth) := streamByReqId[reqId];
        Has(s) && !s.kind.Trades? && (depth <==> s.kind.Depth?) && s.serial == w.routes[reqId] < |w.streams|
    {
    }

    /** `stream.permission_warning = (code, msg)`. */
    method Warn(s: Stream, code: int)
      requires Valid() && Has(s)
      modifies this`w, s
      ensures Valid() && w == L.SetStream(old(w), s.serial, old(w).streams[s.serial].(warning := Some(code)))
    {
      hide Objects, IsDict, IsRoutes;
      HasMirror(s);
      s.warning := Some(code);
      w := L.SetStream(w, s.serial, w.streams[s.serial].(warning := Some(code)));
      Updated(s);
      DictsSame();
      RoutesSame();
    }

    lemma AllKnown()
      requires Counts() && Objects()
      ensures forall i :: 0 <= i < |w.streams| ==> L.Known(w, w.streams[i].subscribers)
    {
      forall i | 0 <= i < |w.streams| ensures L.Known(w, w.streams[i].subscribers) { assert IsStream(i); }
    }

    lemma RoutesNamed(reqId: int)
      requires Counts() && Objects() && IsRoutes()
      ensures L.Wired(w)
      ensures L.RouteOf(w, reqId).Some? ==>
        var i := L.RouteOf(w, reqId).value; i < |w.streams| && L.Known(w, w.streams[i].subscribers)
    {
      ValidWired();
      AllKnown();
      RouteMirror(reqId);
    }

    /** _on_stream_error. */
    method OnStreamError(reqId: int, code: int, loop: bool, ghost cancelRaises: bool)
      requires Valid()
      modifies this`depthStreams, this`l1Streams, this`tradesStreams, this`streamByReqId, this`tradesByReqId,
               this`mdLines, this`subscriptions, this`w, streams, handles
      ensures Valid() && L.Wired(old(w))
      ensures L.RouteOf(old(w), reqId).Some? ==>
        var i := L.RouteOf(old(w), reqId).value; i < |old(w).streams| && L.Known(old(w), old(w).streams[i].subscribers)
      ensures w == L.StreamError(old(w), reqId, code, L.Env(loop, cancelRaises))
    {
      hide Objects, IsDict, IsRoutes, L.FailPersistent, L.FailTrades, L.Wired, L.Known;
      RoutesNamed(reqId);
      RouteMirror(reqId);
      if reqId in tradesByReqId {
        FailTrades(tradesByReqId[reqId], code, loop, cancelRaises);
        return;
      }
      if reqId !in streamByReqId { return; }
      var (s, depth) := streamByReqId[reqId];
      if code in L.HARD_PERMISSION_CODES || code == L.MAX_TICKERS_CODE {
        FailStream(s, depth, Some(code), loop, cancelRaises);
      } else if code in L.SOFT_PERMISSION_CODES {
        Warn(s, code);
      }
    }

    // ---- snapshots --------------------------------------------------------------------------

    /** The deadline branch of _wait_for. */
    method TimedOut(s: Stream, depth: bool, loop: bool, ghost cancelRaises: bool)
      requires Valid() && Has(s) && !s.kind.Trades? && (depth <==> s.kind.Depth?)
      modifies this`depthStreams, this`l1Streams, this`tradesStreams, this`streamByReqId, this`tradesByReqId,
               this`mdLines, this`subscriptions, this`w, streams, handles
      ensures Valid() && s.serial < |old(w).streams| && w == L.TimedOut(old(w), s.serial, L.Env(loop, cancelRaises))
    {
      hide Objects, IsDict, IsRoutes, L.DropPersistent;
      HasMirror(s);
      if s.warning.Some? && s.refs <= 1 { FailStream(s, depth, None, loop, cancelRaises); }
    }

    /** A snapshot enters or leaves its wait; only the history knows. */
    ghost method Watch(f: multiset<nat>)
      requires Valid()
      modifies this`w
      ensures Valid() && w == old(w).(inflight := f)
    {
      hide IsDict, IsRoutes;
      w := w.(inflight := f);
      Watched();
      DictsSame();
      RoutesSame();
    }

    twostate lemma Watched()
      requires old(Counts() && Objects()) && Counts()
      requires streams == old(streams) && handles == old(handles)
      requires w.streams == old(w.streams) && w.handles == old(w.handles)
      requires subscriptions == old(subscriptions) && subscribeSeq == old(subscribeSeq)
      requires forall i :: 0 <= i < |streams| ==> unchanged(streams[i])
      requires forall k :: 0 <= k < |handles| ==> unchanged(handles[k])
      ensures Objects()
    {
      forall i | 0 <= i < |streams| ensures IsStream(i) { assert old(IsStream(i)); }
      forall h | 0 <= h < |handles| ensures IsHandle(h) { assert old(IsHandle(h)); }
    }

    lemma FindKeepsWatch(u: L.Ledger, kind: L.Kind, c: L.Contract, a: L.Answer)
      ensures L.Find(u, kind, c, a).0.inflight == u.inflight
    {
    }

    /** depth_snapshot up to its wait. */
    method DepthSnapshotBegin(contract: L.Contract, answer: L.Answer) returns (r: Result<Stream, L.Failure>)
      requires Valid()
      requires forall slot :: slot in w.reg ==> w.reg[slot] < |w.streams|
      modifies this`depthStreams, this`l1Streams, this`streamByReqId, this`mdLines, this`created, this`streams, this`w, streams
      ensures Valid() && w == L.SnapshotBegin(old(w), contract, answer)
      ensures r.Ok? ==> Has(r.value) && r.value.kind.Depth? && w.inflight == old(w).inflight + multiset{r.value.serial}
    {
      hide Objects, IsDict, IsRoutes, L.Find;
      FindKeepsWatch(w, L.Depth, contract, answer);
      r := AcquireDepth(contract, answer);
      if r.Ok? { Watch(w.inflight + multiset{r.value.serial}); }
    }

    /** depth_snapshot from the end of its wait, which may have been the deadline. */
    method DepthSnapshotEnd(s: Stream, timedOut: bool, loop: bool, ghost cancelRaises: bool)
      requires Valid() && Has(s) && s.kind.Depth?
      modifies this`depthStreams, this`l1Streams, this`tradesStreams, this`streamByReqId, this`tradesByReqId,
               this`mdLines, this`subscriptions, this`w, streams, handles
      ensures Valid() && s.serial < |old(w).streams|
      ensures w == L.SnapshotEnd(old(w), s.serial, timedOut, L.Env(loop, cancelRaises))
    {
      hide Objects, IsDict, IsRoutes, L.TimedOut, L.Release;
      HasMirror(s);
      if timedOut { TimedOut(s, true, loop, cancelRaises); }
      Watch(w.inflight - multiset{s.serial});
      ReleaseDepth(s, loop, cancelRaises);
    }

    /** top_of_book up to its wait. */
    method TopOfBookBegin(contract: L.Contract, answer: L.Answer) returns (r: Result<Stream, L.Failure>)
      requires Valid()
      modifies this`depthStreams, this`l1Streams, this`streamByReqId, this`mdLines, this`created, this`streams, this`w
      ensures Valid() && w == L.TopOfBook(old(w), contract, answer)
      ensures r.Ok? ==> Has(r.value) && r.value.kind.L1?
    {
      hide Objects, IsDict, IsRoutes, L.Find;
      r := FindPersistent(contract, false, answer);
    }

    // ---- all streams at once ----------------------------------------------------------------

    /** The first half of a move that asks IB for a new stream; the last cancel may raise. */
    ghost method Cancelled(s: Stream, raises: bool)
      requires Valid() && Has(s)
      modifies this`w
      ensures Valid()
      ensures w == if raises then old(w).(faults := old(w).faults + 1)
                   else old(w).(open := old(w).open - multiset{old(w).streams[s.serial].At()})
    {
      hide IsDict, IsRoutes;
      w := if raises then w.(faults := w.faults + 1) else w.(open := w.open - multiset{w.streams[s.serial].At()});
      Watched();
      DictsSame();
      RoutesSame();
    }

    /** `stream.permission_warning = None`. */
    method Unwarn(s: Stream)
      requires Valid() && Has(s)
      modifies this`w, s
      ensures Valid() && w == L.SetStream(old(w), s.serial, old(w).streams[s.serial].(warning := None))
    {
      hide Objects, IsDict, IsRoutes;
      HasMirror(s);
      s.warning := None;
      w := L.SetStream(w, s.serial, w.streams[s.serial].(warning := None));
      Updated(s);
      DictsSame();
      RoutesSame();
    }

    /** Unhook, the old request's fate, the new request: the same end as the transition. */
    lemma MoveIsResubscribe(u: L.Ledger, i: nat, cancelOld: bool, m: L.Move)
      requires i < |u.streams|
      ensures var s := u.streams[i];
        var u1 := L.Unhook(u, i);
        var u2 := if s.kind.Trades? then u1 else L.SetStream(u1, i, u1.streams[i].(warning := None));
        var u3 := if cancelOld && !m.cancelRaises then u2.(open := u2.open - multiset{u2.streams[i].At()}) else u2;
        L.Resubscribe(u, i, cancelOld, m)
          == if (cancelOld && m.cancelRaises) || m.answer.Raises? then u3.(faults := u3.faults + 1)
             else L.Request(u3, i, m.answer.reqId)
    {
      var s := u.streams[i];
      var s1 := s.(hooked := false, reqId := None);
      UpdateTwice(u.streams, i, s1, s1.(warning := None));
    }

    /** _resubscribe_trades. */
    method ResubscribeTrades(s: Stream, cancelOld: bool, m: L.Move)
      requires Valid() && Has(s) && s.kind.Trades?
      modifies this`tradesByReqId, this`w, s
      ensures Valid() && w == L.Resubscribe(old(w), s.serial, cancelOld, m)
    {
      hide Objects, IsDict, IsRoutes, L.Unhook, L.Request, L.Resubscribe;
      HasMirror(s);
      MoveIsResubscribe(w, s.serial, cancelOld, m);
      UnhookTrades(s);
      if cancelOld { Cancelled(s, m.cancelRaises); }
      if cancelOld && m.cancelRaises { return; }
      if m.answer.Raises? { Cancelled(s, true); return; }
      RequestTrades(s, m.answer.reqId);
    }

    /** _resubscribe_stream. */
    method ResubscribeStream(s: Stream, cancelOld: bool, m: L.Move, depth: bool)
      requires Valid() && Has(s) && !s.kind.Trades? && (depth <==> s.kind.Depth?)
      modifies this`streamByReqId, this`w, s
      ensures Valid() && w == L.Resubscribe(old(w), s.serial, cancelOld, m)
    {
      hide Objects, IsDict, IsRoutes, L.Unhook, L.Request, L.Resubscribe;
      HasMirror(s);
      MoveIsResubscribe(w, s.serial, cancelOld, m);
      UnhookPersistent(s);
      Unwarn(s);
      if cancelOld { Cancelled(s, m.cancelRaises); }
      if cancelOld && m.cancelRaises { return; }
      if m.answer.Raises? { Cancelled(s, true); return; }
      RequestPersistent(s, m.answer.reqId, depth);
    }

    /** The objects with these numbers, in this order. */
    ghost predicate Lists(ss: seq<Stream>, ids: seq<nat>, kind: L.Kind)
      reads this
    {
      |ss| == |ids| && forall k :: 0 <= k < |ss| ==> Has(ss[k]) && ss[k].serial == ids[k] && ss[k].kind == kind
    }

    /** A dict's keys are the keys of the contracts of its streams. */
    ghost predicate Named()
      reads this
    {
      forall slot :: slot in w.reg ==> w.reg[slot] < |w.streams| && w.streams[w.reg[slot]].At() == slot
    }

    lemma SmallestExists(rest: set<Stream>)
      requires rest != {}
      ensures exists s :: s in rest && forall t :: t in rest ==> s.serial <= t.serial
    {
      var s :| s in rest;
      if rest - {s} != {} {
        SmallestExists(rest - {s});
        var r :| r in rest - {s} && forall t :: t in rest - {s} ==> r.serial <= t.serial;
        var m := if s.serial <= r.serial then s else r;
        assert m in rest && forall t :: t in rest ==> m.serial <= t.serial;
      } else {
        assert rest == {s};
      }
    }

    lemma DictIsRegistered(kind: L.Kind, m: map<L.Key, Stream>, i: nat)
      requires Counts() && Objects() && IsDict(kind, m) && Named() && i < |streams|
      ensures streams[i] in m.Values <==> L.Live(w, i) && w.streams[i].kind == kind
    {
      assert IsStream(i);
      if streams[i] in m.Values {
        var key :| key in m && m[key] == streams[i];
      }
      if L.Live(w, i) && w.streams[i].kind == kind {
        var key := L.StreamKey(w.streams[i].contract);
        assert key in m && m[key] == streams[i];
      }
    }

    /** list(streams.values()): insertion order, which is creation order. */
    method Values(m: map<L.Key, Stream>, ghost kind: L.Kind) returns (ss: seq<Stream>)
      requires Valid() && IsDict(kind, m) && Named()
      ensures Lists(ss, L.Registered(w, kind, |w.streams|), kind)
    {
      hide Objects, IsDict, IsRoutes, Named;
      ss := [];
      var rest := m.Values;
      while rest != {}
        invariant rest <= m.Values
        invariant forall s :: s in m.Values <==> s in rest || s in ss
        invariant Ordered(ss, rest)
        decreases rest
      {
        SmallestExists(rest);
        var s :| s in rest && forall t :: t in rest ==> s.serial <= t.serial;
        SmallestNext(kind, m, ss, rest, s);
        ss := ss + [s];
        rest := rest - {s};
      }
      SortedIsRegistered(kind, m, ss);
    }

    /** ss is in creation order, and everything in rest was created later. */
    ghost predicate Ordered(ss: seq<Stream>, rest: set<Stream>) {
      && (forall j, k :: 0 <= j < k < |ss| ==> ss[j].serial < ss[k].serial)
      && (forall k, t :: 0 <= k < |ss| && t in rest ==> ss[k].serial < t.serial)
    }

    lemma SmallestNext(kind: L.Kind, m: map<L.Key, Stream>, ss: seq<Stream>, rest: set<Stream>, s: Stream)
      requires IsDict(kind, m) && rest <= m.Values && Ordered(ss, rest)
      requires s in rest && forall t :: t in rest ==> s.serial <= t.serial
      ensures Ordered(ss + [s], rest - {s})
    {
      forall t | t in rest - {s} ensures s.serial < t.serial {
        assert t in m.Values && s in m.Values;
        var k, l :| k in m && m[k] == s && l in m && m[l] == t;
      }
    }

    lemma MembersRegistered(kind: L.Kind, m: map<L.Key, Stream>, ss: seq<Stream>)
      requires Counts() && Objects() && IsDict(kind, m) && Named()
      requires forall s :: s in m.Values <==> s in ss
      ensures forall i: nat :: i < |streams| ==> (streams[i] in ss <==> i in L.Registered(w, kind, |w.streams|))
    {
      hide Objects, IsDict, Named;
      forall i: nat | i < |streams| ensures streams[i] in ss <==> i in L.Registered(w, kind, |w.streams|) {
        DictIsRegistered(kind, m, i);
      }
    }

    lemma MembersOwned(kind: L.Kind, m: map<L.Key, Stream>, ss: seq<Stream>)
      requires IsDict(kind, m) && forall s :: s in m.Values <==> s in ss
      ensures forall k :: 0 <= k < |ss| ==> Has(ss[k]) && ss[k].kind == kind
    {
      forall k | 0 <= k < |ss| ensures Has(ss[k]) && ss[k].kind == kind {
        assert ss[k] in ss;
        assert ss[k] in m.Values;
        var key :| key in m && m[key] == ss[k];
      }
    }

    lemma SerialOf(i: nat)
      requires Counts() && Objects() && i < |streams|
      ensures streams[i].serial == i
    {
      assert IsStream(i);
    }

    lemma SortedIsRegistered(kind: L.Kind, m: map<L.Key, Stream>, ss: seq<Stream>)
      requires Counts() && Objects() && IsDict(kind, m) && Named() && Ordered(ss, {})
      requires forall s :: s in m.Values <==> s in ss
      ensures Lists(ss, L.Registered(w, kind, |w.streams|), kind)
    {
      hide Objects, IsDict, Named, L.Registered;
      ghost var ids := seq(|ss|, k requires 0 <= k < |ss| => ss[k].serial);
      MembersOwned(kind, m, ss);
      SerialsRegistered(kind, m, ss, ids);
      RegisteredSorted(w, kind, |w.streams|);
      SortedSame(ids, L.Registered(w, kind, |w.streams|));
    }

    lemma SerialsRegistered(kind: L.Kind, m: map<L.Key, Stream>, ss: seq<Stream>, ids: seq<nat>)
      requires Counts() && Objects() && IsDict(kind, m) && Named()
      requires forall s :: s in m.Values <==> s in ss
      requires |ids| == |ss| && forall k :: 0 <= k < |ss| ==> ids[k] == ss[k].serial
      ensures forall i: nat :: i in ids <==> i in L.Registered(w, kind, |w.streams|)
    {
      hide Objects, IsDict, Named, L.Registered;
      MembersOwned(kind, m, ss);
      MembersRegistered(kind, m, ss);
      forall i: nat ensures i in ids <==> i in L.Registered(w, kind, |w.streams|) {
        if i in ids {
          var k :| 0 <= k < |ids| && ids[k] == i;
          assert ss[k] in ss && streams[i] == ss[k];
        }
        if i in L.Registered(w, kind, |w.streams|) {
          SerialOf(i);
          var k :| 0 <= k < |ss| && ss[k] == streams[i];
          assert ids[k] == i;
        }
      }
    }

    lemma {:induction false} RegisteredSorted(u: L.Ledger, kind: L.Kind, n: nat)
      requires n <= |u.streams|
      ensures Sorted(L.Registered(u, kind, n))
    {
      if n > 0 {
        RegisteredSorted(u, kind, n - 1);
        var ids := L.Registered(u, kind, n - 1);
        forall k | 0 <= k < |ids| ensures ids[k] < n - 1 { assert ids[k] in ids; }
      }
    }

    lemma {:induction false} ResubscribeAppend(u: L.Ledger, a: seq<nat>, b: seq<nat>, cancelOld: bool, moves: nat -> L.Move)
      requires forall k :: 0 <= k < |a| ==> a[k] < |u.streams|
      requires forall k :: 0 <= k < |b| ==> b[k] < |u.streams|
      requires forall k :: 0 <= k < |a + b| ==> (a + b)[k] < |u.streams|
      ensures L.ResubscribeEach(u, a + b, cancelOld, moves)
              == L.ResubscribeEach(L.ResubscribeEach(u, a, cancelOld, moves), b, cancelOld, moves)
      decreases |a|
    {
      hide L.Resubscribe;
      if a == [] {
        assert a + b == b;
      } else {
        assert (a + b)[0] == a[0] && (a + b)[1..] == a[1..] + b;
        ResubscribeAppend(L.Resubscribe(u, a[0], cancelOld, moves(a[0])), a[1..], b, cancelOld, moves);
      }
    }

    lemma ListsBounded(ss: seq<Stream>, ids: seq<nat>, kind: L.Kind)
      requires Counts() && Lists(ss, ids, kind)
      ensures forall k :: 0 <= k < |ids| ==> ids[k] < |w.streams|
    {
    }

    method ResubscribeTradesEach(ss: seq<Stream>, ghost ids: seq<nat>, cancelOld: bool, moves: nat -> L.Move)
      requires Valid() && Lists(ss, ids, L.Trades)
      modifies this`tradesByReqId, this`w, streams
      ensures Valid() && |w.streams| == |old(w).streams| && forall k :: 0 <= k < |ids| ==> ids[k] < |old(w).streams|
      ensures w == L.ResubscribeEach(old(w), ids, cancelOld, moves)
    {
      hide Objects, IsDict, IsRoutes, L.Resubscribe;
      ListsBounded(ss, ids, L.Trades);
      assert ids[0..] == ids;
      var k := 0;
      while k < |ss|
        invariant k <= |ss| && Valid() && Lists(ss, ids, L.Trades) && |w.streams| == |old(w).streams|
        invariant forall j :: 0 <= j < |ids| ==> ids[j] < |w.streams|
        invariant L.ResubscribeEach(w, ids[k..], cancelOld, moves) == L.ResubscribeEach(old(w), ids, cancelOld, moves)
      {
        assert ids[k..][0] == ids[k] && ids[k..][1..] == ids[k + 1..];
        ResubscribeTrades(ss[k], cancelOld, moves(ss[k].serial));
        k := k + 1;
      }
    }

    method ResubscribePersistentEach(ss: seq<Stream>, ghost ids: seq<nat>, cancelOld: bool, moves: nat -> L.Move, depth: bool)
      requires Valid() && Lists(ss, ids, if depth then L.Depth else L.L1)
      modifies this`streamByReqId, this`w, streams
      ensures Valid() && |w.streams| == |old(w).streams| && forall k :: 0 <= k < |ids| ==> ids[k] < |old(w).streams|
      ensures w == L.ResubscribeEach(old(w), ids, cancelOld, moves)
    {
      hide Objects, IsDict, IsRoutes, L.Resubscribe;
      ghost var kind := if depth then L.Depth else L.L1;
      ListsBounded(ss, ids, kind);
      assert ids[0..] == ids;
      var k := 0;
      while k < |ss|
        invariant k <= |ss| && Valid() && Lists(ss, ids, kind) && |w.streams| == |old(w).streams|
        invariant forall j :: 0 <= j < |ids| ==> ids[j] < |w.streams|
        invariant L.ResubscribeEach(w, ids[k..], cancelOld, moves) == L.ResubscribeEach(old(w), ids, cancelOld, moves)
      {
        assert ids[k..][0] == ids[k] && ids[k..][1..] == ids[k + 1..];
        ResubscribeStream(ss[k], cancelOld, moves(ss[k].serial), depth);
        k := k + 1;
      }
    }

    /** IB has dropped everything it streamed to this client. */
    ghost method IbLost(lost: bool)
      requires Valid()
      modifies this`w
      ensures Valid()
      ensures w == if lost then old(w).(open := multiset{}, leaked := multiset{}, faults := 0) else old(w)
    {
      hide IsDict, IsRoutes;
      w := if lost then w.(open := multiset{}, leaked := multiset{}, faults := 0) else w;
      Watched();
      DictsSame();
      RoutesSame();
    }

    /** resubscribe_all, on its streams: trades, then L1, then depth. */
    method ResubscribeAll(cancelOld: bool, ghost lost: bool, moves: nat -> L.Move)
      requires Valid() && Named()
      modifies this`tradesByReqId, this`streamByReqId, this`w, streams
      ensures Valid() && w == L.ResubscribeAll(old(w), cancelOld, lost, moves)
    {
      hide Objects, IsDict, IsRoutes, L.ResubscribeEach, Named;
      var trades := Values(tradesStreams, L.Trades);
      var l1 := Values(l1Streams, L.L1);
      var depth := Values(depthStreams, L.Depth);
      ghost var n := |w.streams|;
      ghost var A, B, C := L.Registered(w, L.Trades, n), L.Registered(w, L.L1, n), L.Registered(w, L.Depth, n);
      ListsBounded(trades, A, L.Trades);
      ListsBounded(l1, B, L.L1);
      ListsBounded(depth, C, L.Depth);
      IbLost(lost);
      ResubscribeAppend(w, A, B, cancelOld, moves);
      ResubscribeAppend(w, A + B, C, cancelOld, moves);
      ResubscribeTradesEach(trades, A, cancelOld, moves);
      ResubscribePersistentEach(l1, B, cancelOld, moves, false);
      ResubscribePersistentEach(depth, C, cancelOld, moves, true);
    }

    lemma {:induction false} DropAppend(u: L.Ledger, a: seq<nat>, b: seq<nat>, raises: nat -> bool)
      requires forall k :: 0 <= k < |a| ==> a[k] < |u.streams|
      requires forall k :: 0 <= k < |b| ==> b[k] < |u.streams|
      requires forall k :: 0 <= k < |a + b| ==> (a + b)[k] < |u.streams|
      ensures L.DropEach(u, a + b, raises) == L.DropEach(L.DropEach(u, a, raises), b, raises)
      decreases |a|
    {
      hide L.DropTrades, L.DropPersistent;
      if a == [] {
        assert a + b == b;
      } else {
        assert (a + b)[0] == a[0] && (a + b)[1..] == a[1..] + b;
        var i := a[0];
        var u1 := if u.streams[i].kind.Trades? then L.DropTrades(u, i, raises(i)) else L.DropPersistent(u, i, raises(i));
        DropAppend(u1, a[1..], b, raises);
      }
    }

    method DropTradesEach(ss: seq<Stream>, ghost ids: seq<nat>, ghost raises: nat -> bool)
      requires Valid() && Lists(ss, ids, L.Trades)
      modifies this`tradesStreams, this`tradesByReqId, this`mdLines, this`w, streams
      ensures Valid() && |w.streams| == |old(w).streams| && forall k :: 0 <= k < |ids| ==> ids[k] < |old(w).streams|
      ensures w == L.DropEach(old(w), ids, raises)
    {
      hide Objects, IsDict, IsRoutes, L.DropTrades, L.DropPersistent;
      ListsBounded(ss, ids, L.Trades);
      assert ids[0..] == ids;
      var k := 0;
      while k < |ss|
        invariant k <= |ss| && Valid() && Lists(ss, ids, L.Trades) && |w.streams| == |old(w).streams|
        invariant forall j :: 0 <= j < |ids| ==> ids[j] < |w.streams|
        invariant L.DropEach(w, ids[k..], raises) == L.DropEach(old(w), ids, raises)
      {
        assert ids[k..][0] == ids[k] && ids[k..][1..] == ids[k + 1..];
        HasMirror(ss[k]);
        DropTrades(ss[k], raises(ids[k]));
        k := k + 1;
      }
    }

    method DropPersistentEach(ss: seq<Stream>, ghost ids: seq<nat>, depth: bool, ghost raises: nat -> bool)
      requires Valid() && Lists(ss, ids, if depth then L.Depth else L.L1)
      modifies this`depthStreams, this`l1Streams, this`streamByReqId, this`mdLines, this`w, streams
      ensures Valid() && |w.streams| == |old(w).streams| && forall k :: 0 <= k < |ids| ==> ids[k] < |old(w).streams|
      ensures w == L.DropEach(old(w), ids, raises)
    {
      hide Objects, IsDict, IsRoutes, L.DropTrades, L.DropPersistent;
      ghost var kind := if depth then L.Depth else L.L1;
      ListsBounded(ss, ids, kind);
      assert ids[0..] == ids;
      var k := 0;
      while k < |ss|
        invariant k <= |ss| && Valid() && Lists(ss, ids, kind) && |w.streams| == |old(w).streams|
        invariant forall j :: 0 <= j < |ids| ==> ids[j] < |w.streams|
        invariant L.DropEach(w, ids[k..], raises) == L.DropEach(old(w), ids, raises)
      {
        assert ids[k..][0] == ids[k] && ids[k..][1..] == ids[k + 1..];
        HasMirror(ss[k]);
        DropStream(ss[k], depth, raises(ids[k]));
        k := k + 1;
      }
    }

    /** _release_all_streams, on its streams: L1, then depth, then trades. */
    method ReleaseAllStreams(ghost raises: nat -> bool)
      requires Valid() && Named()
      modifies this`depthStreams, this`l1Streams, this`tradesStreams, this`streamByReqId, this`tradesByReqId,
               this`mdLines, this`w, streams
      ensures Valid() && w == L.ReleaseAll(old(w), raises)
    {
      hide Objects, IsDict, IsRoutes, L.DropEach, Named;
      var l1 := Values(l1Streams, L.L1);
      var depth := Values(depthStreams, L.Depth);
      var trades := Values(tradesStreams, L.Trades);
      ghost var n := |w.streams|;
      ghost var A, B, C := L.Registered(w, L.L1, n), L.Registered(w, L.Depth, n), L.Registered(w, L.Trades, n);
      ListsBounded(l1, A, L.L1);
      ListsBounded(depth, B, L.Depth);
      ListsBounded(trades, C, L.Trades);
      DropAppend(w, A, B, raises);
      DropAppend(w, A + B, C, raises);
      DropPersistentEach(l1, A, false, raises);
      DropPersistentEach(depth, B, true, raises);
      DropTradesEach(trades, C, raises);
    }
  }
}
