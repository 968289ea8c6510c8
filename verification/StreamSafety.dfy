/** What holds of the stream allocator in every reachable state, and what each transition does. */
module StreamSafety {
  import opened Prelude
  import opened StreamLedger

  // ---- the invariant ------------------------------------------------------------------------

  /** The registry names each slot's stream, and a line is held for each entry: no more than the cap. */
  ghost predicate RegOk(w: Ledger) {
    && (forall slot :: slot in w.reg ==> w.reg[slot] < |w.streams| && w.streams[w.reg[slot]].At() == slot)
    && w.lines == |w.reg| <= w.cap
  }

  /** Refs count the open handles and the snapshots in flight; a dropped object keeps nothing. */
  ghost predicate StreamOk(w: Ledger, i: nat)
    requires i < |w.streams|
  {
    var s := w.streams[i];
    && s.refs == |s.subscribers| + w.inflight[i]
    && NoDup(s.subscribers)
    && (s.kind.L1? ==> s.refs == 0)
    && (w.inflight[i] > 0 ==> s.kind.Depth?)
    && (s.timer ==> Live(w, i) && s.kind.Depth?)
    && (!Live(w, i) ==> s.reqId.None? && !s.hooked)
    && s.retired == (if Live(w, i) then 0 else 1)
  }

  /** A registered trades stream has a user; a registered depth stream has a user or an armed timer. */
  ghost predicate Settled(w: Ledger, i: nat)
    requires i < |w.streams|
  {
    var s := w.streams[i];
    Live(w, i) ==> (s.kind.Trades? ==> s.refs > 0) && (s.kind.Depth? ==> (s.timer <==> s.refs == 0))
  }

  ghost predicate Listed(w: Ledger, i: nat)
    requires i < |w.streams|
  {
    forall h :: h in w.streams[i].subscribers ==> h < |w.handles| && w.handles[h].stream == i && !w.handles[h].closed
  }

  /** A subscriber list holds exactly the open handles of its stream; a failed handle was told once. */
  ghost predicate HandlesOk(w: Ledger) {
    && (forall h :: 0 <= h < |w.handles| ==> w.handles[h].stream < |w.streams|)
    && (forall i :: 0 <= i < |w.streams| ==> Listed(w, i))
    && (forall h :: 0 <= h < |w.handles| && !w.handles[h].closed ==> h in w.streams[w.handles[h].stream].subscribers)
    && (forall h :: 0 <= h < |w.handles| ==>
          && (w.handles[h].error.Some? ==> w.handles[h].closed)
          && w.handles[h].calls == (if w.handles[h].error.Some? && w.handles[h].wantsError then 1 else 0))
    && (forall i :: i in w.inflight ==> i < |w.streams|)
  }

  /** Both reqId maps hold exactly the current reqIds of the registered streams of their kinds. */
  ghost predicate RoutesOk(w: Ledger) {
    && (forall r :: r in w.routes ==>
          && w.routes[r] < |w.streams| && !w.streams[w.routes[r]].kind.Trades?
          && w.streams[w.routes[r]].reqId == Some(r) && r !in w.tradeRoutes)
    && (forall r :: r in w.tradeRoutes ==>
          && w.tradeRoutes[r] < |w.streams| && w.streams[w.tradeRoutes[r]].kind.Trades?
          && w.streams[w.tradeRoutes[r]].reqId == Some(r))
    && (forall i :: 0 <= i < |w.streams| && w.streams[i].reqId.Some? ==> Routed(w, i))
  }

  ghost predicate Routed(w: Ledger, i: nat)
    requires i < |w.streams| && w.streams[i].reqId.Some?
  {
    var r := w.streams[i].reqId.value;
    if w.streams[i].kind.Trades? then r in w.tradeRoutes && w.tradeRoutes[r] == i
    else r in w.routes && w.routes[r] == i
  }

  function Count(b: bool): nat { if b then 1 else 0 }

  /** IB streams no slot twice, unless a teardown cancel got lost; without faults it streams the registry. */
  ghost predicate IbOk(w: Ledger) {
    && (forall slot :: w.open[slot] <= Count(slot in w.reg) + w.leaked[slot])
    && (w.faults == 0 ==> forall slot :: w.open[slot] == Count(slot in w.reg))
  }

  ghost predicate Shape(w: Ledger) {
    RegOk(w) && HandlesOk(w) && RoutesOk(w) && forall i :: 0 <= i < |w.streams| ==> StreamOk(w, i)
  }

  ghost predicate Core(w: Ledger) { Shape(w) && IbOk(w) }

  ghost predicate Inv(w: Ledger) {
    Core(w) && forall i :: 0 <= i < |w.streams| ==> Settled(w, i)
  }

  /** Only the subscriber lists and the handles matter to HandlesOk. */
  lemma ListsKeep(w: Ledger, v: Ledger)
    requires HandlesOk(w) && v.handles == w.handles && v.inflight == w.inflight && |v.streams| >= |w.streams|
    requires forall j :: 0 <= j < |w.streams| ==> v.streams[j].subscribers == w.streams[j].subscribers
    requires forall j :: |w.streams| <= j < |v.streams| ==> v.streams[j].subscribers == []
    ensures HandlesOk(v)
  {
    forall j | 0 <= j < |v.streams| ensures Listed(v, j) {
      if j < |w.streams| { assert Listed(w, j); }
    }
  }

  // Each part of the invariant reads a few fields only.

  lemma RegApart(w: Ledger, v: Ledger)
    requires RegOk(w) && v.reg == w.reg && v.lines == w.lines && v.cap == w.cap && v.streams == w.streams
    ensures RegOk(v)
  {
  }

  lemma RoutesApart(w: Ledger, v: Ledger)
    requires RoutesOk(w) && v.routes == w.routes && v.tradeRoutes == w.tradeRoutes && v.streams == w.streams
    ensures RoutesOk(v)
  {
    forall j | 0 <= j < |v.streams| && v.streams[j].reqId.Some? ensures Routed(v, j) { assert Routed(w, j); }
  }

  lemma IbApart(w: Ledger, v: Ledger)
    requires IbOk(w) && v.reg == w.reg && v.open == w.open && v.leaked == w.leaked && v.faults == w.faults
    ensures IbOk(v)
  {
  }

  lemma StreamsApart(w: Ledger, v: Ledger)
    requires v.reg == w.reg && v.streams == w.streams
    ensures forall j :: 0 <= j < |w.streams| && v.inflight[j] == w.inflight[j] ==> (StreamOk(v, j) <==> StreamOk(w, j))
    ensures forall j :: 0 <= j < |w.streams| ==> (Settled(v, j) <==> Settled(w, j)) && (Live(v, j) <==> Live(w, j))
  {
    forall j | 0 <= j < |w.streams|
      ensures (v.inflight[j] == w.inflight[j] ==> (StreamOk(v, j) <==> StreamOk(w, j)))
      ensures (Settled(v, j) <==> Settled(w, j)) && (Live(v, j) <==> Live(w, j))
    {
    }
  }

  /** What does not concern streams, slots, routes or IB leaves those parts alone. */
  lemma Apart(w: Ledger, v: Ledger)
    requires RegOk(w) && RoutesOk(w) && IbOk(w)
    requires v == w.(handles := v.handles, inflight := v.inflight)
    ensures RegOk(v) && RoutesOk(v) && IbOk(v)
    ensures forall j :: 0 <= j < |w.streams| && v.inflight[j] == w.inflight[j] ==> (StreamOk(v, j) <==> StreamOk(w, j))
    ensures forall j :: 0 <= j < |w.streams| ==> (Settled(v, j) <==> Settled(w, j)) && (Live(v, j) <==> Live(w, j))
  {
    hide *;
    RegApart(w, v);
    RoutesApart(w, v);
    IbApart(w, v);
    StreamsApart(w, v);
  }

  // ---- teardown -----------------------------------------------------------------------------

  function Drop(w: Ledger, i: nat, raises: bool): (v: Ledger)
    requires i < |w.streams|
    ensures v.handles == w.handles && |v.streams| == |w.streams|
  {
    if w.streams[i].kind.Trades? then DropTrades(w, i, raises) else DropPersistent(w, i, raises)
  }

  /** The state after the drop of a registered stream, read off in one piece. */
  function Dropped(w: Ledger, i: nat, raises: bool): Ledger
    requires i < |w.streams|
  {
    var s := w.streams[i];
    w.(reg := w.reg - {s.At()}, lines := w.lines - 1,
       streams := w.streams[i := s.(timer := false, hooked := false, reqId := None, retired := 1)],
       routes := if s.kind.Trades? then w.routes else Forget(w.routes, s.reqId),
       tradeRoutes := if s.kind.Trades? then Forget(w.tradeRoutes, s.reqId) else w.tradeRoutes,
       open := if raises then w.open else w.open - multiset{s.At()},
       leaked := if raises then w.leaked + multiset{s.At()} else w.leaked,
       faults := if raises then w.faults + 1 else w.faults)
  }

  /** The state once the stream has been unhooked too, and only the cancel is missing. */
  function Unhooked(w: Ledger, i: nat): Ledger
    requires i < |w.streams|
  {
    var s := w.streams[i];
    w.(reg := w.reg - {s.At()}, lines := w.lines - 1,
       streams := w.streams[i := s.(timer := false, hooked := false, reqId := None)],
       routes := if s.kind.Trades? then w.routes else Forget(w.routes, s.reqId),
       tradeRoutes := if s.kind.Trades? then Forget(w.tradeRoutes, s.reqId) else w.tradeRoutes)
  }

  lemma UnhookIsUnhooked(w: Ledger, i: nat)
    requires i < |w.streams|
    ensures var s := w.streams[i];
      Unhook(SetStream(w.(reg := w.reg - {s.At()}, lines := w.lines - 1), i, s.(timer := false)), i) == Unhooked(w, i)
  {
    UpdateTwice(w.streams, i, w.streams[i].(timer := false), Unhooked(w, i).streams[i]);
  }

  /** Unhook and the final cancel, on a stream that is no longer registered. */
  lemma EndIsDropped(w: Ledger, i: nat, raises: bool)
    requires i < |w.streams| && w.streams[i].retired == 0
    ensures var s := w.streams[i];
      var w2 := SetStream(w.(reg := w.reg - {s.At()}, lines := w.lines - 1), i, s.(timer := false));
      FinalCancel(Unhook(w2, i), i, raises) == Dropped(w, i, raises)
  {
    hide Unhook;
    UnhookIsUnhooked(w, i);
    UpdateTwice(w.streams, i, Unhooked(w, i).streams[i], Dropped(w, i, raises).streams[i]);
  }

  lemma DropIsDropped(w: Ledger, i: nat, raises: bool)
    requires i < |w.streams| && Live(w, i) && StreamOk(w, i)
    ensures Drop(w, i, raises) == Dropped(w, i, raises)
  {
    EndIsDropped(w, i, raises);
    var s := w.streams[i];
    if s.kind.Trades? {
      var w1 := w.(reg := w.reg - {s.At()});
      var w2 := SetStream(w1.(lines := w1.lines - 1), i, s.(timer := false));
      assert w2.streams == w1.streams;
      assert Unhook(w1, i).(lines := w1.lines - 1) == Unhook(w2, i);
    }
  }

  lemma DroppedKeepsReg(w: Ledger, i: nat, raises: bool)
    requires RegOk(w) && i < |w.streams| && Live(w, i)
    ensures RegOk(Dropped(w, i, raises))
  {
    MapRemoveSize(w.reg, w.streams[i].At());
  }

  lemma DroppedKeepsRoutes(w: Ledger, i: nat, raises: bool)
    requires RoutesOk(w) && i < |w.streams|
    ensures RoutesOk(Dropped(w, i, raises))
  {
    var v := Dropped(w, i, raises);
    forall j | 0 <= j < |v.streams| && v.streams[j].reqId.Some? ensures Routed(v, j) {
      assert Routed(w, j);
    }
    if w.streams[i].reqId.Some? { assert Routed(w, i); }
  }

  lemma DroppedKeepsIb(w: Ledger, i: nat, raises: bool)
    requires IbOk(w) && i < |w.streams| && Live(w, i)
    ensures IbOk(Dropped(w, i, raises))
  {
  }

  lemma DroppedKeepsStreams(w: Ledger, i: nat, raises: bool)
    requires RegOk(w) && i < |w.streams| && Live(w, i)
    requires forall j :: 0 <= j < |w.streams| ==> StreamOk(w, j)
    ensures forall j :: 0 <= j < |w.streams| ==> StreamOk(Dropped(w, i, raises), j)
    ensures forall j :: 0 <= j < |w.streams| ==> (Live(Dropped(w, i, raises), j) <==> Live(w, j) && j != i)
  {
    var v := Dropped(w, i, raises);
    forall j | 0 <= j < |v.streams| ensures StreamOk(v, j) && (Live(v, j) <==> Live(w, j) && j != i) {
      assert StreamOk(w, j);
    }
  }

  lemma DropKeeps(w: Ledger, i: nat, raises: bool)
    requires Core(w) && i < |w.streams| && Live(w, i)
    ensures Core(Drop(w, i, raises))
    ensures forall j :: 0 <= j < |w.streams| ==> (Live(Drop(w, i, raises), j) <==> Live(w, j) && j != i)
    ensures forall j :: 0 <= j < |w.streams| && j != i && Settled(w, j) ==> Settled(Drop(w, i, raises), j)
    ensures Settled(Drop(w, i, raises), i)
  {
    hide RegOk, HandlesOk, RoutesOk, IbOk, StreamOk;
    DropIsDropped(w, i, raises);
    DroppedKeepsReg(w, i, raises);
    DroppedKeepsRoutes(w, i, raises);
    ListsKeep(w, Dropped(w, i, raises));
    DroppedKeepsIb(w, i, raises);
    DroppedKeepsStreams(w, i, raises);
  }

  // ---- opening ------------------------------------------------------------------------------

  /** IB never reuses the reqId of a request the transport still routes. */
  predicate Fresh(w: Ledger, a: Answer) {
    a.Sent? && a.reqId.Some? ==> a.reqId.value !in w.routes && a.reqId.value !in w.tradeRoutes
  }

  ghost predicate OthersSettled(w: Ledger, i: nat) {
    forall j :: 0 <= j < |w.streams| && j != i ==> Settled(w, j)
  }

  /** The state after a first request for a contract was sent. */
  function Opened(w: Ledger, kind: Kind, c: Contract, reqId: Option<nat>): Ledger {
    var i := |w.streams|;
    var slot := Slot(kind, StreamKey(c));
    w.(reg := w.reg[slot := i], lines := w.lines + 1,
       streams := w.streams + [NewStream(kind, c).(hooked := true, reqId := reqId)],
       routes := if kind.Trades? then w.routes else Remember(w.routes, reqId, i),
       tradeRoutes := if kind.Trades? then Remember(w.tradeRoutes, reqId, i) else w.tradeRoutes,
       open := w.open + multiset{slot})
  }

  lemma FindIsOpened(w: Ledger, kind: Kind, c: Contract, a: Answer)
    requires Slot(kind, StreamKey(c)) !in w.reg && w.lines < w.cap && a.Sent?
    ensures Find(w, kind, c, a) == (Opened(w, kind, c, a.reqId), Ok(|w.streams|))
  {
    var i := |w.streams|;
    var w0 := w.(streams := w.streams + [NewStream(kind, c)]);
    var w1 := Request(w0, i, a.reqId);
    assert w1.streams == w.streams + [NewStream(kind, c).(hooked := true, reqId := a.reqId)];
    var w2 := w1.(reg := w1.reg[Slot(kind, StreamKey(c)) := i], lines := w1.lines + 1);
    assert w2 == Opened(w, kind, c, a.reqId);
  }

  lemma OpenedKeepsRoutes(w: Ledger, kind: Kind, c: Contract, reqId: Option<nat>)
    requires RoutesOk(w) && Fresh(w, Sent(reqId))
    ensures RoutesOk(Opened(w, kind, c, reqId))
  {
    var v := Opened(w, kind, c, reqId);
    forall j | 0 <= j < |v.streams| && v.streams[j].reqId.Some? ensures Routed(v, j) {
      if j < |w.streams| { assert Routed(w, j); }
    }
  }

  lemma OpenedKeepsStreams(w: Ledger, kind: Kind, c: Contract, reqId: Option<nat>)
    requires RegOk(w) && HandlesOk(w) && Slot(kind, StreamKey(c)) !in w.reg
    requires forall j :: 0 <= j < |w.streams| ==> StreamOk(w, j)
    ensures forall j :: 0 <= j <= |w.streams| ==> StreamOk(Opened(w, kind, c, reqId), j)
    ensures forall j :: 0 <= j < |w.streams| && Settled(w, j) ==> Settled(Opened(w, kind, c, reqId), j)
  {
    var v := Opened(w, kind, c, reqId);
    forall j | 0 <= j < |w.streams| ensures StreamOk(v, j) && (Settled(w, j) ==> Settled(v, j)) {
      assert StreamOk(w, j);
      assert v.streams[j] == w.streams[j];
    }
    assert |w.streams| !in w.inflight;
  }

  lemma OpenedKeepsReg(w: Ledger, kind: Kind, c: Contract, reqId: Option<nat>)
    requires RegOk(w) && Slot(kind, StreamKey(c)) !in w.reg && w.lines < w.cap
    ensures RegOk(Opened(w, kind, c, reqId))
  {
    MapAddSize(w.reg, Slot(kind, StreamKey(c)), |w.streams|);
  }

  lemma OpenedKeepsIb(w: Ledger, kind: Kind, c: Contract, reqId: Option<nat>)
    requires IbOk(w) && Slot(kind, StreamKey(c)) !in w.reg
    ensures IbOk(Opened(w, kind, c, reqId))
  {
  }

  lemma RegNames(w: Ledger, slot: Slot)
    requires RegOk(w) && slot in w.reg
    ensures w.reg[slot] < |w.streams| && w.streams[w.reg[slot]].At() == slot
  {
  }

  /** Opening or finding a stream keeps the invariant, but for a new stream that has no user yet. */
  lemma FindKeeps(w: Ledger, kind: Kind, c: Contract, a: Answer)
    requires Inv(w) && Fresh(w, a)
    ensures var (v, r) := Find(w, kind, c, a);
      && (r.Err? ==> v == w)
      && (r.Ok? ==> Core(v) && r.value < |v.streams| && Live(v, r.value)
                    && v.streams[r.value].At() == Slot(kind, StreamKey(c)) && OthersSettled(v, r.value))
  {
    var slot := Slot(kind, StreamKey(c));
    hide RegOk, HandlesOk, RoutesOk, IbOk, StreamOk, Settled;
    if slot in w.reg {
      RegNames(w, slot);
    } else if w.lines < w.cap && a.Sent? {
      FindIsOpened(w, kind, c, a);
      OpenedKeepsReg(w, kind, c, a.reqId);
      OpenedKeepsRoutes(w, kind, c, a.reqId);
      OpenedKeepsStreams(w, kind, c, a.reqId);
      ListsKeep(w, Opened(w, kind, c, a.reqId));
      OpenedKeepsIb(w, kind, c, a.reqId);
    }
  }

  // ---- users --------------------------------------------------------------------------------

  /** The reqId maps do not depend on users, timers, warnings or books. */
  lemma JoinKeepsRoutes(w: Ledger, i: nat, s: Stream)
    requires RoutesOk(w) && i < |w.streams|
    requires s.kind == w.streams[i].kind && s.reqId == w.streams[i].reqId
    ensures RoutesOk(w.(streams := w.streams[i := s]))
  {
    var v := w.(streams := w.streams[i := s]);
    forall j | 0 <= j < |v.streams| && v.streams[j].reqId.Some? ensures Routed(v, j) {
      assert Routed(w, j);
    }
  }

  /** Replacing a stream by one with the same slot, kind and request leaves everything else in order. */
  lemma SetKeeps(w: Ledger, i: nat, s: Stream)
    requires RegOk(w) && RoutesOk(w) && i < |w.streams|
    requires s.kind == w.streams[i].kind && s.reqId == w.streams[i].reqId && s.contract == w.streams[i].contract
    ensures var v := SetStream(w, i, s);
      && RegOk(v) && RoutesOk(v)
      && (forall j :: 0 <= j < |w.streams| ==> (Live(v, j) <==> Live(w, j)))
      && (forall j :: 0 <= j < |w.streams| && j != i && StreamOk(w, j) ==> StreamOk(v, j))
      && (forall j :: 0 <= j < |w.streams| && j != i && Settled(w, j) ==> Settled(v, j))
  {
    JoinKeepsRoutes(w, i, s);
    var v := SetStream(w, i, s);
    forall j | 0 <= j < |w.streams| && j != i && StreamOk(w, j) ensures StreamOk(v, j) {
      assert Live(v, j) == Live(w, j);
    }
  }

  /** One stream has changed within the invariant's terms; all others are as they were. */
  lemma SetKeepsInv(w: Ledger, i: nat, s: Stream)
    requires RegOk(w) && RoutesOk(w) && i < |w.streams|
    requires s.kind == w.streams[i].kind && s.reqId == w.streams[i].reqId && s.contract == w.streams[i].contract
    requires forall j :: 0 <= j < |w.streams| && j != i ==> StreamOk(w, j) && Settled(w, j)
    requires StreamOk(SetStream(w, i, s), i) && Settled(SetStream(w, i, s), i)
    ensures var v := SetStream(w, i, s);
      RegOk(v) && RoutesOk(v) && forall j :: 0 <= j < |w.streams| ==> StreamOk(v, j) && Settled(v, j)
  {
    SetKeeps(w, i, s);
    hide *;
    var v := SetStream(w, i, s);
    forall j | 0 <= j < |w.streams| ensures StreamOk(v, j) && Settled(v, j) {
      if j != i { assert StreamOk(w, j) && Settled(w, j); }
    }
  }

  lemma FreshHandle(w: Ledger, i: nat)
    requires HandlesOk(w) && i < |w.streams|
    ensures |w.handles| !in w.streams[i].subscribers
  {
    assert Listed(w, i);
  }

  /** The stream once a subscriber has joined it. */
  function Joined(w: Ledger, i: nat): Stream
    requires i < |w.streams|
  {
    var s := w.streams[i];
    s.(timer := if s.kind.Depth? then false else s.timer, refs := s.refs + 1,
       subscribers := s.subscribers + [|w.handles|])
  }

  lemma JoinedOk(w: Ledger, i: nat)
    requires HandlesOk(w) && i < |w.streams| && StreamOk(w, i) && Live(w, i) && !w.streams[i].kind.L1?
    ensures StreamOk(SetStream(w, i, Joined(w, i)), i) && Settled(SetStream(w, i, Joined(w, i)), i)
  {
    FreshHandle(w, i);
  }

  lemma JoinKeepsHandles(w: Ledger, i: nat, s: Stream, hd: Handle)
    requires HandlesOk(w) && i < |w.streams| && s.subscribers == w.streams[i].subscribers + [|w.handles|]
    requires hd.stream == i && !hd.closed && hd.error.None? && hd.calls == 0
    ensures HandlesOk(SetStream(w, i, s).(handles := w.handles + [hd]))
  {
    var v := SetStream(w, i, s).(handles := w.handles + [hd]);
    forall j | 0 <= j < |v.streams| ensures Listed(v, j) {
      assert Listed(w, j);
    }
  }

  lemma JoinIsJoined(w: Ledger, i: nat, c: Contract, wantsError: bool)
    requires i < |w.streams|
    ensures AddHandle(AddUser(w, i), i, c, wantsError)
            == SetStream(w, i, Joined(w, i)).(handles := w.handles + [Handle(i, c, wantsError, false, None, 0)])
  {
    UpdateTwice(w.streams, i, AddUser(w, i).streams[i], Joined(w, i));
  }

  /** A subscriber joins a registered depth or trades stream. */
  lemma JoinKeeps(w: Ledger, i: nat, c: Contract, wantsError: bool)
    requires Core(w) && OthersSettled(w, i) && i < |w.streams| && Live(w, i) && !w.streams[i].kind.L1?
    ensures Inv(AddHandle(AddUser(w, i), i, c, wantsError))
  {
    hide RegOk, RoutesOk, HandlesOk, IbOk, StreamOk, Settled, AddHandle, AddUser;
    var hd := Handle(i, c, wantsError, false, None, 0);
    var u := SetStream(w, i, Joined(w, i));
    JoinIsJoined(w, i, c, wantsError);
    JoinedOk(w, i);
    SetKeepsInv(w, i, Joined(w, i));
    IbApart(w, u);
    JoinKeepsHandles(w, i, Joined(w, i), hd);
    Apart(u, u.(handles := w.handles + [hd]));
  }

  lemma InflightKeepsHandles(w: Ledger, f: multiset<nat>)
    requires HandlesOk(w) && forall i :: i in f ==> i in w.inflight || i < |w.streams|
    ensures HandlesOk(w.(inflight := f))
  {
    var v := w.(inflight := f);
    forall j | 0 <= j < |v.streams| ensures Listed(v, j) { assert Listed(w, j); }
  }

  /** The stream once a snapshot has joined it. */
  function Watched(s: Stream): Stream { s.(timer := false, refs := s.refs + 1) }

  lemma SnapshotKeepsStream(w: Ledger, i: nat)
    requires i < |w.streams| && StreamOk(w, i) && Live(w, i) && w.streams[i].kind.Depth?
    ensures var v := SetStream(w.(inflight := w.inflight + multiset{i}), i, Watched(w.streams[i]));
      StreamOk(v, i) && Settled(v, i)
  {
  }

  lemma SnapshotKeepsOthers(w: Ledger, i: nat)
    requires OthersSettled(w, i) && forall j :: 0 <= j < |w.streams| ==> StreamOk(w, j)
    ensures var w1 := w.(inflight := w.inflight + multiset{i});
      forall j :: 0 <= j < |w.streams| && j != i ==> StreamOk(w1, j) && Settled(w1, j)
  {
    hide StreamOk, Settled;
    var w1 := w.(inflight := w.inflight + multiset{i});
    StreamsApart(w, w1);
    forall j | 0 <= j < |w.streams| && j != i ensures StreamOk(w1, j) && Settled(w1, j) {
      assert StreamOk(w, j) && Settled(w, j);
    }
  }

  /** A snapshot joins a registered depth stream. */
  lemma SnapshotKeeps(w: Ledger, i: nat)
    requires Core(w) && OthersSettled(w, i) && i < |w.streams| && Live(w, i) && w.streams[i].kind.Depth?
    ensures Inv(AddUser(w, i).(inflight := w.inflight + multiset{i}))
  {
    hide RegOk, RoutesOk, HandlesOk, IbOk, StreamOk, Settled, OthersSettled;
    var w1 := w.(inflight := w.inflight + multiset{i});
    var s := Watched(w.streams[i]);
    InflightKeepsHandles(w, w1.inflight);
    Apart(w, w1);
    SnapshotKeepsStream(w, i);
    SnapshotKeepsOthers(w, i);
    SetKeepsInv(w1, i, s);
    ListsKeep(w1, SetStream(w1, i, s));
    IbApart(w1, SetStream(w1, i, s));
  }

  /** Arming the idle timer of a registered depth stream without users. */
  lemma ArmKeeps(w: Ledger, i: nat)
    requires Core(w) && OthersSettled(w, i) && i < |w.streams| && Live(w, i)
    requires w.streams[i].kind.Depth? && w.streams[i].refs <= 0
    ensures Inv(SetStream(w, i, w.streams[i].(timer := true)))
  {
    hide RegOk, RoutesOk, HandlesOk, IbOk, StreamOk, Settled;
    var v := SetStream(w, i, w.streams[i].(timer := true));
    ListsKeep(w, v);
    IbApart(w, v);
    ArmedOk(w, i);
    SetKeepsInv(w, i, v.streams[i]);
  }

  lemma ArmedOk(w: Ledger, i: nat)
    requires i < |w.streams| && StreamOk(w, i) && Live(w, i) && w.streams[i].kind.Depth? && w.streams[i].refs <= 0
    ensures var v := SetStream(w, i, w.streams[i].(timer := true)); StreamOk(v, i) && Settled(v, i)
  {
  }

  /** A user that is no longer counted as one gives its reference back. */
  lemma ReleaseKeeps(w: Ledger, i: nat, env: Env)
    requires i < |w.streams| && !w.streams[i].kind.L1? && !w.streams[i].timer
    requires Core(SetStream(w, i, w.streams[i].(refs := w.streams[i].refs - 1)))
    requires OthersSettled(SetStream(w, i, w.streams[i].(refs := w.streams[i].refs - 1)), i)
    ensures Inv(Release(w, i, env))
  {
    hide RegOk, HandlesOk, RoutesOk, IbOk, StreamOk;
    var w1 := SetStream(w, i, w.streams[i].(refs := w.streams[i].refs - 1));
    if !Live(w1, i) || w1.streams[i].refs > 0 {
      assert Release(w, i, env) == w1;
    } else if w1.streams[i].kind.Trades? || !env.loop {
      DropKeeps(w1, i, env.cancelRaises);
    } else {
      ArmKeeps(w1, i);
    }
  }

  // ---- leaving ------------------------------------------------------------------------------

  lemma UsedStream(w: Ledger, i: nat)
    requires i < |w.streams| && StreamOk(w, i) && Settled(w, i)
    requires w.streams[i].subscribers != [] || w.inflight[i] > 0
    ensures !w.streams[i].kind.L1? && !w.streams[i].timer && w.streams[i].refs > 0
  {
  }

  /** The stream once one of its subscribers has left. */
  function Left(s: Stream, h: nat): Stream { s.(subscribers := Remove(s.subscribers, h), refs := s.refs - 1) }

  lemma LeftOk(w: Ledger, i: nat, h: nat)
    requires i < |w.streams| && StreamOk(w, i) && h in w.streams[i].subscribers && !w.streams[i].kind.L1?
    ensures StreamOk(SetStream(w, i, Left(w.streams[i], h)), i)
  {
    RemoveOne(w.streams[i].subscribers, h);
  }

  lemma OpenIsListed(w: Ledger, h: nat)
    requires HandlesOk(w) && h < |w.handles| && !w.handles[h].closed
    ensures w.handles[h].stream < |w.streams| && h in w.streams[w.handles[h].stream].subscribers
    ensures w.handles[h].error.None? && w.handles[h].calls == 0
  {
  }

  lemma LeftKeepsHandles(w: Ledger, h: nat, s: Stream, hd: Handle)
    requires HandlesOk(w) && h < |w.handles| && hd.closed && hd.stream == w.handles[h].stream
    requires hd.calls == (if hd.error.Some? && hd.wantsError then 1 else 0)
    requires NoDup(w.streams[hd.stream].subscribers)
    requires s.subscribers == Remove(w.streams[hd.stream].subscribers, h)
    ensures HandlesOk(SetStream(w, hd.stream, s).(handles := w.handles[h := hd]))
  {
    var v := SetStream(w, hd.stream, s).(handles := w.handles[h := hd]);
    RemoveOne(w.streams[hd.stream].subscribers, h);
    forall j | 0 <= j < |v.streams| ensures Listed(v, j) {
      assert Listed(w, j);
    }
  }

  lemma LeftKeepsOthers(w: Ledger, i: nat, s: Stream)
    requires Inv(w) && i < |w.streams|
    requires s.kind == w.streams[i].kind && s.reqId == w.streams[i].reqId && s.contract == w.streams[i].contract
    requires StreamOk(SetStream(w, i, s), i)
    ensures var u := SetStream(w, i, s);
      RegOk(u) && RoutesOk(u) && IbOk(u) && OthersSettled(u, i) && forall j :: 0 <= j < |w.streams| ==> StreamOk(u, j)
  {
    hide RegOk, RoutesOk, HandlesOk, IbOk, StreamOk, Settled;
    var u := SetStream(w, i, s);
    SetKeeps(w, i, s);
    IbApart(w, u);
    forall j | 0 <= j < |w.streams| && j != i ensures StreamOk(u, j) && Settled(u, j) {
      assert StreamOk(w, j) && Settled(w, j);
    }
  }

  lemma CloseKeeps(w: Ledger, h: nat, env: Env)
    requires Inv(w) && Wired(w) && h < |w.handles|
    ensures Inv(Close(w, h, env))
  {
    hide RegOk, RoutesOk, HandlesOk, IbOk, StreamOk, Settled, Release;
    if !w.handles[h].closed {
      OpenIsListed(w, h);
      var hd := w.handles[h].(closed := true);
      var i := hd.stream;
      var s := w.streams[i];
      assert StreamOk(w, i) && Settled(w, i);
      CloseKeepsCore(w, h);
      UsedStream(w, i);
      var w2 := SetStream(w.(handles := w.handles[h := hd]), i, s.(subscribers := Remove(s.subscribers, h)));
      UpdateTwice(w.streams, i, w2.streams[i], Left(s, h));
      ReleaseKeeps(w2, i, env);
    }
  }

  lemma CloseKeepsCore(w: Ledger, h: nat)
    requires Inv(w) && h < |w.handles| && !w.handles[h].closed && w.handles[h].stream < |w.streams|
    ensures var i := w.handles[h].stream;
      var u := SetStream(w, i, Left(w.streams[i], h)).(handles := w.handles[h := w.handles[h].(closed := true)]);
      Core(u) && OthersSettled(u, i)
  {
    hide RegOk, RoutesOk, HandlesOk, IbOk, StreamOk, Settled;
    OpenIsListed(w, h);
    var hd := w.handles[h].(closed := true);
    var i := hd.stream;
    var s := w.streams[i];
    assert StreamOk(w, i) && Settled(w, i);
    UsedStream(w, i);
    LeftOk(w, i, h);
    LeftKeepsOthers(w, i, Left(s, h));
    NoDupSubscribers(w, i);
    LeftKeepsHandles(w, h, Left(s, h), hd);
    var u := SetStream(w, i, Left(s, h));
    Apart(u, u.(handles := w.handles[h := hd]));
  }

  lemma NoDupSubscribers(w: Ledger, i: nat)
    requires i < |w.streams| && StreamOk(w, i)
    ensures NoDup(w.streams[i].subscribers)
  {
  }

  // ---- failing ------------------------------------------------------------------------------

  /** A handle whose subscriber has been told that IB failed its stream. */
  function Told(hd: Handle, code: int): Handle {
    hd.(closed := true, error := Some(code), calls := hd.calls + if hd.wantsError then 1 else 0)
  }

  function Tell(handles: seq<Handle>, hs: seq<nat>, code: int): (r: seq<Handle>)
    requires forall k :: 0 <= k < |hs| ==> hs[k] < |handles|
    ensures |r| == |handles|
    decreases |hs|
  {
    if hs == [] then handles else Tell(handles[hs[0] := Told(handles[hs[0]], code)], hs[1..], code)
  }

  lemma {:induction false} TellExact(handles: seq<Handle>, hs: seq<nat>, code: int)
    requires NoDup(hs) && forall k :: 0 <= k < |hs| ==> hs[k] < |handles|
    ensures forall h: nat :: h < |handles| ==>
      Tell(handles, hs, code)[h] == if h in hs then Told(handles[h], code) else handles[h]
    decreases |hs|
  {
    if hs != [] {
      var handles1 := handles[hs[0] := Told(handles[hs[0]], code)];
      TellExact(handles1, hs[1..], code);
      forall h: nat | h < |handles|
        ensures Tell(handles, hs, code)[h] == if h in hs then Told(handles[h], code) else handles[h]
      {
        assert h in hs <==> h == hs[0] || h in hs[1..];
        assert hs[0] !in hs[1..] by { forall k | 0 <= k < |hs[1..]| ensures hs[1..][k] != hs[0] { assert hs[1..][k] == hs[k + 1]; } }
      }
    }
  }

  /** A dropped stream whose subscriber list was cleared, with these handles still to tell. */
  ghost predicate Cleared(w: Ledger, i: nat, hs: seq<nat>) {
    && Wired(w) && Known(w, hs) && i < |w.streams| && !Live(w, i) && w.streams[i].subscribers == []
    && !w.streams[i].kind.L1? && NoDup(hs)
    && forall k :: 0 <= k < |hs| ==> w.handles[hs[k]].stream == i && !w.handles[hs[k]].closed
  }

  /** One subscriber of a dropped stream told: its handle is closed, its reference is given back. */
  function Heard(w: Ledger, i: nat, h: nat, code: int): Ledger
    requires i < |w.streams| && h < |w.handles|
  {
    SetStream(w, i, w.streams[i].(refs := w.streams[i].refs - 1)).(handles := w.handles[h := Told(w.handles[h], code)])
  }

  lemma NotifyIs(w: Ledger, i: nat, h: nat, code: int, env: Env)
    requires h < |w.handles| && Cleared(w, i, [h])
    ensures Notify(w, h, code, env) == Heard(w, i, h, code)
  {
    var s := w.streams[i];
    assert [h][0] == h;
    var hd := w.handles[h];
    var hd1 := hd.(error := Some(code));
    var hd2 := hd1.(closed := true);
    var w1 := w.(handles := w.handles[h := hd1]);
    UpdateTwice(w.handles, h, hd1, hd2);
    UpdateTwice(w.handles, h, hd2, Told(hd, code));
    var w2 := w.(handles := w.handles[h := hd2]);
    assert SetStream(w2, i, s).streams == w2.streams;
    assert Close(w1, h, env) == Release(w2, i, env);
  }

  lemma ClearedNext(w: Ledger, i: nat, hs: seq<nat>, code: int)
    requires hs != [] && Cleared(w, i, hs)
    ensures hs[0] < |w.handles| && Cleared(w, i, [hs[0]]) && Cleared(Heard(w, i, hs[0], code), i, hs[1..])
  {
    var w1 := Heard(w, i, hs[0], code);
    forall k | 0 <= k < |hs[1..]| ensures w1.handles[hs[1..][k]].stream == i && !w1.handles[hs[1..][k]].closed {
      assert hs[1..][k] == hs[k + 1] && hs[k + 1] != hs[0];
    }
  }

  lemma {:induction false} NotifyAllIs(w: Ledger, i: nat, hs: seq<nat>, code: int, env: Env)
    requires Cleared(w, i, hs)
    ensures NotifyAll(w, hs, code, env)
            == SetStream(w, i, w.streams[i].(refs := w.streams[i].refs - |hs|)).(handles := Tell(w.handles, hs, code))
    decreases |hs|
  {
    hide Notify;
    var s := w.streams[i];
    if hs == [] {
      assert w.streams[i := s.(refs := s.refs - 0)] == w.streams;
    } else {
      ClearedNext(w, i, hs, code);
      NotifyIs(w, i, hs[0], code, env);
      NotifyAllIs(Heard(w, i, hs[0], code), i, hs[1..], code, env);
      UpdateTwice(w.streams, i, s.(refs := s.refs - 1), s.(refs := s.refs - |hs|));
    }
  }

  /** A dropped stream all of whose subscribers have been told. */
  function Failed(w: Ledger, i: nat, code: int): Ledger
    requires i < |w.streams| && Known(w, w.streams[i].subscribers)
  {
    var s := w.streams[i];
    SetStream(w, i, s.(subscribers := [], refs := s.refs - |s.subscribers|))
      .(handles := Tell(w.handles, s.subscribers, code))
  }

  lemma FailIsFailed(w: Ledger, i: nat, code: int, env: Env)
    requires HandlesOk(w) && i < |w.streams| && StreamOk(w, i) && !Live(w, i) && Wired(w)
    ensures Known(w, w.streams[i].subscribers)
    ensures FailSubscribers(w, i, w.streams[i].subscribers, code, env) == Failed(w, i, code)
  {
    var s := w.streams[i];
    assert Listed(w, i);
    forall k | 0 <= k < |s.subscribers|
      ensures var h := s.subscribers[k]; h < |w.handles| && w.handles[h].stream == i && !w.handles[h].closed
    {
      assert s.subscribers[k] in s.subscribers;
    }
    var w1 := SetStream(w, i, s.(subscribers := []));
    if s.kind.L1? {
      assert s.subscribers == [] && s.refs == 0;
      assert w1.streams == Failed(w, i, code).streams;
    } else {
      assert Cleared(w1, i, s.subscribers);
      NotifyAllIs(w1, i, s.subscribers, code, env);
      UpdateTwice(w.streams, i, s.(subscribers := []), s.(subscribers := [], refs := s.refs - |s.subscribers|));
    }
  }

  lemma FailedKeepsHandles(w: Ledger, i: nat, code: int)
    requires HandlesOk(w) && i < |w.streams| && NoDup(w.streams[i].subscribers) && Known(w, w.streams[i].subscribers)
    ensures HandlesOk(Failed(w, i, code))
  {
    var v := Failed(w, i, code);
    TellExact(w.handles, w.streams[i].subscribers, code);
    assert Listed(w, i);
    forall j | 0 <= j < |v.streams| ensures Listed(v, j) {
      assert Listed(w, j);
    }
  }

  lemma FailedStreamOk(w: Ledger, i: nat)
    requires i < |w.streams| && StreamOk(w, i) && !Live(w, i)
    ensures var s := w.streams[i];
      var u := SetStream(w, i, s.(subscribers := [], refs := s.refs - |s.subscribers|));
      StreamOk(u, i) && Settled(u, i)
  {
  }

  lemma FailedKeeps(w: Ledger, i: nat, code: int, env: Env)
    requires Inv(w) && i < |w.streams| && !Live(w, i) && Wired(w)
    ensures Known(w, w.streams[i].subscribers)
    ensures FailSubscribers(w, i, w.streams[i].subscribers, code, env) == Failed(w, i, code)
    ensures Inv(Failed(w, i, code))
  {
    hide RegOk, RoutesOk, HandlesOk, IbOk, StreamOk, Settled, FailSubscribers, Live;
    assert StreamOk(w, i);
    FailIsFailed(w, i, code, env);
    NoDupSubscribers(w, i);
    FailedKeepsHandles(w, i, code);
    FailedStreamOk(w, i);
    var s := w.streams[i];
    var s1 := s.(subscribers := [], refs := s.refs - |s.subscribers|);
    var u := SetStream(w, i, s1);
    assert u.(handles := Tell(w.handles, s.subscribers, code)) == Failed(w, i, code);
    SetKeepsInv(w, i, s1);
    IbApart(w, u);
    Apart(u, u.(handles := Tell(w.handles, s.subscribers, code)));
  }

  // ---- timers, snapshots, errors ------------------------------------------------------------

  lemma StopTimerKeeps(w: Ledger, i: nat)
    requires Inv(w) && i < |w.streams|
    ensures var w1 := SetStream(w, i, w.streams[i].(timer := false));
      Core(w1) && OthersSettled(w1, i) && (Live(w1, i) <==> Live(w, i))
  {
    hide RegOk, RoutesOk, HandlesOk, IbOk, StreamOk, Settled;
    var s := w.streams[i].(timer := false);
    assert StreamOk(w, i);
    StopTimerOk(w, i);
    LeftKeepsOthers(w, i, s);
    ListsKeep(w, SetStream(w, i, s));
    SetKeeps(w, i, s);
  }

  lemma StopTimerOk(w: Ledger, i: nat)
    requires i < |w.streams| && StreamOk(w, i)
    ensures StreamOk(SetStream(w, i, w.streams[i].(timer := false)), i)
  {
  }

  /** The idle timer only ever fires on a registered stream without users, and ends it. */
  lemma IdleExpiredKeeps(w: Ledger, i: nat, env: Env)
    requires Inv(w) && i < |w.streams| && w.streams[i].timer
    ensures Live(w, i) && w.streams[i].refs == 0
    ensures Inv(IdleExpired(w, i, env)) && !Live(IdleExpired(w, i, env), i)
  {
    hide RegOk, RoutesOk, HandlesOk, IbOk;
    assert StreamOk(w, i) && Settled(w, i);
    StopTimerKeeps(w, i);
    DropKeeps(SetStream(w, i, w.streams[i].(timer := false)), i, env.cancelRaises);
  }

  lemma TimedOutKeeps(w: Ledger, i: nat, env: Env)
    requires Inv(w) && i < |w.streams| && !w.streams[i].kind.Trades?
    ensures Inv(TimedOut(w, i, env))
    ensures TimedOut(w, i, env).inflight == w.inflight
  {
    hide RegOk, RoutesOk, HandlesOk, IbOk, StreamOk, Settled;
    if Live(w, i) {
      assert StreamOk(w, i);
      DropKeeps(w, i, env.cancelRaises);
      DropIsDropped(w, i, env.cancelRaises);
    }
  }

  lemma UnwatchedOk(w: Ledger, i: nat)
    requires i < |w.streams| && StreamOk(w, i) && w.inflight[i] > 0
    ensures StreamOk(SetStream(w.(inflight := w.inflight - multiset{i}), i, w.streams[i].(refs := w.streams[i].refs - 1)), i)
  {
  }

  /** A snapshot that ends, however it ends, gives its reference back. */
  lemma SnapshotEndKeeps(w: Ledger, i: nat, timedOut: bool, env: Env)
    requires Inv(w) && i < |w.streams| && w.inflight[i] > 0
    ensures Inv(SnapshotEnd(w, i, timedOut, env))
  {
    hide RegOk, RoutesOk, HandlesOk, IbOk, StreamOk, Settled, Release, TimedOut;
    assert StreamOk(w, i);
    OnlyDepthWatched(w, i);
    TimedOutKeeps(w, i, env);
    var w1 := if timedOut then TimedOut(w, i, env) else w;
    UnwatchKeeps(w1, i);
    assert StreamOk(w1, i) && Settled(w1, i);
    UsedStream(w1, i);
    ReleaseKeeps(w1.(inflight := w1.inflight - multiset{i}), i, env);
  }

  lemma OnlyDepthWatched(w: Ledger, i: nat)
    requires i < |w.streams| && StreamOk(w, i) && w.inflight[i] > 0
    ensures w.streams[i].kind.Depth?
  {
  }

  lemma UnwatchKeeps(w: Ledger, i: nat)
    requires Inv(w) && i < |w.streams| && w.inflight[i] > 0
    ensures var w1 := w.(inflight := w.inflight - multiset{i});
      var u := SetStream(w1, i, w.streams[i].(refs := w.streams[i].refs - 1));
      Core(u) && OthersSettled(u, i)
  {
    hide RegOk, RoutesOk, HandlesOk, IbOk, StreamOk, Settled;
    var w1 := w.(inflight := w.inflight - multiset{i});
    var s := w.streams[i].(refs := w.streams[i].refs - 1);
    var u := SetStream(w1, i, s);
    InflightKeepsHandles(w, w1.inflight);
    Apart(w, w1);
    assert StreamOk(w, i);
    UnwatchedOk(w, i);
    SetKeeps(w1, i, s);
    ListsKeep(w1, u);
    IbApart(w, u);
    forall j | 0 <= j < |w.streams| && j != i ensures StreamOk(u, j) && Settled(u, j) {
      assert StreamOk(w, j) && Settled(w, j);
      assert StreamOk(w1, j) && Settled(w1, j);
    }
  }

  /** The invariant's part about handles gives every transition its precondition. */
  lemma InvWired(w: Ledger)
    requires HandlesOk(w)
    ensures Wired(w) && forall i :: 0 <= i < |w.streams| ==> Known(w, w.streams[i].subscribers)
  {
    forall i | 0 <= i < |w.streams| ensures Known(w, w.streams[i].subscribers) {
      assert Listed(w, i);
      forall k | 0 <= k < |w.streams[i].subscribers| ensures w.streams[i].subscribers[k] < |w.handles| {
        assert w.streams[i].subscribers[k] in w.streams[i].subscribers;
      }
    }
  }

  /** A failing code on a routed reqId: the stream is dropped, then all of its subscribers are told. */
  lemma StreamErrorFails(w: Ledger, reqId: int, code: int, env: Env)
    requires Inv(w) && RouteOf(w, reqId).Some? && FailsStream(code)
    ensures var i := RouteOf(w, reqId).value;
      && Wired(w) && i < |w.streams| && Live(w, i) && Known(w, w.streams[i].subscribers)
      && StreamError(w, reqId, code, env) == Failed(Dropped(w, i, env.cancelRaises), i, code)
      && Inv(StreamError(w, reqId, code, env))
  {
    hide RegOk, RoutesOk, HandlesOk, IbOk, StreamOk, Settled, FailSubscribers, Failed;
    InvWired(w);
    RouteIsLive(w, reqId);
    var i := RouteOf(w, reqId).value;
    var v := Drop(w, i, env.cancelRaises);
    assert StreamOk(w, i);
    DropIsDropped(w, i, env.cancelRaises);
    DropKeeps(w, i, env.cancelRaises);
    DropSettled(w, i, env.cancelRaises);
    InvWired(v);
    FailedKeeps(v, i, code, env);
  }

  lemma DropSettled(w: Ledger, i: nat, raises: bool)
    requires Inv(w) && i < |w.streams| && Live(w, i)
    ensures Inv(Drop(w, i, raises))
  {
    hide RegOk, RoutesOk, HandlesOk, IbOk, StreamOk, Settled, Drop;
    DropKeeps(w, i, raises);
    var v := Drop(w, i, raises);
    forall j | 0 <= j < |v.streams| ensures Settled(v, j) { assert Settled(w, j); }
  }

  lemma RouteIsLive(w: Ledger, reqId: int)
    requires RoutesOk(w) && RouteOf(w, reqId).Some?
    requires forall j :: 0 <= j < |w.streams| ==> StreamOk(w, j)
    ensures var i := RouteOf(w, reqId).value;
      && i < |w.streams| && Live(w, i) && w.streams[i].reqId == Some(reqId)
      && (w.streams[i].kind.Trades? <==> reqId in w.tradeRoutes)
  {
    var i := RouteOf(w, reqId).value;
    assert StreamOk(w, i);
  }

  lemma StreamErrorKeeps(w: Ledger, reqId: int, code: int, env: Env)
    requires Inv(w)
    ensures Wired(w) && (RouteOf(w, reqId).Some? ==>
      RouteOf(w, reqId).value < |w.streams| && Known(w, w.streams[RouteOf(w, reqId).value].subscribers))
    ensures Inv(StreamError(w, reqId, code, env))
  {
    hide RegOk, RoutesOk, HandlesOk, IbOk, StreamOk, Settled, FailPersistent, FailTrades;
    InvWired(w);
    if RouteOf(w, reqId).Some? {
      RouteIsLive(w, reqId);
      if FailsStream(code) {
        StreamErrorFails(w, reqId, code, env);
      } else {
        WarnKeeps(w, RouteOf(w, reqId).value, code);
        WarnOrIgnore(w, reqId, code, env);
      }
    }
  }

  lemma WarnOrIgnore(w: Ledger, reqId: int, code: int, env: Env)
    requires Wired(w) && RouteOf(w, reqId).Some? && !FailsStream(code)
    requires RouteOf(w, reqId).value < |w.streams| && Known(w, w.streams[RouteOf(w, reqId).value].subscribers)
    ensures var i := RouteOf(w, reqId).value; var v := StreamError(w, reqId, code, env);
      v == w || v == SetStream(w, i, w.streams[i].(warning := Some(code)))
  {
  }

  lemma WarnKeeps(w: Ledger, i: nat, code: int)
    requires Inv(w) && i < |w.streams|
    ensures Inv(SetStream(w, i, w.streams[i].(warning := Some(code))))
  {
    hide RegOk, RoutesOk, HandlesOk, IbOk, StreamOk, Settled;
    var s := w.streams[i].(warning := Some(code));
    assert StreamOk(w, i) && Settled(w, i);
    WarnOk(w, i, code);
    SetKeepsInv(w, i, s);
    ListsKeep(w, SetStream(w, i, s));
    IbApart(w, SetStream(w, i, s));
  }

  lemma WarnOk(w: Ledger, i: nat, code: int)
    requires i < |w.streams| && StreamOk(w, i) && Settled(w, i)
    ensures var v := SetStream(w, i, w.streams[i].(warning := Some(code))); StreamOk(v, i) && Settled(v, i)
  {
  }

  // ---- resubscribing ------------------------------------------------------------------------

  /** Whether a stream's move to a new request gets as far as that request. */
  predicate Moves(cancelOld: bool, m: Move) { !(cancelOld && m.cancelRaises) && m.answer.Sent? }

  /** The state after a completed move, read off in one piece. */
  function Replaced(w: Ledger, i: nat, cancel: bool, reqId: Option<nat>): Ledger
    requires i < |w.streams|
  {
    var s := w.streams[i];
    w.(streams := w.streams[i := s.(hooked := true, reqId := reqId,
                                    warning := if s.kind.Trades? then s.warning else None)],
       routes := if s.kind.Trades? then w.routes else Remember(Forget(w.routes, s.reqId), reqId, i),
       tradeRoutes := if s.kind.Trades? then Remember(Forget(w.tradeRoutes, s.reqId), reqId, i) else w.tradeRoutes,
       open := (if cancel then w.open - multiset{s.At()} else w.open) + multiset{s.At()})
  }

  lemma RequestIsReplaced(w: Ledger, i: nat, cancel: bool, reqId: Option<nat>)
    requires i < |w.streams|
    ensures Request(Withdraw(w, i, cancel), i, reqId) == Replaced(w, i, cancel, reqId)
  {
    UpdateTwice(w.streams, i, Withdraw(w, i, cancel).streams[i], Replaced(w, i, cancel, reqId).streams[i]);
  }

  /** The state after one stream's move, completed or not. */
  function Moved(w: Ledger, i: nat, cancelOld: bool, m: Move): Ledger
    requires i < |w.streams|
  {
    if Moves(cancelOld, m) then Replaced(w, i, cancelOld, m.answer.reqId)
    else var w1 := Withdraw(w, i, cancelOld && !m.cancelRaises); w1.(faults := w1.faults + 1)
  }

  lemma ResubscribeIsMoved(w: Ledger, i: nat, cancelOld: bool, m: Move)
    requires i < |w.streams|
    ensures Resubscribe(w, i, cancelOld, m) == Moved(w, i, cancelOld, m)
  {
    if Moves(cancelOld, m) { RequestIsReplaced(w, i, cancelOld, m.answer.reqId); }
  }

  /** The reqId maps stay exact when a stream gives up its request. */
  lemma WithdrawKeepsRoutes(w: Ledger, i: nat, cancel: bool)
    requires RoutesOk(w) && i < |w.streams|
    ensures RoutesOk(Withdraw(w, i, cancel))
  {
    var v := Withdraw(w, i, cancel);
    if w.streams[i].reqId.Some? { assert Routed(w, i); }
    forall j | 0 <= j < |v.streams| && v.streams[j].reqId.Some? ensures Routed(v, j) {
      assert Routed(w, j);
    }
  }

  /** ... and when it gets a new one under an id that routes to no other stream. */
  lemma RequestKeepsRoutes(w: Ledger, i: nat, reqId: Option<nat>)
    requires RoutesOk(w) && i < |w.streams| && w.streams[i].reqId.None? && Fresh(w, Sent(reqId))
    ensures RoutesOk(Request(w, i, reqId))
  {
    var v := Request(w, i, reqId);
    forall j | 0 <= j < |v.streams| && v.streams[j].reqId.Some? ensures Routed(v, j) {
      if j != i { assert Routed(w, j); }
    }
  }

  /** Which request a registered stream runs on matters to no other part of the stream invariant. */
  lemma RehookKeeps(w: Ledger, v: Ledger, i: nat)
    requires RegOk(w) && i < |w.streams| && Live(w, i)
    requires forall j :: 0 <= j < |w.streams| ==> StreamOk(w, j) && Settled(w, j)
    requires v.reg == w.reg && v.lines == w.lines && v.cap == w.cap && v.inflight == w.inflight
    requires |v.streams| == |w.streams|
    requires v.streams == w.streams[i := w.streams[i].(hooked := v.streams[i].hooked, reqId := v.streams[i].reqId,
                                                       warning := v.streams[i].warning)]
    ensures RegOk(v)
    ensures forall j :: 0 <= j < |w.streams| ==> StreamOk(v, j) && Settled(v, j) && (Live(v, j) <==> Live(w, j))
  {
    forall j | 0 <= j < |v.streams| ensures StreamOk(v, j) && Settled(v, j) && (Live(v, j) <==> Live(w, j)) {
      assert StreamOk(w, j) && Settled(w, j);
    }
  }

  /** Registered streams that have still to move. */
  ghost predicate Pending(w: Ledger, ids: seq<nat>) {
    && (forall k :: 0 <= k < |ids| ==> ids[k] < |w.streams| && Live(w, ids[k]))
    && NoDup(ids)
  }

  ghost predicate Awaits(w: Ledger, ids: seq<nat>, slot: Slot)
    requires forall k :: 0 <= k < |ids| ==> ids[k] < |w.streams|
  {
    exists k :: 0 <= k < |ids| && w.streams[ids[k]].At() == slot
  }

  /** IB's side in the middle of a resubscribe: what is still to move is streamed at most once. */
  ghost predicate IbMoving(w: Ledger, ids: seq<nat>, cancelOld: bool)
    requires forall k :: 0 <= k < |ids| ==> ids[k] < |w.streams|
  {
    && (forall slot :: w.open[slot] <= Count(slot in w.reg) + w.leaked[slot])
    && (!cancelOld ==> forall slot :: Awaits(w, ids, slot) ==> w.open[slot] <= w.leaked[slot])
    && (w.faults == 0 ==> forall slot ::
          if Awaits(w, ids, slot) then w.open[slot] <= 1 && (!cancelOld ==> w.open[slot] == 0)
          else w.open[slot] == Count(slot in w.reg))
  }

  lemma MovedPending(w: Ledger, ids: seq<nat>, cancelOld: bool, m: Move)
    requires ids != [] && Pending(w, ids)
    ensures Pending(Moved(w, ids[0], cancelOld, m), ids[1..])
  {
    var v := Moved(w, ids[0], cancelOld, m);
    forall k | 0 <= k < |ids[1..]| ensures ids[1..][k] < |v.streams| && Live(v, ids[1..][k]) {
      assert ids[1..][k] == ids[k + 1];
    }
  }

  lemma MovedAwaits(w: Ledger, ids: seq<nat>, cancelOld: bool, m: Move)
    requires ids != [] && Pending(w, ids) && Pending(Moved(w, ids[0], cancelOld, m), ids[1..])
    ensures forall slot :: Awaits(Moved(w, ids[0], cancelOld, m), ids[1..], slot)
                           <==> Awaits(w, ids, slot) && slot != w.streams[ids[0]].At()
    ensures Awaits(w, ids, w.streams[ids[0]].At())
  {
    var v := Moved(w, ids[0], cancelOld, m);
    forall slot ensures Awaits(v, ids[1..], slot) <==> Awaits(w, ids, slot) && slot != w.streams[ids[0]].At() {
      if Awaits(v, ids[1..], slot) {
        var k :| 0 <= k < |ids[1..]| && v.streams[ids[1..][k]].At() == slot;
        assert ids[1..][k] == ids[k + 1] && w.streams[ids[k + 1]].At() == slot;
        assert ids[k + 1] != ids[0] && Live(w, ids[k + 1]) && Live(w, ids[0]);
      }
      if Awaits(w, ids, slot) && slot != w.streams[ids[0]].At() {
        var k :| 0 <= k < |ids| && w.streams[ids[k]].At() == slot;
        assert ids[1..][k - 1] == ids[k] && v.streams[ids[k]].At() == slot;
      }
    }
  }

  lemma MovedIb(w: Ledger, ids: seq<nat>, cancelOld: bool, m: Move)
    requires ids != [] && Pending(w, ids) && IbMoving(w, ids, cancelOld)
    ensures var v := Moved(w, ids[0], cancelOld, m); Pending(v, ids[1..]) && IbMoving(v, ids[1..], cancelOld)
  {
    hide Awaits;
    MovedPending(w, ids, cancelOld, m);
    MovedAwaits(w, ids, cancelOld, m);
  }

  /** IB's answers to a whole resubscribe are fresh, each at its turn. */
  predicate FreshMoves(w: Ledger, ids: seq<nat>, cancelOld: bool, moves: nat -> Move)
    requires forall k :: 0 <= k < |ids| ==> ids[k] < |w.streams|
    decreases |ids|
  {
    ids == [] ||
    (&& Fresh(Withdraw(w, ids[0], false), moves(ids[0]).answer)
     && FreshMoves(Resubscribe(w, ids[0], cancelOld, moves(ids[0])), ids[1..], cancelOld, moves))
  }

  /** The invariant but for IB's side, which a resubscribe rebuilds. */
  ghost predicate Local(w: Ledger) {
    Shape(w) && forall i :: 0 <= i < |w.streams| ==> Settled(w, i)
  }

  /** What a resubscribe never touches. */
  predicate SameBut(w: Ledger, v: Ledger) {
    && v.reg == w.reg && v.lines == w.lines && v.cap == w.cap && v.handles == w.handles && v.inflight == w.inflight
    && |v.streams| == |w.streams|
    && forall j :: 0 <= j < |w.streams| ==>
         v.streams[j] == w.streams[j].(hooked := v.streams[j].hooked, reqId := v.streams[j].reqId,
                                       warning := v.streams[j].warning)
  }

  lemma ResubscribeKeepsRoutes(w: Ledger, i: nat, cancelOld: bool, m: Move)
    requires RoutesOk(w) && i < |w.streams| && Fresh(Withdraw(w, i, false), m.answer)
    ensures RoutesOk(Resubscribe(w, i, cancelOld, m))
  {
    hide RoutesOk;
    var cancel := cancelOld && !m.cancelRaises;
    var w1 := Withdraw(w, i, cancel);
    WithdrawKeepsRoutes(w, i, cancel);
    if Moves(cancelOld, m) { RequestKeepsRoutes(w1, i, m.answer.reqId); }
    else { RoutesApart(w1, w1.(faults := w1.faults + 1)); }
  }

  lemma ResubscribeKeepsLocal(w: Ledger, i: nat, cancelOld: bool, m: Move)
    requires Local(w) && i < |w.streams| && Live(w, i) && Fresh(Withdraw(w, i, false), m.answer)
    ensures Local(Resubscribe(w, i, cancelOld, m)) && SameBut(w, Resubscribe(w, i, cancelOld, m))
  {
    hide RegOk, RoutesOk, HandlesOk, IbOk, StreamOk, Settled;
    var v := Resubscribe(w, i, cancelOld, m);
    ResubscribeKeepsRoutes(w, i, cancelOld, m);
    ResubscribeIsMoved(w, i, cancelOld, m);
    RehookKeeps(w, v, i);
    ListsKeep(w, v);
  }

  lemma {:induction false} ResubscribeEachKeeps(w: Ledger, ids: seq<nat>, cancelOld: bool, moves: nat -> Move)
    requires Local(w) && Pending(w, ids) && IbMoving(w, ids, cancelOld) && FreshMoves(w, ids, cancelOld, moves)
    ensures Inv(ResubscribeEach(w, ids, cancelOld, moves)) && SameBut(w, ResubscribeEach(w, ids, cancelOld, moves))
    decreases |ids|
  {
    hide RegOk, RoutesOk, HandlesOk, StreamOk, Settled, Resubscribe;
    if ids != [] {
      ResubscribeKeepsLocal(w, ids[0], cancelOld, moves(ids[0]));
      ResubscribeIsMoved(w, ids[0], cancelOld, moves(ids[0]));
      MovedIb(w, ids, cancelOld, moves(ids[0]));
      ResubscribeEachKeeps(Resubscribe(w, ids[0], cancelOld, moves(ids[0])), ids[1..], cancelOld, moves);
    }
  }

  // ---- all streams at once ------------------------------------------------------------------

  lemma {:induction false} RegisteredNoDup(w: Ledger, kind: Kind, n: nat)
    requires n <= |w.streams|
    ensures NoDup(Registered(w, kind, n))
  {
    if n > 0 {
      RegisteredNoDup(w, kind, n - 1);
      var ids := Registered(w, kind, n - 1);
      forall k | 0 <= k < |ids| ensures ids[k] != n - 1 { assert ids[k] in ids; }
    }
  }

  lemma InOrderPending(w: Ledger, a: Kind, b: Kind, c: Kind)
    requires a != b && b != c && a != c
    ensures Pending(w, InOrder(w, a, b, c))
  {
    var n := |w.streams|;
    var A, B, C := Registered(w, a, n), Registered(w, b, n), Registered(w, c, n);
    RegisteredNoDup(w, a, n);
    RegisteredNoDup(w, b, n);
    RegisteredNoDup(w, c, n);
    DisjointNoDup(A, B);
    DisjointNoDup(A + B, C);
    var ids := InOrder(w, a, b, c);
    forall k | 0 <= k < |ids| ensures ids[k] < |w.streams| && Live(w, ids[k]) { assert ids[k] in ids; }
  }

  lemma DisjointNoDup(s: seq<nat>, t: seq<nat>)
    requires NoDup(s) && NoDup(t) && forall x :: x in s ==> x !in t
    ensures NoDup(s + t)
  {
    forall i, j | 0 <= i < j < |s + t| ensures (s + t)[i] != (s + t)[j] {
      if i < |s| <= j { assert s[i] in s && t[j - |s|] in t; }
    }
  }

  lemma AllAwaited(w: Ledger, slot: Slot)
    requires RegOk(w)
    ensures Awaits(w, InOrder(w, Trades, L1, Depth), slot) <==> slot in w.reg
  {
    var ids := InOrder(w, Trades, L1, Depth);
    if slot in w.reg {
      assert w.reg[slot] in ids;
      var k :| 0 <= k < |ids| && ids[k] == w.reg[slot];
    }
    if Awaits(w, ids, slot) {
      var k :| 0 <= k < |ids| && w.streams[ids[k]].At() == slot;
      assert ids[k] in ids;
    }
  }

  function Emptied(w: Ledger, lost: bool): Ledger {
    if lost then w.(open := multiset{}, leaked := multiset{}, faults := 0) else w
  }

  lemma EmptiedKeeps(w: Ledger, lost: bool)
    requires Inv(w)
    ensures Local(Emptied(w, lost)) && InOrder(Emptied(w, lost), Trades, L1, Depth) == InOrder(w, Trades, L1, Depth)
  {
    hide IbOk;
    var v := Emptied(w, lost);
    RegisteredSame(w, v, Trades, |w.streams|);
    RegisteredSame(w, v, L1, |w.streams|);
    RegisteredSame(w, v, Depth, |w.streams|);
    EmptiedLocal(w, lost);
  }

  lemma EmptiedLocal(w: Ledger, lost: bool)
    requires Local(w)
    ensures Local(Emptied(w, lost))
  {
    hide RegOk, RoutesOk, HandlesOk, StreamOk, Settled;
    if lost {
      var v := Emptied(w, lost);
      ListsKeep(w, v);
      RegApart(w, v);
      RoutesApart(w, v);
      StreamsApart(w, v);
    }
  }

  lemma {:induction false} RegisteredSame(w: Ledger, v: Ledger, kind: Kind, n: nat)
    requires v.streams == w.streams && v.reg == w.reg && n <= |w.streams|
    ensures Registered(v, kind, n) == Registered(w, kind, n)
  {
    if n > 0 { RegisteredSame(w, v, kind, n - 1); }
  }

  lemma AllIbMoving(w: Ledger, cancelOld: bool, lost: bool)
    requires Inv(w) && (cancelOld || lost)
    ensures IbMoving(Emptied(w, lost), InOrder(Emptied(w, lost), Trades, L1, Depth), cancelOld)
  {
    hide RoutesOk, HandlesOk, StreamOk, Settled, Awaits;
    var v := Emptied(w, lost);
    forall slot ensures Awaits(v, InOrder(v, Trades, L1, Depth), slot) <==> slot in v.reg { AllAwaited(v, slot); }
  }

  predicate FreshAll(w: Ledger, cancelOld: bool, lost: bool, moves: nat -> Move) {
    FreshMoves(Emptied(w, lost), InOrder(w, Trades, L1, Depth), cancelOld, moves)
  }

  lemma ResubscribeAllKeeps(w: Ledger, cancelOld: bool, lost: bool, moves: nat -> Move)
    requires Inv(w) && (cancelOld || lost)
    requires forall k :: 0 <= k < |InOrder(w, Trades, L1, Depth)| ==> InOrder(w, Trades, L1, Depth)[k] < |Emptied(w, lost).streams|
    requires FreshAll(w, cancelOld, lost, moves)
    ensures Inv(ResubscribeAll(w, cancelOld, lost, moves)) && SameBut(w, ResubscribeAll(w, cancelOld, lost, moves))
  {
    hide RegOk, RoutesOk, HandlesOk, IbOk, StreamOk, Settled, IbMoving, FreshMoves, ResubscribeEach;
    var v := Emptied(w, lost);
    EmptiedKeeps(w, lost);
    AllIbMoving(w, cancelOld, lost);
    InOrderPending(v, Trades, L1, Depth);
    ResubscribeEachKeeps(v, InOrder(v, Trades, L1, Depth), cancelOld, moves);
  }

  lemma {:induction false} DropEachKeeps(w: Ledger, ids: seq<nat>, raises: nat -> bool)
    requires Inv(w) && Pending(w, ids)
    ensures var v := DropEach(w, ids, raises);
      Inv(v) && forall j :: 0 <= j < |w.streams| ==> (Live(v, j) <==> Live(w, j) && j !in ids)
    decreases |ids|
  {
    hide RegOk, RoutesOk, HandlesOk, IbOk, StreamOk, Settled, Live, DropTrades, DropPersistent;
    if ids != [] {
      var i := ids[0];
      var w1 := Drop(w, i, raises(i));
      DropSettled(w, i, raises(i));
      DropKeeps(w, i, raises(i));
      forall k | 0 <= k < |ids[1..]| ensures ids[1..][k] < |w1.streams| && Live(w1, ids[1..][k]) {
        assert ids[1..][k] == ids[k + 1];
      }
      DropEachKeeps(w1, ids[1..], raises);
      assert forall j :: j in ids <==> j == i || j in ids[1..];
    }
  }

  lemma RegIsLive(v: Ledger)
    requires RegOk(v)
    ensures forall slot :: slot in v.reg ==> v.reg[slot] < |v.streams| && Live(v, v.reg[slot])
  {
  }

  lemma NothingLive(v: Ledger)
    requires RegOk(v) && RoutesOk(v) && forall j :: 0 <= j < |v.streams| ==> StreamOk(v, j) && !Live(v, j)
    ensures v.reg == map[] && v.lines == 0 && v.routes == map[] && v.tradeRoutes == map[]
    ensures forall j :: 0 <= j < |v.streams| ==> !v.streams[j].timer && !v.streams[j].hooked && v.streams[j].retired == 1
  {
    RegIsLive(v);
    forall j | 0 <= j < |v.streams|
      ensures !v.streams[j].timer && !v.streams[j].hooked && v.streams[j].retired == 1 && v.streams[j].reqId.None?
    {
      assert StreamOk(v, j);
    }
    assert v.reg == map[];
    forall r ensures r !in v.routes && r !in v.tradeRoutes {}
  }

  /** disconnect() leaves nothing behind: no stream, no line, no route, no timer. */
  lemma ReleaseAllEmpties(w: Ledger, raises: nat -> bool)
    requires Inv(w)
    ensures var v := ReleaseAll(w, raises);
      && Inv(v) && v.reg == map[] && v.lines == 0 && v.routes == map[] && v.tradeRoutes == map[]
      && forall j :: 0 <= j < |v.streams| ==> !v.streams[j].timer && !v.streams[j].hooked && v.streams[j].retired == 1
  {
    hide RegOk, RoutesOk, HandlesOk, IbOk, StreamOk, Settled, DropEach;
    InOrderPending(w, L1, Depth, Trades);
    DropEachKeeps(w, InOrder(w, L1, Depth, Trades), raises);
    NothingLive(ReleaseAll(w, raises));
  }

  // ---- whole runs ---------------------------------------------------------------------------

  /** One stretch of the program between two awaits, with what its environment decides. */
  datatype Event =
    | Subscribing(kind: Kind, contract: Contract, wantsError: bool, answer: Answer)
    | Closing(handle: nat, env: Env)
    | SnapshotStarts(contract: Contract, answer: Answer)
    | SnapshotEnds(stream: nat, timedOut: bool, env: Env)
    | TopStarts(contract: Contract, answer: Answer)
    | TopTimesOut(stream: nat, env: Env)
    | TimerFires(stream: nat, env: Env)
    | IbError(reqId: int, code: int, env: Env)
    | Resubscribing(cancelOld: bool, lost: bool, moves: nat -> Move)
    | Disconnecting(raises: nat -> bool)

  /**
    When an event can happen: objects exist, only armed timers fire, only snapshots in flight end,
    a new reqId is not one still routed, and the transport skips the old cancels only when IB has
    dropped everything (a full reconnect).
  */
  predicate Enabled(w: Ledger, e: Event) {
    match e
    case Subscribing(kind, _, _, a) => !kind.L1? && Fresh(w, a)
    case Closing(h, _) => h < |w.handles|
    case SnapshotStarts(_, a) => Fresh(w, a)
    case SnapshotEnds(i, _, _) => i < |w.streams| && w.inflight[i] > 0
    case TopStarts(_, a) => Fresh(w, a)
    case TopTimesOut(i, _) => i < |w.streams| && w.streams[i].kind.L1?
    case TimerFires(i, _) => i < |w.streams| && w.streams[i].timer
    case IbError(_, _, _) => true
    case Resubscribing(cancelOld, lost, moves) => (cancelOld || lost) && FreshAll(w, cancelOld, lost, moves)
    case Disconnecting(_) => true
  }

  ghost function Step(w: Ledger, e: Event): Ledger
    requires Inv(w) && Enabled(w, e)
  {
    InvWired(w);
    match e
    case Subscribing(kind, c, wantsError, a) => Subscribe(w, kind, c, wantsError, a)
    case Closing(h, env) => Close(w, h, env)
    case SnapshotStarts(c, a) => SnapshotBegin(w, c, a)
    case SnapshotEnds(i, timedOut, env) => SnapshotEnd(w, i, timedOut, env)
    case TopStarts(c, a) => TopOfBook(w, c, a)
    case TopTimesOut(i, env) => TimedOut(w, i, env)
    case TimerFires(i, env) => IdleExpired(w, i, env)
    case IbError(reqId, code, env) => StreamErrorKeeps(w, reqId, code, env); StreamError(w, reqId, code, env)
    case Resubscribing(cancelOld, lost, moves) => ResubscribeAll(w, cancelOld, lost, moves)
    case Disconnecting(raises) => ReleaseAll(w, raises)
  }

  lemma SubscribeKeeps(w: Ledger, kind: Kind, c: Contract, wantsError: bool, a: Answer)
    requires Inv(w) && Fresh(w, a) && !kind.L1?
    ensures Inv(Subscribe(w, kind, c, wantsError, a))
  {
    hide RegOk, RoutesOk, HandlesOk, IbOk, StreamOk, Settled, Find, AddUser, AddHandle;
    FindKeeps(w, kind, c, a);
    var (v, r) := Find(w, kind, c, a);
    if r.Ok? { JoinKeeps(v, r.value, c, wantsError); }
  }

  lemma SnapshotBeginKeeps(w: Ledger, c: Contract, a: Answer)
    requires Inv(w) && Fresh(w, a)
    ensures Inv(SnapshotBegin(w, c, a))
  {
    hide RegOk, RoutesOk, HandlesOk, IbOk, StreamOk, Settled, AddUser;
    FindKeeps(w, Depth, c, a);
    var (v, r) := Find(w, Depth, c, a);
    if r.Ok? {
      assert v.inflight == w.inflight by { FindInflight(w, Depth, c, a); }
      SnapshotKeeps(v, r.value);
    }
  }

  lemma FindInflight(w: Ledger, kind: Kind, c: Contract, a: Answer)
    ensures Find(w, kind, c, a).0.inflight == w.inflight && Find(w, kind, c, a).0.handles == w.handles
  {
  }

  lemma TopOfBookKeeps(w: Ledger, c: Contract, a: Answer)
    requires Inv(w) && Fresh(w, a)
    ensures Inv(TopOfBook(w, c, a))
  {
    hide RegOk, RoutesOk, HandlesOk, IbOk, StreamOk, Find;
    FindKeeps(w, L1, c, a);
  }

  lemma StepKeeps(w: Ledger, e: Event)
    requires Inv(w) && Enabled(w, e)
    ensures Inv(Step(w, e))
  {
    hide Inv, Subscribe, Close, SnapshotBegin, SnapshotEnd, TopOfBook, TimedOut, IdleExpired, StreamError,
         ResubscribeAll, ReleaseAll, FreshAll;
    InvGives(w);
    match e
    case Subscribing(kind, c, wantsError, a) => SubscribeKeeps(w, kind, c, wantsError, a);
    case Closing(h, env) => CloseKeeps(w, h, env);
    case SnapshotStarts(c, a) => SnapshotBeginKeeps(w, c, a);
    case SnapshotEnds(i, timedOut, env) => SnapshotEndKeeps(w, i, timedOut, env);
    case TopStarts(c, a) => TopOfBookKeeps(w, c, a);
    case TopTimesOut(i, env) => TimedOutKeeps(w, i, env);
    case TimerFires(i, env) => IdleExpiredKeeps(w, i, env);
    case IbError(reqId, code, env) => StreamErrorKeeps(w, reqId, code, env);
    case Resubscribing(cancelOld, lost, moves) => ResubscribeAllKeeps(w, cancelOld, lost, moves);
    case Disconnecting(raises) => ReleaseAllEmpties(w, raises);
  }

  lemma InvGives(w: Ledger)
    requires Inv(w)
    ensures Wired(w)
    ensures forall slot :: slot in w.reg ==> w.reg[slot] < |w.streams| && w.streams[w.reg[slot]].At() == slot
  {
    InvWired(w);
  }

  /** A handle's contract has the registry key of its stream. */
  predicate Keyed(w: Ledger, h: nat)
    requires h < |w.handles|
  {
    var hd := w.handles[h];
    hd.stream < |w.streams| && StreamKey(hd.contract) == StreamKey(w.streams[hd.stream].contract)
  }

  /** Objects keep their identity, teardown cancels are never taken back, a closed handle is final. */
  predicate Evolves(w: Ledger, v: Ledger) {
    && v.cap == w.cap
    && |w.streams| <= |v.streams| && |w.handles| <= |v.handles|
    && (forall i :: 0 <= i < |w.streams| ==>
          && v.streams[i].kind == w.streams[i].kind && v.streams[i].contract == w.streams[i].contract
          && w.streams[i].retired <= v.streams[i].retired)
    && (forall h :: 0 <= h < |w.handles| ==>
          && v.handles[h].stream == w.handles[h].stream && v.handles[h].contract == w.handles[h].contract
          && (w.handles[h].closed ==> v.handles[h] == w.handles[h]))
    && (forall h :: |w.handles| <= h < |v.handles| ==> Keyed(v, h))
  }

  lemma EvolvesOn(u: Ledger, v: Ledger, w: Ledger)
    requires Evolves(u, v) && Evolves(v, w)
    ensures Evolves(u, w)
  {
    forall h | |u.handles| <= h < |w.handles| ensures Keyed(w, h) {
      if h < |v.handles| { assert Keyed(v, h); }
    }
  }

  predicate AllKeyed(w: Ledger) { forall h :: 0 <= h < |w.handles| ==> Keyed(w, h) }

  lemma StaysKeyed(w: Ledger, v: Ledger)
    requires AllKeyed(w) && Evolves(w, v)
    ensures AllKeyed(v)
  {
    forall h | 0 <= h < |v.handles| ensures Keyed(v, h) {
      if h < |w.handles| { assert Keyed(w, h); }
    }
  }

  lemma DropEvolves(w: Ledger, i: nat, raises: bool)
    requires i < |w.streams|
    ensures Evolves(w, DropPersistent(w, i, raises)) && Evolves(w, DropTrades(w, i, raises))
  {
    hide Unhook, FinalCancel, Evolves;
    var s := w.streams[i];
    EvolvesSelf(w);
    var w1 := SetStream(if Live(w, i) then w.(reg := w.reg - {s.At()}, lines := w.lines - 1) else w, i, s.(timer := false));
    SetEvolves(w, i, s.(timer := false));
    assert Evolves(w, w1) by { SameStreamsEvolve(w, SetStream(w, i, s.(timer := false)), w1); }
    EndEvolves(w, w1, i, raises);
    if Live(w, i) {
      var w2 := w.(reg := w.reg - {s.At()});
      SameStreamsEvolve(w, w, w2);
      UnhookEvolves(w, w2, i);
      var w3 := Unhook(w2, i).(lines := Unhook(w2, i).lines - 1);
      SameStreamsEvolve(w, Unhook(w2, i), w3);
      FinalCancelEvolves(w, w3, i, raises);
    }
  }

  lemma SameStreamsEvolve(w: Ledger, u: Ledger, v: Ledger)
    requires Evolves(w, u) && v.streams == u.streams && v.handles == u.handles && v.cap == u.cap
    ensures Evolves(w, v)
  {
    forall h | |w.handles| <= h < |u.handles| ensures Keyed(v, h) { assert Keyed(u, h); }
  }

  lemma UnhookEvolves(w: Ledger, u: Ledger, i: nat)
    requires i < |u.streams| && Evolves(w, u)
    ensures Evolves(w, Unhook(u, i))
  {
    forall h | |w.handles| <= h < |u.handles| ensures Keyed(Unhook(u, i), h) { assert Keyed(u, h); }
  }

  lemma FinalCancelEvolves(w: Ledger, u: Ledger, i: nat, raises: bool)
    requires i < |u.streams| && Evolves(w, u)
    ensures Evolves(w, FinalCancel(u, i, raises))
  {
    forall h | |w.handles| <= h < |u.handles| ensures Keyed(FinalCancel(u, i, raises), h) { assert Keyed(u, h); }
  }

  lemma EndEvolves(w: Ledger, u: Ledger, i: nat, raises: bool)
    requires i < |u.streams| && Evolves(w, u)
    ensures Evolves(w, FinalCancel(Unhook(u, i), i, raises))
  {
    hide Unhook, FinalCancel, Evolves;
    UnhookEvolves(w, u, i);
    FinalCancelEvolves(w, Unhook(u, i), i, raises);
  }

  lemma SetEvolves(w: Ledger, i: nat, s: Stream)
    requires i < |w.streams| && s.kind == w.streams[i].kind && s.contract == w.streams[i].contract
    requires w.streams[i].retired <= s.retired
    ensures Evolves(w, SetStream(w, i, s))
  {
  }

  lemma ReleaseEvolves(w: Ledger, i: nat, env: Env)
    requires i < |w.streams|
    ensures Evolves(w, Release(w, i, env))
  {
    hide DropPersistent, DropTrades, Evolves;
    var w1 := SetStream(w, i, w.streams[i].(refs := w.streams[i].refs - 1));
    SetEvolves(w, i, w1.streams[i]);
    DropEvolves(w1, i, env.cancelRaises);
    EvolvesOn(w, w1, DropPersistent(w1, i, env.cancelRaises));
    EvolvesOn(w, w1, DropTrades(w1, i, env.cancelRaises));
    SetEvolves(w1, i, w1.streams[i].(timer := true));
    EvolvesOn(w, w1, SetStream(w1, i, w1.streams[i].(timer := true)));
  }

  lemma OpenEvolves(w: Ledger, kind: Kind, c: Contract, a: Answer)
    ensures Evolves(w, Find(w, kind, c, a).0)
  {
  }

  lemma CloseEvolves(w: Ledger, h: nat, env: Env)
    requires Wired(w) && h < |w.handles|
    ensures Evolves(w, Close(w, h, env)) && Close(w, h, env).handles[h].closed
  {
    hide Release;
    if !w.handles[h].closed {
      var hd := w.handles[h];
      var i := hd.stream;
      var w2 := SetStream(w.(handles := w.handles[h := hd.(closed := true)]), i,
                          w.streams[i].(subscribers := Remove(w.streams[i].subscribers, h)));
      ReleaseEvolves(w2, i, env);
    }
  }

  lemma NotifyEvolves(w: Ledger, h: nat, code: int, env: Env)
    requires Wired(w) && h < |w.handles|
    ensures Evolves(w, Notify(w, h, code, env))
  {
    hide Close;
    if !w.handles[h].closed {
      var w1 := w.(handles := w.handles[h := w.handles[h].(error := Some(code))]);
      CloseEvolves(w1, h, env);
    }
  }

  lemma {:induction false} NotifyAllEvolves(w: Ledger, hs: seq<nat>, code: int, env: Env)
    requires Wired(w) && Known(w, hs)
    ensures Evolves(w, NotifyAll(w, hs, code, env))
    decreases |hs|
  {
    hide Notify, Evolves;
    if hs == [] {
      EvolvesSelf(w);
    } else {
      var w1 := Notify(w, hs[0], code, env);
      NotifyEvolves(w, hs[0], code, env);
      NotifyAllEvolves(w1, hs[1..], code, env);
      EvolvesOn(w, w1, NotifyAll(w1, hs[1..], code, env));
    }
  }

  lemma EvolvesSelf(w: Ledger)
    ensures Evolves(w, w)
  {
  }

  lemma StreamErrorEvolves(w: Ledger, reqId: int, code: int, env: Env)
    requires Inv(w) && Wired(w)
    requires RouteOf(w, reqId).Some? ==>
      RouteOf(w, reqId).value < |w.streams| && Known(w, w.streams[RouteOf(w, reqId).value].subscribers)
    ensures Evolves(w, StreamError(w, reqId, code, env))
  {
    if RouteOf(w, reqId).Some? && FailsStream(code) {
      hide RegOk, RoutesOk, HandlesOk, IbOk, StreamOk, Settled, StreamError, Tell;
      StreamErrorFails(w, reqId, code, env);
      var i := RouteOf(w, reqId).value;
      TellEvolves(w, i, code, env);
    }
  }

  lemma TellEvolves(w: Ledger, i: nat, code: int, env: Env)
    requires i < |w.streams| && Known(w, w.streams[i].subscribers) && HandlesOk(w)
    requires StreamOk(w, i) && Live(w, i)
    ensures Evolves(w, Failed(Dropped(w, i, env.cancelRaises), i, code))
  {
    TellExact(w.handles, w.streams[i].subscribers, code);
    assert Listed(w, i);
  }

  lemma {:induction false} ResubscribeEachEvolves(w: Ledger, ids: seq<nat>, cancelOld: bool, moves: nat -> Move)
    requires forall k :: 0 <= k < |ids| ==> ids[k] < |w.streams|
    ensures Evolves(w, ResubscribeEach(w, ids, cancelOld, moves))
    decreases |ids|
  {
    hide Evolves, Resubscribe;
    if ids == [] {
      EvolvesSelf(w);
    } else {
      var w1 := Resubscribe(w, ids[0], cancelOld, moves(ids[0]));
      ResubscribeEvolves(w, ids[0], cancelOld, moves(ids[0]));
      ResubscribeEachEvolves(w1, ids[1..], cancelOld, moves);
      EvolvesOn(w, w1, ResubscribeEach(w1, ids[1..], cancelOld, moves));
    }
  }

  lemma ResubscribeEvolves(w: Ledger, i: nat, cancelOld: bool, m: Move)
    requires i < |w.streams|
    ensures Evolves(w, Resubscribe(w, i, cancelOld, m))
  {
  }

  lemma {:induction false} DropEachEvolves(w: Ledger, ids: seq<nat>, raises: nat -> bool)
    requires forall k :: 0 <= k < |ids| ==> ids[k] < |w.streams|
    ensures Evolves(w, DropEach(w, ids, raises))
    decreases |ids|
  {
    hide Evolves, DropTrades, DropPersistent;
    if ids == [] {
      EvolvesSelf(w);
    } else {
      var w1 := Drop(w, ids[0], raises(ids[0]));
      DropEvolves(w, ids[0], raises(ids[0]));
      DropEachEvolves(w1, ids[1..], raises);
      EvolvesOn(w, w1, DropEach(w1, ids[1..], raises));
    }
  }

  lemma StepEvolves(w: Ledger, e: Event)
    requires Inv(w) && Enabled(w, e)
    ensures Evolves(w, Step(w, e))
  {
    hide Inv, Evolves, StreamError, ResubscribeAll, DropEach, Find, Subscribe, SnapshotBegin, SnapshotEnd,
         TimedOut, IdleExpired, Close, FreshAll;
    InvGives(w);
    match e
    case Subscribing(kind, c, wantsError, a) => SubscribeEvolves(w, kind, c, wantsError, a);
    case Closing(h, env) => CloseEvolves(w, h, env);
    case SnapshotStarts(c, a) => SnapshotBeginEvolves(w, c, a);
    case SnapshotEnds(i, timedOut, env) => SnapshotEndEvolves(w, i, timedOut, env);
    case TopStarts(c, a) => OpenEvolves(w, L1, c, a);
    case TopTimesOut(i, env) => TimedOutEvolves(w, i, env);
    case TimerFires(i, env) => IdleExpiredEvolves(w, i, env);
    case IbError(reqId, code, env) => StreamErrorKeeps(w, reqId, code, env); StreamErrorEvolves(w, reqId, code, env);
    case Resubscribing(cancelOld, lost, moves) =>
      ResubscribeAllEvolves(w, cancelOld, lost, moves);
    case Disconnecting(raises) => DropEachEvolves(w, InOrder(w, L1, Depth, Trades), raises);
  }

  lemma ResubscribeAllEvolves(w: Ledger, cancelOld: bool, lost: bool, moves: nat -> Move)
    ensures Evolves(w, ResubscribeAll(w, cancelOld, lost, moves))
  {
    hide ResubscribeEach;
    ResubscribeEachEvolves(Emptied(w, lost), InOrder(w, Trades, L1, Depth), cancelOld, moves);
  }

  lemma TimedOutEvolves(w: Ledger, i: nat, env: Env)
    requires i < |w.streams|
    ensures Evolves(w, TimedOut(w, i, env))
  {
    hide DropPersistent;
    DropEvolves(w, i, env.cancelRaises);
  }

  lemma IdleExpiredEvolves(w: Ledger, i: nat, env: Env)
    requires i < |w.streams|
    ensures Evolves(w, IdleExpired(w, i, env))
  {
    hide DropPersistent, Evolves;
    var w1 := SetStream(w, i, w.streams[i].(timer := false));
    SetEvolves(w, i, w1.streams[i]);
    DropEvolves(w1, i, env.cancelRaises);
    EvolvesOn(w, w1, DropPersistent(w1, i, env.cancelRaises));
  }

  lemma JoinEvolves(w: Ledger, i: nat, c: Contract, wantsError: bool)
    requires i < |w.streams| && StreamKey(c) == StreamKey(w.streams[i].contract)
    ensures Evolves(w, AddHandle(AddUser(w, i), i, c, wantsError))
  {
  }

  lemma SubscribeEvolves(w: Ledger, kind: Kind, c: Contract, wantsError: bool, a: Answer)
    requires forall slot :: slot in w.reg ==> w.reg[slot] < |w.streams| && w.streams[w.reg[slot]].At() == slot
    ensures Evolves(w, Subscribe(w, kind, c, wantsError, a))
  {
    hide Evolves, AddHandle, AddUser;
    OpenEvolves(w, kind, c, a);
    var (v, r) := Find(w, kind, c, a);
    if r.Ok? {
      JoinEvolves(v, r.value, c, wantsError);
      EvolvesOn(w, v, AddHandle(AddUser(v, r.value), r.value, c, wantsError));
    }
  }

  lemma SnapshotBeginEvolves(w: Ledger, c: Contract, a: Answer)
    requires forall slot :: slot in w.reg ==> w.reg[slot] < |w.streams|
    ensures Evolves(w, SnapshotBegin(w, c, a))
  {
    OpenEvolves(w, Depth, c, a);
  }

  lemma SnapshotEndEvolves(w: Ledger, i: nat, timedOut: bool, env: Env)
    requires i < |w.streams|
    ensures Evolves(w, SnapshotEnd(w, i, timedOut, env))
  {
    hide Release, TimedOut, Evolves;
    EvolvesSelf(w);
    TimedOutEvolves(w, i, env);
    var w1 := if timedOut then TimedOut(w, i, env) else w;
    var w2 := w1.(inflight := w1.inflight - multiset{i});
    SameStreamsEvolve(w, w1, w2);
    ReleaseEvolves(w2, i, env);
    EvolvesOn(w, w2, Release(w2, i, env));
  }

  lemma StepIsSound(w: Ledger, e: Event)
    requires Inv(w) && AllKeyed(w) && Enabled(w, e)
    ensures Inv(Step(w, e)) && AllKeyed(Step(w, e)) && Step(w, e).cap == w.cap
  {
    hide Inv, AllKeyed, Step;
    StepKeeps(w, e);
    StepEvolves(w, e);
    StaysKeyed(w, Step(w, e));
  }

  /** One step: the event can happen in w, a state in which Step is defined, and leads to v. */
  ghost predicate Takes(w: Ledger, e: Event, v: Ledger) { Inv(w) && Enabled(w, e) && v == Step(w, e) }

  /** A run from a fresh transport. */
  ghost predicate IsRun(cap: nat, states: seq<Ledger>, events: seq<Event>) {
    && |states| == |events| + 1
    && states[0] == Init(cap)
    && forall i :: 0 <= i < |events| ==> Takes(states[i], events[i], states[i + 1])
  }

  /** Every state of a run satisfies every invariant. */
  lemma {:induction false} EveryRunIsSound(cap: nat, states: seq<Ledger>, events: seq<Event>, i: nat)
    requires IsRun(cap, states, events) && i < |states|
    ensures Inv(states[i]) && AllKeyed(states[i]) && states[i].cap == cap
  {
    hide Inv, AllKeyed, Step, Enabled;
    if i == 0 {
      InitIsSound(cap);
    } else {
      EveryRunIsSound(cap, states, events, i - 1);
      assert Takes(states[i - 1], events[i - 1], states[i]);
      StepIsSound(states[i - 1], events[i - 1]);
    }
  }

  lemma InitIsSound(cap: nat)
    ensures Inv(Init(cap)) && AllKeyed(Init(cap)) && Init(cap).cap == cap
  {
  }

  /** No run is stuck: whatever event can happen in its last state carries it on. */
  lemma EveryEventExtendsTheRun(cap: nat, states: seq<Ledger>, events: seq<Event>, e: Event)
    requires IsRun(cap, states, events) && Enabled(states[|events|], e)
    ensures Inv(states[|events|]) && IsRun(cap, states + [Step(states[|events|], e)], events + [e])
  {
    hide Inv, Step, Enabled;
    EveryRunIsSound(cap, states, events, |events|);
    var s', e' := states + [Step(states[|events|], e)], events + [e];
    forall i | 0 <= i < |e'| ensures Takes(s'[i], e'[i], s'[i + 1]) {
      if i < |events| { assert Takes(states[i], events[i], states[i + 1]); }
    }
  }

  // ---- what a reader may rely on ------------------------------------------------------------

  /** The streams now registered. */
  function Active(w: Ledger): set<nat> { set i: nat | i < |w.streams| && Live(w, i) }

  /** The subscribers of a stream whose handle is open. */
  function OpenHandles(w: Ledger, i: nat): set<nat> {
    set h: nat | h < |w.handles| && w.handles[h].stream == i && !w.handles[h].closed
  }

  lemma LinesCountStreams(w: Ledger)
    requires RegOk(w)
    ensures w.lines == |Active(w)| <= w.cap
  {
    forall k, l | k in w.reg && l in w.reg && k != l ensures w.reg[k] != w.reg[l] {
      assert w.streams[w.reg[k]].At() == k && w.streams[w.reg[l]].At() == l;
    }
    InjectiveSize(w.reg);
    forall i ensures i in Active(w) <==> i in w.reg.Values {
      if i in w.reg.Values {
        var slot :| slot in w.reg && w.reg[slot] == i;
        assert Live(w, i);
      }
    }
    assert Active(w) == w.reg.Values;
  }

  lemma RefsCountUsers(w: Ledger, i: nat)
    requires HandlesOk(w) && i < |w.streams| && StreamOk(w, i)
    ensures w.streams[i].refs == |OpenHandles(w, i)| + w.inflight[i]
  {
    var s := w.streams[i].subscribers;
    NoDupSize(s);
    assert Listed(w, i);
    assert Elems(s) == OpenHandles(w, i);
  }

  /**
    In every reachable state: a line is held for exactly the registered streams, within the cap; refs
    count open handles and snapshots; an unused stream is on its timer or gone, so no line leaks; and
    each object that is gone was cancelled at IB once.
  */
  lemma EveryRunKeepsLinesAndRefs(cap: nat, states: seq<Ledger>, events: seq<Event>, n: nat)
    requires IsRun(cap, states, events) && n < |states|
    ensures var w := states[n];
      && w.lines == |Active(w)| <= cap
      && forall i: nat :: i < |w.streams| ==>
           var s := w.streams[i];
           && s.refs == |OpenHandles(w, i)| + w.inflight[i]
           && (Live(w, i) && s.kind.Trades? ==> s.refs > 0)
           && (Live(w, i) && s.kind.Depth? ==> (s.timer <==> s.refs == 0))
           && (s.timer ==> Live(w, i))
           && s.retired == (if Live(w, i) then 0 else 1)
  {
    hide RoutesOk, IbOk, IsRun;
    EveryRunIsSound(cap, states, events, n);
    var w := states[n];
    LinesCountStreams(w);
    forall i: nat | i < |w.streams|
      ensures w.streams[i].refs == |OpenHandles(w, i)| + w.inflight[i] && StreamOk(w, i) && Settled(w, i)
    {
      RefsCountUsers(w, i);
    }
  }

  /** In every reachable state the reqId maps are the current reqIds of the registered streams, no more. */
  lemma EveryRunKeepsRoutes(cap: nat, states: seq<Ledger>, events: seq<Event>, n: nat)
    requires IsRun(cap, states, events) && n < |states|
    ensures var w := states[n];
      forall r, i: nat ::
        && (r in w.routes && w.routes[r] == i <==>
              i < |w.streams| && Live(w, i) && !w.streams[i].kind.Trades? && w.streams[i].reqId == Some(r))
        && (r in w.tradeRoutes && w.tradeRoutes[r] == i <==>
              i < |w.streams| && Live(w, i) && w.streams[i].kind.Trades? && w.streams[i].reqId == Some(r))
        && (r in w.routes ==> r !in w.tradeRoutes)
  {
    hide HandlesOk, IbOk, Settled, IsRun;
    EveryRunIsSound(cap, states, events, n);
    var w := states[n];
    forall i: nat | i < |w.streams| && w.streams[i].reqId.Some? ensures Live(w, i) && Routed(w, i) {
      assert StreamOk(w, i);
    }
  }

  /** IB never streams a slot the transport gave up, but for teardown cancels IB did not get. */
  lemma EveryRunMatchesIb(cap: nat, states: seq<Ledger>, events: seq<Event>, n: nat)
    requires IsRun(cap, states, events) && n < |states|
    ensures var w := states[n];
      && (forall slot :: w.open[slot] <= Count(slot in w.reg) + w.leaked[slot])
      && (w.faults == 0 ==> forall slot :: w.open[slot] == Count(slot in w.reg))
  {
    hide IsRun;
    EveryRunIsSound(cap, states, events, n);
  }

  /** Nobody uses the transport: no open handle, no running snapshot, no armed timer. */
  predicate Quiet(w: Ledger) {
    && w.inflight == multiset{}
    && (forall h :: 0 <= h < |w.handles| ==> w.handles[h].closed)
    && (forall i :: 0 <= i < |w.streams| ==> !w.streams[i].timer)
  }

  /** No leak: without open handles, snapshots or timers only L1 streams hold lines. */
  lemma NothingInUseHoldsNoLine(cap: nat, states: seq<Ledger>, events: seq<Event>, n: nat)
    requires IsRun(cap, states, events) && n < |states| && Quiet(states[n])
    ensures forall slot :: slot in states[n].reg ==> slot.kind.L1?
  {
    EveryRunKeepsLinesAndRefs(cap, states, events, n);
    EveryRunIsSound(cap, states, events, n);
    hide IsRun, RoutesOk, IbOk, HandlesOk, StreamOk, Settled;
    var w := states[n];
    RegIsLive(w);
    forall slot | slot in w.reg ensures slot.kind.L1? {
      var i := w.reg[slot];
      assert OpenHandles(w, i) == {};
      assert Live(w, i);
    }
  }

  /**
    Closing a handle whose stream was dropped, whatever was opened for the same contract since,
    touches that handle and that dead object only.
  */
  lemma StaleCloseIsHarmless(w: Ledger, h: nat, env: Env)
    requires Inv(w) && Wired(w) && h < |w.handles| && !Live(w, w.handles[h].stream)
    ensures var v := Close(w, h, env); var i := w.handles[h].stream;
      && v.reg == w.reg && v.lines == w.lines && v.routes == w.routes && v.tradeRoutes == w.tradeRoutes
      && v.open == w.open && v.leaked == w.leaked && v.faults == w.faults
      && (forall j :: 0 <= j < |w.streams| && j != i ==> v.streams[j] == w.streams[j])
      && (forall k :: 0 <= k < |w.handles| && k != h ==> v.handles[k] == w.handles[k])
      && v.streams[i].retired == w.streams[i].retired && !v.streams[i].timer
  {
    hide RegOk, RoutesOk, HandlesOk, IbOk, Settled;
    assert StreamOk(w, w.handles[h].stream);
  }

  /** Likewise for a snapshot whose stream was dropped while it waited. */
  lemma StaleSnapshotIsHarmless(w: Ledger, i: nat, timedOut: bool, env: Env)
    requires Inv(w) && i < |w.streams| && w.inflight[i] > 0 && !Live(w, i)
    ensures var v := SnapshotEnd(w, i, timedOut, env);
      && v.reg == w.reg && v.lines == w.lines && v.routes == w.routes && v.tradeRoutes == w.tradeRoutes
      && v.open == w.open && v.handles == w.handles && v.inflight == w.inflight - multiset{i}
      && (forall j :: 0 <= j < |w.streams| && j != i ==> v.streams[j] == w.streams[j])
      && v.streams[i].retired == w.streams[i].retired
  {
    hide RegOk, RoutesOk, HandlesOk, IbOk, Settled;
    assert StreamOk(w, i);
  }

  /**
    Error 101 or a hard permission code on a routed reqId: the stream goes, with one line, its reqId
    and its timer; each of its subscribers is closed with the code and told once; nothing else moves.
  */
  lemma FailingCodeFailsExactlyItsSubscribers(w: Ledger, reqId: int, code: int, env: Env)
    requires Inv(w) && Wired(w) && RouteOf(w, reqId).Some? && FailsStream(code)
    requires RouteOf(w, reqId).value < |w.streams| && Known(w, w.streams[RouteOf(w, reqId).value].subscribers)
    ensures var i := RouteOf(w, reqId).value; var s := w.streams[i]; var v := StreamError(w, reqId, code, env);
      && s.reqId == Some(reqId) && Live(w, i) && !Live(v, i)
      && v.reg == w.reg - {s.At()} && v.lines == w.lines - 1
      && v.routes == w.routes - {reqId} && v.tradeRoutes == w.tradeRoutes - {reqId}
      && v.streams == w.streams[i := s.(timer := false, hooked := false, reqId := None, retired := 1,
                                        subscribers := [], refs := w.inflight[i])]
      && |v.handles| == |w.handles|
      && forall h: nat :: h < |w.handles| ==>
           v.handles[h] == if h in OpenHandles(w, i)
                           then w.handles[h].(closed := true, error := Some(code),
                                              calls := if w.handles[h].wantsError then 1 else 0)
                           else w.handles[h]
  {
    hide RegOk, IbOk, Settled, StreamError;
    var i := RouteOf(w, reqId).value;
    StreamErrorFails(w, reqId, code, env);
    RouteIsLive(w, reqId);
    FailedReadOff(w, i, reqId, code, env);
  }

  lemma FailedReadOff(w: Ledger, i: nat, reqId: int, code: int, env: Env)
    requires RoutesOk(w) && HandlesOk(w) && i < |w.streams| && StreamOk(w, i) && Live(w, i)
    requires w.streams[i].reqId == Some(reqId) && Known(w, w.streams[i].subscribers)
    ensures var s := w.streams[i]; var v := Failed(Dropped(w, i, env.cancelRaises), i, code);
      && !Live(v, i) && v.reg == w.reg - {s.At()} && v.lines == w.lines - 1
      && v.routes == w.routes - {reqId} && v.tradeRoutes == w.tradeRoutes - {reqId}
      && v.streams == w.streams[i := s.(timer := false, hooked := false, reqId := None, retired := 1,
                                        subscribers := [], refs := w.inflight[i])]
      && |v.handles| == |w.handles|
      && forall h: nat :: h < |w.handles| ==>
           v.handles[h] == if h in OpenHandles(w, i)
                           then w.handles[h].(closed := true, error := Some(code),
                                              calls := if w.handles[h].wantsError then 1 else 0)
                           else w.handles[h]
  {
    var s := w.streams[i];
    assert Routed(w, i);
    TellExact(w.handles, s.subscribers, code);
    assert Listed(w, i);
    UpdateTwice(w.streams, i, Dropped(w, i, env.cancelRaises).streams[i],
                s.(timer := false, hooked := false, reqId := None, retired := 1, subscribers := [], refs := w.inflight[i]));
  }

  /** The registered stream i runs on the id. */
  ghost predicate RunsOn(w: Ledger, i: nat, reqId: int) {
    i < |w.streams| && Live(w, i) && w.streams[i].reqId.Some? && w.streams[i].reqId.value == reqId
  }

  /** A registered stream runs on the id, and the code fails it or is a soft warning it does not carry yet. */
  ghost predicate Concerns(w: Ledger, i: nat, reqId: int, code: int) {
    && RunsOn(w, i, reqId)
    && (FailsStream(code)
        || (code in SOFT_PERMISSION_CODES && !w.streams[i].kind.Trades? && w.streams[i].warning != Some(code)))
  }

  /**
    In every reachable state an error changes something if and only if it concerns a registered stream:
    an id that is outdated, unknown or negative changes nothing, nor does any other code.
  */
  lemma ErrorActsExactly(cap: nat, states: seq<Ledger>, events: seq<Event>, n: nat, reqId: int, code: int, env: Env)
    requires IsRun(cap, states, events) && n < |states|
    ensures var w := states[n];
      && Wired(w) && (RouteOf(w, reqId).Some? ==>
           RouteOf(w, reqId).value < |w.streams| && Known(w, w.streams[RouteOf(w, reqId).value].subscribers))
      && (StreamError(w, reqId, code, env) == w <==> !exists i: nat :: Concerns(w, i, reqId, code))
      && (reqId < 0 ==> StreamError(w, reqId, code, env) == w)
  {
    hide IsRun, Inv, StreamError, Concerns;
    EveryRunIsSound(cap, states, events, n);
    var w := states[n];
    StreamErrorKeeps(w, reqId, code, env);
    if RouteOf(w, reqId).None? {
      UnroutedIsIgnored(w, reqId, code, env);
    } else {
      RoutedActsExactly(w, reqId, code, env);
    }
  }

  /** An id that no registered stream runs on, -1 and every other negative one included, changes nothing. */
  lemma UnroutedErrorIsIgnored(cap: nat, states: seq<Ledger>, events: seq<Event>, n: nat, reqId: int, code: int, env: Env)
    requires IsRun(cap, states, events) && n < |states|
    requires reqId < 0 || forall i: nat :: !RunsOn(states[n], i, reqId)
    ensures var w := states[n];
      && Wired(w) && (RouteOf(w, reqId).Some? ==>
           RouteOf(w, reqId).value < |w.streams| && Known(w, w.streams[RouteOf(w, reqId).value].subscribers))
      && StreamError(w, reqId, code, env) == w
  {
    hide IsRun, StreamError, RunsOn;
    ErrorActsExactly(cap, states, events, n, reqId, code, env);
  }

  lemma UnroutedIsIgnored(w: Ledger, reqId: int, code: int, env: Env)
    requires Inv(w) && Wired(w) && RouteOf(w, reqId).None?
    ensures StreamError(w, reqId, code, env) == w
    ensures forall i: nat :: !Concerns(w, i, reqId, code)
  {
    hide RegOk, HandlesOk, IbOk, Settled;
    forall i: nat | i < |w.streams| && w.streams[i].reqId.Some? ensures !RunsOn(w, i, reqId) { assert Routed(w, i); }
  }

  lemma RoutedActsExactly(w: Ledger, reqId: int, code: int, env: Env)
    requires Inv(w) && Wired(w) && RouteOf(w, reqId).Some?
    requires RouteOf(w, reqId).value < |w.streams| && Known(w, w.streams[RouteOf(w, reqId).value].subscribers)
    ensures StreamError(w, reqId, code, env) == w <==> !exists i: nat :: Concerns(w, i, reqId, code)
    ensures reqId >= 0
  {
    hide RegOk, HandlesOk, IbOk, Settled, FailPersistent, FailTrades, StreamOk;
    RouteIsLive(w, reqId);
    var i := RouteOf(w, reqId).value;
    assert reqId >= 0;
    if FailsStream(code) {
      FailingCodeFailsExactlyItsSubscribers(w, reqId, code, env);
      assert StreamError(w, reqId, code, env).lines != w.lines;
      assert Concerns(w, i, reqId, code);
    } else {
      OnlyOneRunsOn(w, i, reqId);
      if code in SOFT_PERMISSION_CODES && !w.streams[i].kind.Trades? {
        WarnSets(w, i, reqId, code, env);
        assert w.streams[i].warning != Some(code) ==> Concerns(w, i, reqId, code);
      } else {
        OtherCodeIsIgnored(w, reqId, code, env);
      }
    }
  }

  lemma OtherCodeIsIgnored(w: Ledger, reqId: int, code: int, env: Env)
    requires Wired(w) && RouteOf(w, reqId).Some? && !FailsStream(code)
    requires RouteOf(w, reqId).value < |w.streams| && Known(w, w.streams[RouteOf(w, reqId).value].subscribers)
    requires reqId in w.tradeRoutes || code !in SOFT_PERMISSION_CODES
    ensures StreamError(w, reqId, code, env) == w
  {
  }

  lemma OnlyOneRunsOn(w: Ledger, i: nat, reqId: int)
    requires Inv(w) && RouteOf(w, reqId) == Some(i)
    ensures forall j: nat :: RunsOn(w, j, reqId) ==> j == i
  {
    hide RegOk, HandlesOk, IbOk, Settled, StreamOk;
    forall j: nat | RunsOn(w, j, reqId) ensures j == i { assert Routed(w, j); }
  }

  lemma WarnSets(w: Ledger, i: nat, reqId: int, code: int, env: Env)
    requires Wired(w) && RouteOf(w, reqId) == Some(i) && i < |w.streams| && Known(w, w.streams[i].subscribers)
    requires reqId !in w.tradeRoutes && !FailsStream(code) && code in SOFT_PERMISSION_CODES
    ensures StreamError(w, reqId, code, env) == SetStream(w, i, w.streams[i].(warning := Some(code)))
    ensures StreamError(w, reqId, code, env) == w <==> w.streams[i].warning == Some(code)
  {
    var v := SetStream(w, i, w.streams[i].(warning := Some(code)));
    assert v.streams[i].warning == Some(code);
    if w.streams[i].warning == Some(code) { assert v.streams == w.streams; }
  }

  /** A stream is refused exactly when it would be a new one and either every line is held or IB raises. */
  lemma RefusedExactlyWhenFull(w: Ledger, kind: Kind, c: Contract, a: Answer)
    requires Inv(w)
    ensures var (v, r) := Find(w, kind, c, a); var isNew := Slot(kind, StreamKey(c)) !in w.reg;
      && (r == Err(LinesExhausted) <==> isNew && |Active(w)| == w.cap)
      && (r == Err(RequestFailed) <==> isNew && |Active(w)| < w.cap && a.Raises?)
      && (r.Err? ==> v == w)
      && (r.Ok? ==>
            && |v.streams| == |w.streams| + Count(isNew)
            && v.open == w.open + multiset(if isNew then [Slot(kind, StreamKey(c))] else []))
  {
    hide RoutesOk, HandlesOk, IbOk, StreamOk, Settled;
    LinesCountStreams(w);
  }

  /**
    Freshness is needed, and is all that is: after a first request the reqId maps are exact if and
    only if IB's id was not one still routed.
  */
  lemma RoutesExactIffFresh(w: Ledger, kind: Kind, c: Contract, reqId: Option<nat>)
    requires RoutesOk(w)
    ensures RoutesOk(Opened(w, kind, c, reqId)) <==> Fresh(w, Sent(reqId))
  {
    var v := Opened(w, kind, c, reqId);
    if Fresh(w, Sent(reqId)) {
      OpenedKeepsRoutes(w, kind, c, reqId);
    } else {
      var r := reqId.value;
      var j := if r in w.tradeRoutes then w.tradeRoutes[r] else w.routes[r];
      assert v.streams[j] == w.streams[j] && v.streams[|w.streams|].reqId == Some(r);
      assert !(Routed(v, j) && Routed(v, |w.streams|)) || (r in v.routes && r in v.tradeRoutes);
    }
  }

  /**
    The same for the move of a registered stream to a new request: once the old one is withdrawn, the
    maps are exact if and only if the id of the new one is not still routed.
  */
  lemma MovedRoutesExactIffFresh(w: Ledger, i: nat, cancelOld: bool, m: Move)
    requires RoutesOk(w) && i < |w.streams|
    ensures RoutesOk(Resubscribe(w, i, cancelOld, m)) <==>
      !Moves(cancelOld, m) || Fresh(Withdraw(w, i, false), m.answer)
  {
    hide RoutesOk, Routed;
    var cancel := cancelOld && !m.cancelRaises;
    var w1 := Withdraw(w, i, cancel);
    WithdrawKeepsRoutes(w, i, cancel);
    if Moves(cancelOld, m) {
      if Fresh(w1, m.answer) { RequestKeepsRoutes(w1, i, m.answer.reqId); }
      else { StaleRequestClashes(w1, i, m.answer.reqId.value); }
    } else {
      RoutesApart(w1, w1.(faults := w1.faults + 1));
    }
  }

  /** A request under an id that routes to another stream leaves two streams with that id. */
  lemma StaleRequestClashes(w: Ledger, i: nat, r: nat)
    requires RoutesOk(w) && i < |w.streams| && w.streams[i].reqId.None? && !Fresh(w, Sent(Some(r)))
    ensures !RoutesOk(Request(w, i, Some(r)))
  {
    var v := Request(w, i, Some(r));
    var j := if r in w.tradeRoutes then w.tradeRoutes[r] else w.routes[r];
    assert j != i && v.streams[j] == w.streams[j] && v.streams[i].reqId == Some(r);
    assert !(Routed(v, j) && Routed(v, i)) || (r in v.routes && r in v.tradeRoutes);
  }

  /** A later state of the same run: what is dropped stays dropped, cancelled once; closed stays closed. */
  lemma {:induction false} DroppedStaysDropped(cap: nat, states: seq<Ledger>, events: seq<Event>, m: nat, n: nat)
    requires IsRun(cap, states, events) && m <= n < |states|
    ensures Evolves(states[m], states[n])
    ensures var w, v := states[m], states[n];
      && (forall i: nat :: i < |w.streams| && !Live(w, i) ==> i < |v.streams| && !Live(v, i) && v.streams[i].retired == 1)
      && (forall h: nat :: h < |w.handles| && w.handles[h].closed ==> h < |v.handles| && v.handles[h] == w.handles[h])
    decreases n
  {
    hide Inv, Evolves, Live, AllKeyed, Step, Enabled;
    EveryRunIsSound(cap, states, events, m);
    EveryRunIsSound(cap, states, events, n);
    if m == n {
      EvolvesSelf(states[m]);
    } else {
      DroppedStaysDropped(cap, states, events, m, n - 1);
      assert Takes(states[n - 1], events[n - 1], states[n]);
      StepEvolves(states[n - 1], events[n - 1]);
      EvolvesOn(states[m], states[n - 1], states[n]);
    }
    RetiredOnceDropped(states[m], states[n]);
  }

  lemma RetiredOnceDropped(w: Ledger, v: Ledger)
    requires Inv(w) && Inv(v) && Evolves(w, v)
    ensures forall h: nat :: h < |w.handles| && w.handles[h].closed ==> h < |v.handles| && v.handles[h] == w.handles[h]
    ensures forall i: nat :: i < |w.streams| && !Live(w, i) ==> i < |v.streams| && !Live(v, i) && v.streams[i].retired == 1
  {
    hide RegOk, RoutesOk, HandlesOk, IbOk, Settled;
    forall i: nat | i < |w.streams| && !Live(w, i) ensures !Live(v, i) && v.streams[i].retired == 1 {
      assert StreamOk(w, i) && StreamOk(v, i);
    }
  }

  // ---- delivery -----------------------------------------------------------------------------

  /** _on_trades_update: the subscribers a tick batch for a key is handed to. */
  function TradesDelivery(w: Ledger, key: Key): set<nat>
    requires Wired(w)
  {
    set h: nat | h < |w.handles| && !w.handles[h].closed && w.streams[w.handles[h].stream].kind.Trades?
                 && StreamKey(w.handles[h].contract) == key
  }

  /** _on_depth_update: the subscribers a depth stream's book is handed to. */
  function DepthDelivery(w: Ledger, i: nat): set<nat>
    requires Wired(w) && i < |w.streams|
  {
    set h: nat | h < |w.handles| && !w.handles[h].closed && w.streams[w.handles[h].stream].kind.Depth?
                 && w.handles[h].contract == w.streams[i].contract
  }

  /** Every open subscriber of a trades stream gets its ticks, in every reachable state. */
  lemma TradesReachEverySharer(cap: nat, states: seq<Ledger>, events: seq<Event>, n: nat, i: nat)
    requires IsRun(cap, states, events) && n < |states|
    requires i < |states[n].streams| && states[n].streams[i].kind.Trades?
    ensures var w := states[n];
      Wired(w) && OpenHandles(w, i) <= TradesDelivery(w, StreamKey(w.streams[i].contract))
  {
    hide RegOk, RoutesOk, IbOk, HandlesOk, StreamOk, Settled, IsRun;
    EveryRunIsSound(cap, states, events, n);
    var w := states[n];
    InvWired(w);
    forall h | h in OpenHandles(w, i) ensures h in TradesDelivery(w, StreamKey(w.streams[i].contract)) {
      assert Keyed(w, h);
    }
  }

  /** The contract a depth stream was opened with equals that of each of its open subscribers. */
  ghost predicate SameContracts(w: Ledger, i: nat)
    requires i < |w.streams|
  {
    forall h: nat :: h < |w.handles| && w.handles[h].stream == i && !w.handles[h].closed ==>
      w.handles[h].contract == w.streams[i].contract
  }

  /**
    In every reachable state: a depth stream's book reaches all of its open subscribers if and only if
    they gave contracts equal to the one that opened it; so always when that contract has no IB id,
    since such contracts share a stream only if they are equal.
  */
  lemma DepthReachesAllExactly(cap: nat, states: seq<Ledger>, events: seq<Event>, n: nat, i: nat)
    requires IsRun(cap, states, events) && n < |states|
    requires i < |states[n].streams| && states[n].streams[i].kind.Depth?
    ensures var w := states[n];
      && Wired(w)
      && (OpenHandles(w, i) <= DepthDelivery(w, i) <==> SameContracts(w, i))
      && (w.streams[i].contract.contractId == "" ==> OpenHandles(w, i) <= DepthDelivery(w, i))
  {
    hide RegOk, RoutesOk, IbOk, HandlesOk, StreamOk, Settled, IsRun;
    EveryRunIsSound(cap, states, events, n);
    var w := states[n];
    InvWired(w);
    if !SameContracts(w, i) {
      var h: nat :| h < |w.handles| && w.handles[h].stream == i && !w.handles[h].closed
                    && w.handles[h].contract != w.streams[i].contract;
      assert h in OpenHandles(w, i) && h !in DepthDelivery(w, i);
    }
    if w.streams[i].contract.contractId == "" {
      forall h: nat | h in OpenHandles(w, i) ensures w.handles[h].contract == w.streams[i].contract {
        assert Keyed(w, h);
      }
    }
  }

  /** A depth stream just opened by its first subscriber. */
  function OneSharer(c: Contract): Ledger {
    Ledger(100, 1, map[Slot(Depth, StreamKey(c)) := 0], map[7 := 0], map[],
           [Stream(Depth, c, 1, false, Some(7), true, None, [0], 0)],
           [Handle(0, c, false, false, None, 0)], multiset{}, multiset{Slot(Depth, StreamKey(c))}, multiset{}, 0)
  }

  lemma FirstSharer(c: Contract)
    ensures Subscribe(Init(100), Depth, c, false, Sent(Some(7))) == OneSharer(c)
  {
    FindIsOpened(Init(100), Depth, c, Sent(Some(7)));
    var v := Opened(Init(100), Depth, c, Some(7));
    assert v.streams == [NewStream(Depth, c).(hooked := true, reqId := Some(7))];
    var x := AddHandle(AddUser(v, 0), 0, c, false);
    assert x.streams[0].subscribers == [0];
    assert x.streams == [Stream(Depth, c, 1, false, Some(7), true, None, [0], 0)];
    assert x.handles == [Handle(0, c, false, false, None, 0)];
    assert x.reg == map[Slot(Depth, StreamKey(c)) := 0] && x.routes == map[7 := 0];
  }

  lemma SecondSharer(c: Contract, d: Contract)
    requires StreamKey(c) == StreamKey(d)
    ensures Subscribe(OneSharer(c), Depth, d, false, Sent(Some(8)))
            == OneSharer(c).(streams := [Stream(Depth, c, 2, false, Some(7), true, None, [0, 1], 0)],
                             handles := [Handle(0, c, false, false, None, 0), Handle(0, d, false, false, None, 0)])
  {
    var x := AddHandle(AddUser(OneSharer(c), 0), 0, d, false);
    assert x.streams[0].subscribers == [0, 1];
    assert x.streams == [Stream(Depth, c, 2, false, Some(7), true, None, [0, 1], 0)];
    assert x.handles == [Handle(0, c, false, false, None, 0), Handle(0, d, false, false, None, 0)];
  }

  /** Two contracts under one IB id share a depth stream, yet the second subscriber never sees a book. */
  lemma DepthMissesUnequalSharer() returns (states: seq<Ledger>, events: seq<Event>)
    ensures IsRun(100, states, events) && |states| == 3
    ensures var w := states[2]; Wired(w) && |w.streams| == 1 && 1 in OpenHandles(w, 0) && 1 !in DepthDelivery(w, 0)
  {
    hide Inv, Subscribe, AllKeyed, IsRun;
    var c, d := Contract("1", 0), Contract("1", 1);
    var e0, e1 := Subscribing(Depth, c, false, Sent(Some(7))), Subscribing(Depth, d, false, Sent(Some(8)));
    FirstSharer(c);
    SecondSharer(c, d);
    FreshRun(100);
    EveryEventExtendsTheRun(100, [Init(100)], [], e0);
    EveryEventExtendsTheRun(100, [Init(100)] + [OneSharer(c)], [] + [e0], e1);
    states := [Init(100)] + [OneSharer(c)] + [Step(OneSharer(c), e1)];
    events := [] + [e0] + [e1];
  }

  lemma FreshRun(cap: nat)
    ensures IsRun(cap, [Init(cap)], [])
  {
  }
}
