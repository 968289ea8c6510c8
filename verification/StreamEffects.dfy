/**
  What every event of a run changes, field by field, and what it leaves alone: which streams end, on
  which request each one runs, who is listed on it, what each handle shows and what IB streams.
*/
module StreamEffects {
  import opened Prelude
  import opened StreamLedger
  import opened StreamSafety

  // ---- the table ----------------------------------------------------------------------------

  /** Open handles and running snapshots. */
  ghost function Users(w: Ledger, i: nat): nat { |OpenHandles(w, i)| + w.inflight[i] }

  predicate Fatal(code: int) { code == 101 || code == 354 }

  predicate Soft(code: int) { code == 2152 || code == 10089 || code == 10090 }

  /** The handle is open and belongs to stream i. */
  predicate OpenOn(w: Ledger, h: nat, i: nat) { h < |w.handles| && !w.handles[h].closed && w.handles[h].stream == i }

  /**
    The events that end a registered stream: the last user leaves a trades stream, or a depth stream
    without a loop; a time-out finds a soft warning and at most one user; the idle timer; a fatal code
    on the stream's reqId; disconnect.
  */
  ghost predicate Ends(w: Ledger, e: Event, i: nat)
    requires i < |w.streams|
  {
    var s := w.streams[i];
    match e
    case Closing(h, env) => OpenOn(w, h, i) && Users(w, i) == 1 && (s.kind.Trades? || !env.loop)
    case SnapshotEnds(j, late, env) => j == i && Users(w, i) == 1 && (!env.loop || (late && s.warning.Some?))
    case TopTimesOut(j, _) => j == i && s.warning.Some?
    case TimerFires(j, _) => j == i
    case IbError(r, code, _) => s.reqId.Some? && s.reqId.value == r && Fatal(code)
    case Disconnecting(_) => true
    case _ => false
  }

  datatype Wish = Wish(kind: Kind, contract: Contract, answer: Answer)

  function Asked(e: Event): Option<Wish> {
    match e
    case Subscribing(kind, c, _, a) => Some(Wish(kind, c, a))
    case SnapshotStarts(c, a) => Some(Wish(Depth, c, a))
    case TopStarts(c, a) => Some(Wish(L1, c, a))
    case _ => None
  }

  function SlotOf(x: Wish): Slot { Slot(x.kind, StreamKey(x.contract)) }

  /** The event brings a new stream into being: none is registered, a line is free, and IB takes the request. */
  predicate Opens(w: Ledger, e: Event) {
    Asked(e).Some? && SlotOf(Asked(e).value) !in w.reg && w.lines < w.cap && Asked(e).value.answer.Sent?
  }

  /** The stream that serves the event: the registered one, or the new one. */
  function Served(w: Ledger, e: Event): Option<nat> {
    if Asked(e).None? then None
    else if SlotOf(Asked(e).value) in w.reg then Some(w.reg[SlotOf(Asked(e).value)])
    else if Opens(w, e) then Some(|w.streams|)
    else None
  }

  ghost function NextSubscribers(w: Ledger, e: Event, i: nat): seq<nat>
    requires i < |w.streams|
  {
    var subs := w.streams[i].subscribers;
    match e
    case Subscribing(_, _, _, _) => if Served(w, e) == Some(i) then subs + [|w.handles|] else subs
    case Closing(h, _) => if OpenOn(w, h, i) then Remove(subs, h) else subs
    case IbError(_, _, _) => if Live(w, i) && Ends(w, e, i) then [] else subs
    case _ => subs
  }

  function NextWarning(w: Ledger, e: Event, i: nat): Option<int>
    requires i < |w.streams|
  {
    var s := w.streams[i];
    match e
    case IbError(r, code, _) =>
      if Live(w, i) && !s.kind.Trades? && s.reqId.Some? && s.reqId.value == r && Soft(code) then Some(code) else s.warning
    case Resubscribing(_, _, _) => if Live(w, i) && !s.kind.Trades? then None else s.warning
    case _ => s.warning
  }

  /** The request a stream that stays registered runs on. */
  function NextReqId(w: Ledger, e: Event, i: nat): Option<nat>
    requires i < |w.streams|
  {
    match e
    case Resubscribing(cancelOld, _, moves) => if Moves(cancelOld, moves(i)) then moves(i).answer.reqId else None
    case _ => w.streams[i].reqId
  }

  predicate NextHooked(w: Ledger, e: Event, i: nat)
    requires i < |w.streams|
  {
    match e
    case Resubscribing(cancelOld, _, moves) => Moves(cancelOld, moves(i))
    case _ => w.streams[i].hooked
  }

  ghost function NextHandle(w: Ledger, e: Event, h: nat): Handle
    requires Wired(w) && h < |w.handles|
  {
    var hd := w.handles[h];
    match e
    case Closing(k, _) => if k == h then hd.(closed := true) else hd
    case IbError(_, code, _) =>
      if !hd.closed && Live(w, hd.stream) && Ends(w, e, hd.stream)
      then hd.(closed := true, error := Some(code), calls := if hd.wantsError then 1 else 0) else hd
    case _ => hd
  }

  function NextInflight(w: Ledger, e: Event): multiset<nat> {
    match e
    case SnapshotStarts(_, _) => if Served(w, e).Some? then w.inflight + multiset{Served(w, e).value} else w.inflight
    case SnapshotEnds(i, _, _) => w.inflight - multiset{i}
    case _ => w.inflight
  }

  /** Whether a cancel of stream i raises. */
  function Raises(e: Event, i: nat): bool {
    match e
    case Closing(_, env) => env.cancelRaises
    case SnapshotEnds(_, _, env) => env.cancelRaises
    case TopTimesOut(_, env) => env.cancelRaises
    case TimerFires(_, env) => env.cancelRaises
    case IbError(_, _, env) => env.cancelRaises
    case Resubscribing(_, _, moves) => moves(i).cancelRaises
    case Disconnecting(raises) => raises(i)
    case _ => false
  }

  /** IB gets a cancel for the stream. */
  ghost predicate Cancelled(w: Ledger, e: Event, i: nat)
    requires i < |w.streams|
  {
    !Raises(e, i) && (Ends(w, e, i) || (e.Resubscribing? && e.cancelOld))
  }

  ghost predicate Requested(w: Ledger, e: Event, slot: Slot) {
    || (Opens(w, e) && slot == SlotOf(Asked(e).value))
    || (e.Resubscribing? && slot in w.reg && Moves(e.cancelOld, e.moves(w.reg[slot])))
  }

  ghost predicate StreamMoves(w: Ledger, e: Event, v: Ledger, i: nat)
    requires i < |w.streams| && |w.streams| <= |v.streams|
  {
    && (Live(v, i) <==> Live(w, i) && !Ends(w, e, i))
    && (Live(v, i) ==> v.streams[i].reqId == NextReqId(w, e, i) && v.streams[i].hooked == NextHooked(w, e, i))
    && v.streams[i].warning == NextWarning(w, e, i)
    && v.streams[i].subscribers == NextSubscribers(w, e, i)
  }

  ghost predicate StreamsMove(w: Ledger, e: Event, v: Ledger) {
    && |v.streams| == |w.streams| + Count(Opens(w, e))
    && forall i: nat :: i < |w.streams| ==> StreamMoves(w, e, v, i)
  }

  ghost predicate NewStreamIs(w: Ledger, e: Event, v: Ledger) {
    Opens(w, e) && |w.streams| < |v.streams| ==>
      var x, s := Asked(e).value, v.streams[|w.streams|];
      && Live(v, |w.streams|) && s.kind == x.kind && s.contract == x.contract && s.reqId == x.answer.reqId
      && s.hooked && s.warning.None? && s.subscribers == if e.Subscribing? then [|w.handles|] else []
  }

  ghost predicate HandlesMove(w: Ledger, e: Event, v: Ledger)
    requires Wired(w)
  {
    && |v.handles| == |w.handles| + Count(e.Subscribing? && Served(w, e).Some?)
    && (forall h: nat :: h < |w.handles| ==> v.handles[h] == NextHandle(w, e, h))
    && (e.Subscribing? && Served(w, e).Some? ==>
          v.handles[|w.handles|] == Handle(Served(w, e).value, e.contract, e.wantsError, false, None, 0))
  }

  ghost predicate SlotMoves(w: Ledger, e: Event, v: Ledger, slot: Slot)
    requires slot in w.reg ==> w.reg[slot] < |w.streams|
  {
    var lost := e.Resubscribing? && e.lost;
    var open, leaked := if lost then 0 else w.open[slot], if lost then 0 else w.leaked[slot];
    var cancelled := slot in w.reg && Cancelled(w, e, w.reg[slot]);
    && v.open[slot] == (if cancelled && open > 0 then open - 1 else open) + Count(Requested(w, e, slot))
    && v.leaked[slot] == leaked + Count(slot in w.reg && Ends(w, e, w.reg[slot]) && Raises(e, w.reg[slot]))
  }

  ghost predicate IbMoves(w: Ledger, e: Event, v: Ledger)
    requires RegOk(w)
  {
    forall slot :: SlotMoves(w, e, v, slot)
  }

  /** The whole table. */
  ghost predicate Follows(w: Ledger, e: Event, v: Ledger)
    requires Wired(w) && RegOk(w)
  {
    && v.cap == w.cap && v.inflight == NextInflight(w, e)
    && StreamsMove(w, e, v) && NewStreamIs(w, e, v) && HandlesMove(w, e, v) && IbMoves(w, e, v)
  }

  // ---- one stream at a time -------------------------------------------------------------------

  /** u is w but for who uses the streams. */
  ghost predicate OnlyUsers(w: Ledger, u: Ledger) {
    && u.cap == w.cap && u.reg == w.reg && u.lines == w.lines
    && u.open == w.open && u.leaked == w.leaked && u.faults == w.faults
    && |u.streams| == |w.streams|
    && forall j :: 0 <= j < |w.streams| ==> SameButUsers(w.streams[j], u.streams[j])
  }

  predicate SameButUsers(s: Stream, t: Stream) {
    t.kind == s.kind && t.contract == s.contract && t.reqId == s.reqId && t.hooked == s.hooked && t.warning == s.warning
  }

  /** The users have moved as the event says. */
  ghost predicate UsersMoved(w: Ledger, e: Event, u: Ledger)
    requires Wired(w) && |u.streams| == |w.streams|
  {
    && u.inflight == NextInflight(w, e) && HandlesMove(w, e, u)
    && forall j: nat :: j < |w.streams| ==> u.streams[j].subscribers == NextSubscribers(w, e, j)
  }

  /** An event of one user or timer of one stream. */
  predicate OfOne(e: Event, w: Ledger, i: nat) {
    match e
    case Closing(h, _) => OpenOn(w, h, i)
    case SnapshotEnds(j, _, _) => j == i
    case TopTimesOut(j, _) => j == i
    case TimerFires(j, _) => j == i
    case _ => false
  }

  lemma OthersStay(w: Ledger, e: Event, i: nat)
    requires OfOne(e, w, i)
    ensures forall j: nat :: j < |w.streams| && j != i ==> !Ends(w, e, j)
    ensures Asked(e).None? && !e.Resubscribing? && !e.IbError? && !e.Subscribing? && !e.Disconnecting?
  {
  }

  /** Such an event moves no request and no warning. */
  lemma Calm(w: Ledger, e: Event, i: nat)
    requires OfOne(e, w, i) && i < |w.streams|
    ensures !Opens(w, e) && forall slot :: !Requested(w, e, slot)
    ensures forall j: nat :: j < |w.streams| ==>
      && NextReqId(w, e, j) == w.streams[j].reqId && NextHooked(w, e, j) == w.streams[j].hooked
      && NextWarning(w, e, j) == w.streams[j].warning
  {
  }

  lemma StreamStays(w: Ledger, e: Event, v: Ledger, j: nat)
    requires j < |w.streams| == |v.streams| && SameButUsers(w.streams[j], v.streams[j])
    requires Live(v, j) <==> Live(w, j) && !Ends(w, e, j)
    requires NextReqId(w, e, j) == w.streams[j].reqId && NextHooked(w, e, j) == w.streams[j].hooked
    requires NextWarning(w, e, j) == w.streams[j].warning && v.streams[j].subscribers == NextSubscribers(w, e, j)
    ensures StreamMoves(w, e, v, j)
  {
  }

  lemma NothingEnds(w: Ledger, e: Event, v: Ledger, i: nat)
    requires Wired(w) && RegOk(w) && i < |w.streams| && OfOne(e, w, i) && !(Live(w, i) && Ends(w, e, i))
    requires OnlyUsers(w, v) && UsersMoved(w, e, v)
    ensures Follows(w, e, v)
  {
    hide Ends, NextSubscribers, NextHandle, NextInflight, Opens, Requested, NextReqId, NextHooked, NextWarning, Served, StreamMoves, SlotMoves;
    OthersStay(w, e, i);
    Calm(w, e, i);
    forall j: nat | j < |w.streams| ensures StreamMoves(w, e, v, j) {
      assert SameButUsers(w.streams[j], v.streams[j]);
      StreamStays(w, e, v, j);
    }
    forall slot ensures SlotMoves(w, e, v, slot) { SlotStays(w, e, v, i, slot); }
  }

  lemma SlotStays(w: Ledger, e: Event, v: Ledger, i: nat, slot: Slot)
    requires RegOk(w) && i < |w.streams| && !(Live(w, i) && Ends(w, e, i)) && !e.Resubscribing? && !Requested(w, e, slot)
    requires forall j: nat :: j < |w.streams| && j != i ==> !Ends(w, e, j)
    requires v.open[slot] == w.open[slot] && v.leaked[slot] == w.leaked[slot]
    ensures SlotMoves(w, e, v, slot)
  {
    hide Ends, Requested, Raises;
    if slot in w.reg { assert Live(w, w.reg[slot]); }
  }

  lemma OneEnds(w: Ledger, e: Event, u: Ledger, i: nat)
    requires Wired(w) && RegOk(w) && i < |w.streams| && OfOne(e, w, i) && Live(w, i) && Ends(w, e, i)
    requires OnlyUsers(w, u) && UsersMoved(w, e, u)
    ensures Follows(w, e, Dropped(u, i, Raises(e, i)))
  {
    hide Ends, NextSubscribers, NextHandle, NextInflight, Raises, Opens, Requested, NextReqId, NextHooked, NextWarning,
         Served, StreamMoves, SlotMoves, HandlesMove;
    OthersStay(w, e, i);
    Calm(w, e, i);
    var v := Dropped(u, i, Raises(e, i));
    assert SameButUsers(w.streams[i], u.streams[i]);
    forall j: nat | j < |w.streams| ensures StreamMoves(w, e, v, j) {
      assert SameButUsers(w.streams[j], u.streams[j]);
      if j == i { EndedMoves(w, e, v, i); } else { StreamStays(w, e, v, j); }
    }
    SameHandlesMove(w, e, u, v);
    forall slot ensures SlotMoves(w, e, v, slot) { SlotOfEnded(w, e, v, i, slot); }
  }

  lemma EndedMoves(w: Ledger, e: Event, v: Ledger, i: nat)
    requires i < |w.streams| == |v.streams| && Ends(w, e, i) && !Live(v, i)
    requires v.streams[i].warning == NextWarning(w, e, i) && v.streams[i].subscribers == NextSubscribers(w, e, i)
    ensures StreamMoves(w, e, v, i)
  {
  }

  lemma SlotOfEnded(w: Ledger, e: Event, v: Ledger, i: nat, slot: Slot)
    requires RegOk(w) && i < |w.streams| && Live(w, i) && Ends(w, e, i) && !e.Resubscribing? && !Requested(w, e, slot)
    requires forall j: nat :: j < |w.streams| && Live(w, j) && j != i ==> !Ends(w, e, j)
    requires var it := multiset{w.streams[i].At()}; var raises := Raises(e, i);
      && v.open[slot] == (if raises then w.open else w.open - it)[slot]
      && v.leaked[slot] == (if raises then w.leaked + it else w.leaked)[slot]
    ensures SlotMoves(w, e, v, slot)
  {
    hide Ends, Requested, Raises;
    if slot in w.reg { assert Live(w, w.reg[slot]); }
  }

  // ---- leaving, snapshots and timers ----------------------------------------------------------

  lemma ReleaseIs(w: Ledger, i: nat, env: Env)
    requires i < |w.streams| && !w.streams[i].kind.L1?
    requires StreamOk(SetStream(w, i, w.streams[i].(refs := w.streams[i].refs - 1)), i)
    ensures var u := SetStream(w, i, w.streams[i].(refs := w.streams[i].refs - 1));
      Release(w, i, env) ==
        if u.streams[i].refs > 0 || !Live(u, i) then u
        else if u.streams[i].kind.Trades? || !env.loop then Dropped(u, i, env.cancelRaises)
        else SetStream(u, i, u.streams[i].(timer := true))
  {
    hide DropTrades, DropPersistent, Dropped, StreamOk;
    var u := SetStream(w, i, w.streams[i].(refs := w.streams[i].refs - 1));
    if Live(u, i) { DropIsDropped(u, i, env.cancelRaises); } else { DeadTrades(u, i, env.cancelRaises); }
  }

  lemma DeadTrades(u: Ledger, i: nat, raises: bool)
    requires i < |u.streams| && !Live(u, i)
    ensures DropTrades(u, i, raises) == u
  {
  }

  lemma ClosedAlready(w: Ledger, h: nat, env: Env)
    requires Inv(w) && Wired(w) && h < |w.handles| && w.handles[h].closed
    ensures Follows(w, Closing(h, env), w)
  {
    hide RoutesOk, HandlesOk, IbOk, StreamOk, Settled;
    var e := Closing(h, env);
    forall j: nat | j < |w.streams| ensures StreamMoves(w, e, w, j) { assert StreamOk(w, j); DeadHasNothing(w, j); }
    forall slot ensures SlotMoves(w, e, w, slot) {}
  }

  lemma DeadHasNothing(w: Ledger, j: nat)
    requires j < |w.streams| && StreamOk(w, j)
    ensures !Live(w, j) ==> w.streams[j].reqId.None? && !w.streams[j].hooked
  {
  }

  /** The state once h has left its stream, before the release looks at it. */
  function Gone(w: Ledger, h: nat): Ledger
    requires h < |w.handles| && w.handles[h].stream < |w.streams|
  {
    SetStream(w, w.handles[h].stream, Left(w.streams[w.handles[h].stream], h))
      .(handles := w.handles[h := w.handles[h].(closed := true)])
  }

  lemma GoneUsers(w: Ledger, h: nat, env: Env)
    requires Wired(w) && h < |w.handles| && !w.handles[h].closed
    ensures OnlyUsers(w, Gone(w, h)) && UsersMoved(w, Closing(h, env), Gone(w, h))
  {
  }

  lemma CloseIs(w: Ledger, h: nat, env: Env)
    requires Inv(w) && Wired(w) && h < |w.handles| && !w.handles[h].closed
    ensures var i, u := w.handles[h].stream, Gone(w, h);
      && StreamOk(u, i) && (Live(u, i) <==> Live(w, i)) && 0 <= u.streams[i].refs == Users(w, i) - 1
      && Close(w, h, env) ==
           if u.streams[i].refs > 0 || !Live(u, i) then u
           else if u.streams[i].kind.Trades? || !env.loop then Dropped(u, i, env.cancelRaises)
           else SetStream(u, i, u.streams[i].(timer := true))
  {
    hide RegOk, RoutesOk, HandlesOk, IbOk, StreamOk, Settled, Release, Dropped;
    OpenIsListed(w, h);
    var i := w.handles[h].stream;
    var s := w.streams[i];
    assert StreamOk(w, i) && Settled(w, i);
    UsedStream(w, i);
    CloseKeepsCore(w, h);
    RefsCountUsers(w, i);
    var w2 := SetStream(w.(handles := w.handles[h := w.handles[h].(closed := true)]), i, s.(subscribers := Remove(s.subscribers, h)));
    UpdateTwice(w.streams, i, w2.streams[i], Left(s, h));
    assert SetStream(w2, i, w2.streams[i].(refs := w2.streams[i].refs - 1)) == Gone(w, h);
    ReleaseIs(w2, i, env);
  }

  /** Arming the timer changes nothing else. */
  lemma ArmedUsers(w: Ledger, e: Event, u: Ledger, i: nat, t: bool)
    requires Wired(w) && i < |w.streams| == |u.streams| && OnlyUsers(w, u) && UsersMoved(w, e, u)
    ensures var v := SetStream(u, i, u.streams[i].(timer := t)); OnlyUsers(w, v) && UsersMoved(w, e, v)
  {
    hide NextSubscribers, NextHandle, NextInflight, HandlesMove;
    var v := SetStream(u, i, u.streams[i].(timer := t));
    assert v.handles == u.handles && v.inflight == u.inflight;
    SameHandlesMove(w, e, u, v);
    forall j | 0 <= j < |w.streams| ensures SameButUsers(w.streams[j], v.streams[j]) {
      assert SameButUsers(w.streams[j], u.streams[j]);
    }
  }

  lemma SameHandlesMove(w: Ledger, e: Event, u: Ledger, v: Ledger)
    requires Wired(w) && HandlesMove(w, e, u) && v.handles == u.handles
    ensures HandlesMove(w, e, v)
  {
    hide NextHandle, Served;
  }

  lemma ClosingFollows(w: Ledger, h: nat, env: Env)
    requires Inv(w) && Wired(w) && h < |w.handles|
    ensures RegOk(w) && Follows(w, Closing(h, env), Close(w, h, env))
  {
    hide RegOk, RoutesOk, HandlesOk, IbOk, StreamOk, Settled, Follows, Dropped, OnlyUsers, UsersMoved, Users;
    var e := Closing(h, env);
    if w.handles[h].closed {
      ClosedAlready(w, h, env);
    } else {
      var i, u := w.handles[h].stream, Gone(w, h);
      CloseIs(w, h, env);
      GoneUsers(w, h, env);
      if u.streams[i].refs > 0 || !Live(u, i) {
        NothingEnds(w, e, u, i);
      } else if u.streams[i].kind.Trades? || !env.loop {
        OneEnds(w, e, u, i);
      } else {
        ArmedUsers(w, e, u, i, true);
        NothingEnds(w, e, SetStream(u, i, u.streams[i].(timer := true)), i);
      }
    }
  }

  lemma SameUsers(w: Ledger, e: Event)
    requires Wired(w) && (e.TopTimesOut? || e.TimerFires?)
    ensures OnlyUsers(w, w) && UsersMoved(w, e, w)
  {
  }

  lemma TimeOutFollows(w: Ledger, i: nat, env: Env)
    requires Inv(w) && Wired(w) && i < |w.streams| && w.streams[i].kind.L1?
    ensures RegOk(w) && Follows(w, TopTimesOut(i, env), TimedOut(w, i, env))
  {
    hide RegOk, RoutesOk, HandlesOk, IbOk, Settled, Follows, Dropped, OnlyUsers, UsersMoved, Users, DropPersistent;
    var e := TopTimesOut(i, env);
    assert StreamOk(w, i);
    SameUsers(w, e);
    if Live(w, i) && w.streams[i].warning.Some? {
      DropIsDropped(w, i, env.cancelRaises);
      OneEnds(w, e, w, i);
    } else {
      NothingEnds(w, e, w, i);
    }
  }

  lemma TimerFollows(w: Ledger, i: nat, env: Env)
    requires Inv(w) && Wired(w) && i < |w.streams| && w.streams[i].timer
    ensures RegOk(w) && Follows(w, TimerFires(i, env), IdleExpired(w, i, env))
  {
    hide RegOk, RoutesOk, HandlesOk, IbOk, Follows, Dropped, OnlyUsers, UsersMoved, Users, DropPersistent;
    var e := TimerFires(i, env);
    assert StreamOk(w, i) && Settled(w, i);
    var u := SetStream(w, i, w.streams[i].(timer := false));
    StopTimerOk(w, i);
    SameUsers(w, e);
    ArmedUsers(w, e, w, i, false);
    DropIsDropped(u, i, env.cancelRaises);
    OneEnds(w, e, u, i);
  }

  /** The state once the snapshot has given its reference back, before the release looks at it. */
  function Unwatched(w: Ledger, i: nat): Ledger
    requires i < |w.streams|
  {
    SetStream(w.(inflight := w.inflight - multiset{i}), i, w.streams[i].(refs := w.streams[i].refs - 1))
  }

  lemma UnwatchedUsers(w: Ledger, i: nat, late: bool, env: Env)
    requires Wired(w) && i < |w.streams|
    ensures OnlyUsers(w, Unwatched(w, i)) && UsersMoved(w, SnapshotEnds(i, late, env), Unwatched(w, i))
  {
  }

  lemma UnwatchIs(w: Ledger, i: nat, env: Env)
    requires i < |w.streams| && StreamOk(w, i) && w.inflight[i] > 0
    ensures var u := Unwatched(w, i);
      && StreamOk(u, i) && (Live(u, i) <==> Live(w, i)) && u.streams[i].refs == w.streams[i].refs - 1
      && Release(w.(inflight := w.inflight - multiset{i}), i, env) ==
           if u.streams[i].refs > 0 || !Live(u, i) then u
           else if !env.loop then Dropped(u, i, env.cancelRaises)
           else SetStream(u, i, u.streams[i].(timer := true))
  {
    hide Release, Dropped;
    UnwatchedOk(w, i);
    ReleaseIs(w.(inflight := w.inflight - multiset{i}), i, env);
  }

  /** A time-out that drops the stream, and then the release: dropping and giving back commute. */
  lemma DropThenUnwatch(w: Ledger, i: nat, env: Env)
    requires i < |w.streams| && StreamOk(w, i) && Live(w, i) && w.inflight[i] > 0 && w.streams[i].kind.Depth?
    ensures var d := Dropped(w, i, env.cancelRaises);
      Release(d.(inflight := d.inflight - multiset{i}), i, env) == Dropped(Unwatched(w, i), i, env.cancelRaises)
  {
    var d := Dropped(w, i, env.cancelRaises);
    var x := d.(inflight := d.inflight - multiset{i});
    assert !Live(x, i);
    UpdateTwice(w.streams, i, d.streams[i], d.streams[i].(refs := d.streams[i].refs - 1));
    UpdateTwice(w.streams, i, Unwatched(w, i).streams[i], d.streams[i].(refs := d.streams[i].refs - 1));
  }

  lemma SnapshotEndFollows(w: Ledger, i: nat, late: bool, env: Env)
    requires Inv(w) && Wired(w) && i < |w.streams| && w.inflight[i] > 0
    ensures RegOk(w) && Follows(w, SnapshotEnds(i, late, env), SnapshotEnd(w, i, late, env))
  {
    hide RegOk, RoutesOk, HandlesOk, IbOk, StreamOk, Settled, Follows, Dropped, OnlyUsers, UsersMoved, Users, Release, DropPersistent;
    var e, u := SnapshotEnds(i, late, env), Unwatched(w, i);
    assert StreamOk(w, i);
    OnlyDepthWatched(w, i);
    UnwatchedUsers(w, i, late, env);
    UnwatchIs(w, i, env);
    assert w.streams[i].refs == Users(w, i) by { RefsCountUsers(w, i); UsersIs(w, i); }
    if late && w.streams[i].warning.Some? && w.streams[i].refs <= 1 && Live(w, i) {
      DropIsDropped(w, i, env.cancelRaises);
      DropThenUnwatch(w, i, env);
      assert Ends(w, e, i) by { AtLeastOne(w, i); }
      OneEnds(w, e, u, i);
    } else if u.streams[i].refs > 0 || !Live(u, i) {
      NothingEnds(w, e, u, i);
    } else if !env.loop {
      assert Ends(w, e, i) by { AtLeastOne(w, i); }
      OneEnds(w, e, u, i);
    } else {
      ArmedUsers(w, e, u, i, true);
      NothingEnds(w, e, SetStream(u, i, u.streams[i].(timer := true)), i);
    }
  }

  lemma UsersIs(w: Ledger, i: nat)
    ensures Users(w, i) == |OpenHandles(w, i)| + w.inflight[i]
  {
  }

  lemma AtLeastOne(w: Ledger, i: nat)
    requires w.inflight[i] > 0
    ensures Users(w, i) >= 1
  {
  }

  // ---- errors -----------------------------------------------------------------------------------

  lemma RunsOnExactly(w: Ledger, reqId: int)
    requires Inv(w)
    ensures forall i: nat :: RunsOn(w, i, reqId) <==> RouteOf(w, reqId) == Some(i)
  {
    hide RegOk, HandlesOk, IbOk, Settled;
    if RouteOf(w, reqId).Some? { RouteIsLive(w, reqId); OnlyOneRunsOn(w, RouteOf(w, reqId).value, reqId); }
    else { forall i: nat | i < |w.streams| && w.streams[i].reqId.Some? ensures !RunsOn(w, i, reqId) { assert Routed(w, i); } }
  }

  lemma ErrorEnds(w: Ledger, reqId: int, code: int, env: Env)
    requires Inv(w)
    ensures forall i: nat :: i < |w.streams| && Live(w, i) ==>
      (Ends(w, IbError(reqId, code, env), i) <==> RouteOf(w, reqId) == Some(i) && FailsStream(code))
  {
    hide Inv, Live, RouteOf;
    RunsOnExactly(w, reqId);
    forall i: nat | i < |w.streams| && Live(w, i)
      ensures Ends(w, IbError(reqId, code, env), i) <==> RouteOf(w, reqId) == Some(i) && FailsStream(code)
    {
      assert RunsOn(w, i, reqId) <==> RouteOf(w, reqId) == Some(i);
    }
  }

  /** An error that ends nothing: it leaves the ledger alone but for one warning. */
  lemma WarningFollows(w: Ledger, reqId: int, code: int, env: Env, v: Ledger)
    requires Inv(w) && Wired(w)
    requires forall i: nat :: i < |w.streams| && Live(w, i) ==> !Ends(w, IbError(reqId, code, env), i)
    requires |v.streams| == |w.streams| && v == w.(streams := v.streams)
    requires forall i: nat :: i < |w.streams| ==>
      v.streams[i] == w.streams[i].(warning := NextWarning(w, IbError(reqId, code, env), i))
    ensures RegOk(w) && Follows(w, IbError(reqId, code, env), v)
  {
    hide RoutesOk, HandlesOk, IbOk, StreamOk, Settled, NextWarning, Ends;
    var e := IbError(reqId, code, env);
    forall j: nat | j < |w.streams| ensures StreamMoves(w, e, v, j) { assert StreamOk(w, j); DeadHasNothing(w, j); }
    forall slot ensures SlotMoves(w, e, v, slot) { if slot in w.reg { assert Live(w, w.reg[slot]); } }
  }

  lemma SoftFollows(w: Ledger, reqId: int, code: int, env: Env)
    requires Inv(w) && Wired(w) && !(RouteOf(w, reqId).Some? && FailsStream(code))
    requires RouteOf(w, reqId).Some? ==>
      RouteOf(w, reqId).value < |w.streams| && Known(w, w.streams[RouteOf(w, reqId).value].subscribers)
    ensures RegOk(w) && Follows(w, IbError(reqId, code, env), StreamError(w, reqId, code, env))
  {
    hide Inv, Follows, StreamError, Ends, NextWarning;
    var e, v := IbError(reqId, code, env), StreamError(w, reqId, code, env);
    ErrorEnds(w, reqId, code, env);
    SoftWarns(w, reqId, code, env);
    WarningFollows(w, reqId, code, env, v);
  }

  lemma SoftWarns(w: Ledger, reqId: int, code: int, env: Env)
    requires Inv(w) && Wired(w) && !(RouteOf(w, reqId).Some? && FailsStream(code))
    requires RouteOf(w, reqId).Some? ==>
      RouteOf(w, reqId).value < |w.streams| && Known(w, w.streams[RouteOf(w, reqId).value].subscribers)
    ensures var v := StreamError(w, reqId, code, env);
      && |v.streams| == |w.streams| && v == w.(streams := v.streams)
      && forall i: nat :: i < |w.streams| ==>
           v.streams[i] == w.streams[i].(warning := NextWarning(w, IbError(reqId, code, env), i))
  {
    hide RegOk, HandlesOk, IbOk, Settled, StreamOk, RouteOf, StreamError, Live;
    RunsOnExactly(w, reqId);
    var e, v := IbError(reqId, code, env), StreamError(w, reqId, code, env);
    if RouteOf(w, reqId).None? {
      UnroutedIsIgnored(w, reqId, code, env);
    } else {
      RouteIsLive(w, reqId);
      var i := RouteOf(w, reqId).value;
      if w.streams[i].kind.Trades? || !Soft(code) { OtherCodeIsIgnored(w, reqId, code, env); }
      else { WarnSets(w, i, reqId, code, env); }
    }
    forall j: nat | j < |w.streams| ensures v.streams[j] == w.streams[j].(warning := NextWarning(w, e, j)) {
      assert RunsOn(w, j, reqId) <==> RouteOf(w, reqId) == Some(j);
    }
  }

  lemma FatalFollows(w: Ledger, reqId: int, code: int, env: Env)
    requires Inv(w) && Wired(w) && RouteOf(w, reqId).Some? && FailsStream(code)
    requires RouteOf(w, reqId).value < |w.streams| && Known(w, w.streams[RouteOf(w, reqId).value].subscribers)
    ensures RegOk(w) && Follows(w, IbError(reqId, code, env), StreamError(w, reqId, code, env))
  {
    hide RegOk, RoutesOk, HandlesOk, IbOk, StreamOk, Settled, StreamError, RouteOf, Ends, Dropped, Failed, Live;
    var e, v, i := IbError(reqId, code, env), StreamError(w, reqId, code, env), RouteOf(w, reqId).value;
    ErrorEnds(w, reqId, code, env);
    StreamErrorFails(w, reqId, code, env);
    FailingCodeFailsExactlyItsSubscribers(w, reqId, code, env);
    forall j: nat | j < |w.streams| ensures StreamMoves(w, e, v, j) {
      FatalStream(w, reqId, code, env, v, j);
    }
    forall h: nat | h < |w.handles| ensures v.handles[h] == NextHandle(w, e, h) {
      assert h in OpenHandles(w, i) <==> !w.handles[h].closed && w.handles[h].stream == i;
    }
    assert forall slot :: slot in w.reg ==> w.reg[slot] < |w.streams| by { RegNamesAll(w); }
    forall slot ensures SlotMoves(w, e, v, slot) {
      assert !Requested(w, e, slot);
      FatalSlot(w, e, i, code, slot);
    }
    assert v.inflight == w.inflight && v.cap == w.cap by { FailedKeepsRest(w, i, env.cancelRaises, code); }
  }

  lemma RegNamesAll(w: Ledger)
    requires RegOk(w)
    ensures forall slot :: slot in w.reg ==> w.reg[slot] < |w.streams| && w.streams[w.reg[slot]].At() == slot
  {
  }

  lemma FailedKeepsRest(w: Ledger, i: nat, raises: bool, code: int)
    requires i < |w.streams| && Known(w, w.streams[i].subscribers)
    ensures var v := Failed(Dropped(w, i, raises), i, code); v.inflight == w.inflight && v.cap == w.cap
  {
  }

  lemma FatalStream(w: Ledger, reqId: int, code: int, env: Env, v: Ledger, j: nat)
    requires Inv(w) && RouteOf(w, reqId).Some? && FailsStream(code) && j < |w.streams| && RouteOf(w, reqId).value < |w.streams|
    requires var i := RouteOf(w, reqId).value; var s := w.streams[i];
      && |v.streams| == |w.streams| && Live(w, i) && !Live(v, i) && v.reg == w.reg - {s.At()}
      && v.streams == w.streams[i := s.(timer := false, hooked := false, reqId := None, retired := 1,
                                        subscribers := [], refs := w.inflight[i])]
    requires Live(w, j) ==> (Ends(w, IbError(reqId, code, env), j) <==> RouteOf(w, reqId) == Some(j))
    ensures StreamMoves(w, IbError(reqId, code, env), v, j)
  {
    hide RegOk, RoutesOk, HandlesOk, IbOk, Settled, RouteOf, Ends;
    assert StreamOk(w, j);
  }

  lemma FatalSlot(w: Ledger, e: Event, i: nat, code: int, slot: Slot)
    requires RegOk(w) && i < |w.streams| && Live(w, i) && Known(w, w.streams[i].subscribers) && e.IbError?
    requires forall j: nat :: j < |w.streams| && Live(w, j) ==> (Ends(w, e, j) <==> j == i)
    requires !Requested(w, e, slot)
    ensures SlotMoves(w, e, Failed(Dropped(w, i, Raises(e, i)), i, code), slot)
  {
    hide RegOk, Ends, Requested, Raises, Live, SlotMoves, Failed;
    FailedIb(w, i, Raises(e, i), code);
    SlotOfEnded(w, e, Failed(Dropped(w, i, Raises(e, i)), i, code), i, slot);
  }

  lemma FailedIb(w: Ledger, i: nat, raises: bool, code: int)
    requires i < |w.streams| && Known(w, w.streams[i].subscribers)
    ensures var v, it := Failed(Dropped(w, i, raises), i, code), multiset{w.streams[i].At()};
      && v.open == (if raises then w.open else w.open - it) && v.leaked == (if raises then w.leaked + it else w.leaked)
  {
  }

  lemma ErrorFollows(w: Ledger, reqId: int, code: int, env: Env)
    requires Inv(w)
    ensures Wired(w) && RegOk(w) && (RouteOf(w, reqId).Some? ==>
      RouteOf(w, reqId).value < |w.streams| && Known(w, w.streams[RouteOf(w, reqId).value].subscribers))
    ensures Follows(w, IbError(reqId, code, env), StreamError(w, reqId, code, env))
  {
    hide Inv, Follows, StreamError, RouteOf;
    StreamErrorKeeps(w, reqId, code, env);
    if RouteOf(w, reqId).Some? && FailsStream(code) { FatalFollows(w, reqId, code, env); }
    else { SoftFollows(w, reqId, code, env); }
  }

  // ---- subscribing, snapshots and L1 reads ----------------------------------------------------

  /** w, with the new stream if the event opens one. */
  function Found(w: Ledger, e: Event): Ledger {
    if Opens(w, e) then var x := Asked(e).value; Opened(w, x.kind, x.contract, x.answer.reqId) else w
  }

  lemma FindIsFound(w: Ledger, e: Event)
    requires Inv(w) && Asked(e).Some?
    ensures var x := Asked(e).value; var (v, r) := Find(w, x.kind, x.contract, x.answer);
      && v == Found(w, e) && (r.Ok? <==> Served(w, e).Some?)
      && (r.Ok? ==> r.value == Served(w, e).value < |v.streams|)
  {
    hide RoutesOk, HandlesOk, IbOk, StreamOk, Settled;
    var x := Asked(e).value;
    if Opens(w, e) { FindIsOpened(w, x.kind, x.contract, x.answer); }
  }

  /** v is what was found, but for its users. */
  lemma AskFollows(w: Ledger, e: Event, v: Ledger)
    requires Inv(w) && Wired(w) && Asked(e).Some? && OnlyUsers(Found(w, e), v) && |w.streams| <= |v.streams|
    requires v.inflight == NextInflight(w, e) && HandlesMove(w, e, v)
    requires forall j: nat :: j < |w.streams| ==> v.streams[j].subscribers == NextSubscribers(w, e, j)
    requires Opens(w, e) ==> v.streams[|w.streams|].subscribers == if e.Subscribing? then [|w.handles|] else []
    ensures RegOk(w) && Follows(w, e, v)
  {
    hide RoutesOk, HandlesOk, IbOk, StreamOk, Settled, NextSubscribers, NextHandle, NextInflight, HandlesMove, SlotMoves, StreamMoves,
         Found, Opens, Served, NewStreamIs;
    FoundParts(w, e);
    forall j: nat | j < |w.streams| ensures StreamMoves(w, e, v, j) { AskStream(w, e, v, j); }
    assert v.open == Found(w, e).open && v.leaked == w.leaked && v.cap == w.cap by { FoundRest(w, e); }
    forall slot ensures SlotMoves(w, e, v, slot) { AskSlot(w, e, v, slot); }
    NewStream(w, e, v);
  }

  lemma FoundRest(w: Ledger, e: Event)
    ensures Found(w, e).leaked == w.leaked && Found(w, e).cap == w.cap
  {
  }

  lemma AskStream(w: Ledger, e: Event, v: Ledger, j: nat)
    requires Inv(w) && Asked(e).Some? && OnlyUsers(Found(w, e), v) && j < |w.streams| <= |v.streams|
    requires v.streams[j].subscribers == NextSubscribers(w, e, j)
    ensures StreamMoves(w, e, v, j)
  {
    hide Inv, NextSubscribers, Ends, Found, Opens, Live, NextReqId, NextHooked, NextWarning;
    FoundParts(w, e);
    AskCalm(w, e, j);
    FoundLive(w, e, v, j);
    assert SameButUsers(Found(w, e).streams[j], v.streams[j]);
  }

  lemma AskCalm(w: Ledger, e: Event, j: nat)
    requires Asked(e).Some? && j < |w.streams|
    ensures !Ends(w, e, j) && NextReqId(w, e, j) == w.streams[j].reqId && NextHooked(w, e, j) == w.streams[j].hooked
    ensures NextWarning(w, e, j) == w.streams[j].warning
  {
  }

  lemma FoundLive(w: Ledger, e: Event, v: Ledger, j: nat)
    requires OnlyUsers(Found(w, e), v) && j < |w.streams| <= |v.streams|
    ensures Live(v, j) <==> Live(w, j)
  {
    hide Served;
    assert SameButUsers(Found(w, e).streams[j], v.streams[j]);
  }

  lemma NewStream(w: Ledger, e: Event, v: Ledger)
    requires OnlyUsers(Found(w, e), v)
    requires Opens(w, e) && |w.streams| < |v.streams| ==>
      v.streams[|w.streams|].subscribers == if e.Subscribing? then [|w.handles|] else []
    ensures NewStreamIs(w, e, v)
  {
    if Opens(w, e) && |w.streams| < |v.streams| {
      assert SameButUsers(Found(w, e).streams[|w.streams|], v.streams[|w.streams|]);
    }
  }

  lemma AskSlot(w: Ledger, e: Event, v: Ledger, slot: Slot)
    requires RegOk(w) && Asked(e).Some? && v.open == Found(w, e).open && v.leaked == w.leaked
    ensures SlotMoves(w, e, v, slot)
  {
  }

  lemma SubscribeFollows(w: Ledger, kind: Kind, c: Contract, wantsError: bool, a: Answer)
    requires Inv(w) && Wired(w) && forall slot :: slot in w.reg ==> w.reg[slot] < |w.streams|
    ensures RegOk(w) && Follows(w, Subscribing(kind, c, wantsError, a), Subscribe(w, kind, c, wantsError, a))
  {
    hide Inv, Follows, Find, Found, AddUser, AddHandle, Opens, Served;
    var e := Subscribing(kind, c, wantsError, a);
    assert Asked(e) == Some(Wish(kind, c, a));
    FindIsFound(w, e);
    var d, v := Found(w, e), Subscribe(w, kind, c, wantsError, a);
    var (d', got) := Find(w, kind, c, a);
    assert d' == d && (got.Ok? <==> Served(w, e).Some?);
    FoundParts(w, e);
    if got.Ok? { JoinIsJoined(d, got.value, c, wantsError); }
    JoinedFollows(w, e, v);
  }

  /** The served stream joined. */
  lemma JoinedFollows(w: Ledger, e: Event, v: Ledger)
    requires Inv(w) && Wired(w) && e.Subscribing?
    requires Served(w, e).Some? ==> Served(w, e).value < |Found(w, e).streams|
    requires var d := Found(w, e);
      v == if Served(w, e).None? then d
           else SetStream(d, Served(w, e).value, Joined(d, Served(w, e).value))
                  .(handles := w.handles + [Handle(Served(w, e).value, e.contract, e.wantsError, false, None, 0)])
    ensures RegOk(w) && Follows(w, e, v)
  {
    hide Inv, Follows, Found, Opens, Served;
    FoundParts(w, e);
    var d := Found(w, e);
    assert Served(w, e).None? ==> !Opens(w, e) by { OpensServes(w, e); }
    assert OnlyUsers(d, v);
    AskFollows(w, e, v);
  }

  lemma OpensServes(w: Ledger, e: Event)
    ensures Opens(w, e) ==> Served(w, e) == Some(|w.streams|)
  {
  }

  lemma FoundParts(w: Ledger, e: Event)
    ensures var d := Found(w, e);
      && d.handles == w.handles && d.inflight == w.inflight
      && |d.streams| == |w.streams| + Count(Opens(w, e))
      && (forall j :: 0 <= j < |w.streams| ==> d.streams[j] == w.streams[j])
      && (Opens(w, e) ==> d.streams[|w.streams|].subscribers == [] && Served(w, e) == Some(|w.streams|))
  {
  }

  lemma SnapshotStartFollows(w: Ledger, c: Contract, a: Answer)
    requires Inv(w) && Wired(w) && forall slot :: slot in w.reg ==> w.reg[slot] < |w.streams|
    ensures RegOk(w) && Follows(w, SnapshotStarts(c, a), SnapshotBegin(w, c, a))
  {
    hide Inv, Follows, Find, Found, Opens;
    var e := SnapshotStarts(c, a);
    assert Asked(e) == Some(Wish(Depth, c, a));
    FindIsFound(w, e);
    FoundParts(w, e);
    var d, v := Found(w, e), SnapshotBegin(w, c, a);
    var (d', got) := Find(w, Depth, c, a);
    assert d' == d && (got.Ok? <==> Served(w, e).Some?);
    assert OnlyUsers(d, v);
    AskFollows(w, e, v);
  }

  lemma TopStartFollows(w: Ledger, c: Contract, a: Answer)
    requires Inv(w) && Wired(w)
    ensures RegOk(w) && Follows(w, TopStarts(c, a), TopOfBook(w, c, a))
  {
    hide Inv, Follows, Find, Found, Opens;
    var e := TopStarts(c, a);
    FindIsFound(w, e);
    FoundParts(w, e);
    assert OnlyUsers(Found(w, e), TopOfBook(w, c, a));
    AskFollows(w, e, TopOfBook(w, c, a));
  }

  // ---- all streams at once --------------------------------------------------------------------

  function MovedStream(s: Stream, cancelOld: bool, m: Move): Stream {
    s.(hooked := Moves(cancelOld, m), reqId := if Moves(cancelOld, m) then m.answer.reqId else None,
       warning := if s.kind.Trades? then s.warning else None)
  }

  ghost predicate Names(w: Ledger) {
    forall slot :: slot in w.reg ==> w.reg[slot] < |w.streams| && w.streams[w.reg[slot]].At() == slot
  }

  /** How a sequence of moves leaves IB's side of a slot. */
  ghost predicate SlotResent(w: Ledger, v: Ledger, ids: seq<nat>, cancelOld: bool, moves: nat -> Move, slot: Slot) {
    v.open[slot] ==
      if slot in w.reg && w.reg[slot] in ids then
        var m, open := moves(w.reg[slot]), w.open[slot];
        (if cancelOld && !m.cancelRaises && open > 0 then open - 1 else open) + Count(Moves(cancelOld, m))
      else w.open[slot]
  }

  ghost predicate EachMoved(w: Ledger, v: Ledger, ids: seq<nat>, cancelOld: bool, moves: nat -> Move) {
    && v.cap == w.cap && v.reg == w.reg && v.handles == w.handles && v.inflight == w.inflight && v.leaked == w.leaked
    && |v.streams| == |w.streams|
    && (forall j: nat :: j < |w.streams| ==>
          v.streams[j] == if j in ids then MovedStream(w.streams[j], cancelOld, moves(j)) else w.streams[j])
    && (forall slot :: SlotResent(w, v, ids, cancelOld, moves, slot))
  }

  lemma OneMoved(w: Ledger, i: nat, cancelOld: bool, moves: nat -> Move)
    requires Names(w) && i < |w.streams| && Live(w, i)
    ensures EachMoved(w, Moved(w, i, cancelOld, moves(i)), [i], cancelOld, moves)
    ensures Names(Moved(w, i, cancelOld, moves(i)))
  {
    hide SlotResent, Live, Moved;
    var v := Moved(w, i, cancelOld, moves(i));
    MovedParts(w, i, cancelOld, moves(i));
    forall slot ensures SlotResent(w, v, [i], cancelOld, moves, slot) { OneResent(w, i, cancelOld, moves, slot); }
  }

  lemma MovedParts(w: Ledger, i: nat, cancelOld: bool, m: Move)
    requires i < |w.streams|
    ensures var v := Moved(w, i, cancelOld, m);
      && v.cap == w.cap && v.reg == w.reg && v.handles == w.handles && v.inflight == w.inflight && v.leaked == w.leaked
      && v.streams == w.streams[i := MovedStream(w.streams[i], cancelOld, m)]
  {
  }

  lemma OneResent(w: Ledger, i: nat, cancelOld: bool, moves: nat -> Move, slot: Slot)
    requires Names(w) && i < |w.streams| && Live(w, i)
    ensures SlotResent(w, Moved(w, i, cancelOld, moves(i)), [i], cancelOld, moves, slot)
  {
  }

  lemma EachMovedOn(w: Ledger, u: Ledger, v: Ledger, i: nat, ids: seq<nat>, cancelOld: bool, moves: nat -> Move)
    requires i !in ids && EachMoved(w, u, [i], cancelOld, moves) && EachMoved(u, v, ids, cancelOld, moves)
    ensures EachMoved(w, v, [i] + ids, cancelOld, moves)
  {
    forall slot ensures SlotResent(w, v, [i] + ids, cancelOld, moves, slot) {
      assert SlotResent(w, u, [i], cancelOld, moves, slot) && SlotResent(u, v, ids, cancelOld, moves, slot);
    }
  }

  lemma {:induction false} ResubscribeEachIs(w: Ledger, ids: seq<nat>, cancelOld: bool, moves: nat -> Move)
    requires Names(w) && Pending(w, ids)
    ensures EachMoved(w, ResubscribeEach(w, ids, cancelOld, moves), ids, cancelOld, moves)
    decreases |ids|
  {
    hide EachMoved, Names, Resubscribe, Moved, Live, NoDup;
    if ids == [] {
      assert EachMoved(w, w, ids, cancelOld, moves) by { NoneMoved(w, cancelOld, moves); }
    } else {
      var u := Moved(w, ids[0], cancelOld, moves(ids[0]));
      ResubscribeIsMoved(w, ids[0], cancelOld, moves(ids[0]));
      OneMoved(w, ids[0], cancelOld, moves);
      MovedPending(w, ids, cancelOld, moves(ids[0]));
      ResubscribeEachIs(u, ids[1..], cancelOld, moves);
      FirstIsOther(w, ids);
      EachMovedOn(w, u, ResubscribeEach(u, ids[1..], cancelOld, moves), ids[0], ids[1..], cancelOld, moves);
      assert [ids[0]] + ids[1..] == ids;
    }
  }

  lemma FirstIsOther(w: Ledger, ids: seq<nat>)
    requires Pending(w, ids) && ids != []
    ensures ids[0] !in ids[1..]
  {
    forall k | 0 <= k < |ids[1..]| ensures ids[1..][k] != ids[0] { assert ids[1..][k] == ids[k + 1]; }
  }

  lemma NoneMoved(w: Ledger, cancelOld: bool, moves: nat -> Move)
    ensures EachMoved(w, w, [], cancelOld, moves)
  {
  }

  lemma ResubscribeFollows(w: Ledger, cancelOld: bool, lost: bool, moves: nat -> Move)
    requires Inv(w) && Wired(w)
    ensures RegOk(w) && Follows(w, Resubscribing(cancelOld, lost, moves), ResubscribeAll(w, cancelOld, lost, moves))
  {
    hide RoutesOk, HandlesOk, IbOk, StreamOk, Settled, ResubscribeEach, Follows, EachMoved, Moves;
    var x, ids := Emptied(w, lost), InOrder(w, Trades, L1, Depth);
    EmptiedKeeps(w, lost);
    InOrderPending(x, Trades, L1, Depth);
    ResubscribeEachIs(x, ids, cancelOld, moves);
    AllMovedFollows(w, ResubscribeAll(w, cancelOld, lost, moves), ids, cancelOld, lost, moves);
  }

  lemma AllMovedFollows(w: Ledger, v: Ledger, ids: seq<nat>, cancelOld: bool, lost: bool, moves: nat -> Move)
    requires Inv(w) && Wired(w) && forall i: nat :: i in ids <==> i < |w.streams| && Live(w, i)
    requires EachMoved(Emptied(w, lost), v, ids, cancelOld, moves)
    ensures RegOk(w) && Follows(w, Resubscribing(cancelOld, lost, moves), v)
  {
    hide RoutesOk, HandlesOk, IbOk, StreamOk, Settled, Moves, StreamMoves, SlotMoves;
    var e := Resubscribing(cancelOld, lost, moves);
    forall j: nat | j < |w.streams| ensures StreamMoves(w, e, v, j) { MovedFollows(w, v, ids, cancelOld, lost, moves, j); }
    assert forall slot :: slot in w.reg ==> w.reg[slot] < |w.streams| by { RegNamesAll(w); }
    forall slot ensures SlotMoves(w, e, v, slot) {
      assert SlotResent(Emptied(w, lost), v, ids, cancelOld, moves, slot);
      SlotFollows(w, v, ids, cancelOld, lost, moves, slot);
    }
  }

  lemma MovedFollows(w: Ledger, v: Ledger, ids: seq<nat>, cancelOld: bool, lost: bool, moves: nat -> Move, j: nat)
    requires Inv(w) && j < |w.streams| == |v.streams| && (j in ids <==> Live(w, j)) && v.reg == w.reg
    requires v.streams[j] == if j in ids then MovedStream(w.streams[j], cancelOld, moves(j)) else w.streams[j]
    ensures StreamMoves(w, Resubscribing(cancelOld, lost, moves), v, j)
  {
    hide RegOk, RoutesOk, HandlesOk, IbOk, Settled, Moves;
    assert StreamOk(w, j);
  }

  lemma SlotFollows(w: Ledger, v: Ledger, ids: seq<nat>, cancelOld: bool, lost: bool, moves: nat -> Move, slot: Slot)
    requires RegOk(w) && (forall i: nat :: i in ids <==> i < |w.streams| && Live(w, i))
    requires SlotResent(Emptied(w, lost), v, ids, cancelOld, moves, slot) && v.leaked == Emptied(w, lost).leaked
    ensures SlotMoves(w, Resubscribing(cancelOld, lost, moves), v, slot)
  {
    hide Moves;
    if slot in w.reg { assert Live(w, w.reg[slot]); }
  }

  function EndedStream(s: Stream): Stream { s.(timer := false, hooked := false, reqId := None, retired := 1) }

  ghost predicate SlotDropped(w: Ledger, v: Ledger, ids: seq<nat>, raises: nat -> bool, slot: Slot) {
    var gone, open := slot in w.reg && w.reg[slot] in ids, w.open[slot];
    && (slot in v.reg <==> slot in w.reg && !gone) && (slot in v.reg ==> v.reg[slot] == w.reg[slot])
    && v.open[slot] == (if gone && !raises(w.reg[slot]) && open > 0 then open - 1 else open)
    && v.leaked[slot] == w.leaked[slot] + Count(gone && raises(w.reg[slot]))
  }

  ghost predicate EachDropped(w: Ledger, v: Ledger, ids: seq<nat>, raises: nat -> bool) {
    && v.cap == w.cap && v.handles == w.handles && v.inflight == w.inflight
    && |v.streams| == |w.streams|
    && (forall j: nat :: j < |w.streams| ==> v.streams[j] == if j in ids then EndedStream(w.streams[j]) else w.streams[j])
    && (forall slot :: SlotDropped(w, v, ids, raises, slot))
  }

  lemma OneDropped(w: Ledger, i: nat, raises: nat -> bool)
    requires Names(w) && i < |w.streams| && Live(w, i)
    ensures EachDropped(w, Dropped(w, i, raises(i)), [i], raises)
    ensures Names(Dropped(w, i, raises(i)))
  {
    var v := Dropped(w, i, raises(i));
    forall slot ensures SlotDropped(w, v, [i], raises, slot) {}
  }

  lemma EachDroppedOn(w: Ledger, u: Ledger, v: Ledger, i: nat, ids: seq<nat>, raises: nat -> bool)
    requires i !in ids && EachDropped(w, u, [i], raises) && EachDropped(u, v, ids, raises)
    ensures EachDropped(w, v, [i] + ids, raises)
  {
    forall slot ensures SlotDropped(w, v, [i] + ids, raises, slot) {
      assert SlotDropped(w, u, [i], raises, slot) && SlotDropped(u, v, ids, raises, slot);
    }
  }

  lemma {:induction false} DropEachIs(w: Ledger, ids: seq<nat>, raises: nat -> bool)
    requires Inv(w) && Names(w) && Pending(w, ids)
    ensures EachDropped(w, DropEach(w, ids, raises), ids, raises)
    decreases |ids|
  {
    hide EachDropped, Names, Shape, Core, StreamOk, Settled, Dropped, Live, NoDup, DropTrades, DropPersistent;
    if ids == [] {
      assert EachDropped(w, w, ids, raises) by { NoneDropped(w, raises); }
    } else {
      var i := ids[0];
      var u := Drop(w, i, raises(i));
      assert StreamOk(w, i) by { StreamIsOk(w, i); }
      DropIsDropped(w, i, raises(i));
      OneDropped(w, i, raises);
      DropSettled(w, i, raises(i));
      StillPending(w, ids, raises(i));
      DropEachIs(u, ids[1..], raises);
      FirstIsOther(w, ids);
      EachDroppedOn(w, u, DropEach(u, ids[1..], raises), i, ids[1..], raises);
      assert [ids[0]] + ids[1..] == ids;
    }
  }

  lemma StreamIsOk(w: Ledger, i: nat)
    requires Inv(w) && i < |w.streams|
    ensures StreamOk(w, i)
  {
  }

  lemma StillPending(w: Ledger, ids: seq<nat>, raises: bool)
    requires Inv(w) && Pending(w, ids) && ids != []
    ensures Pending(Drop(w, ids[0], raises), ids[1..])
  {
    hide RegOk, RoutesOk, HandlesOk, IbOk, StreamOk, Settled, Live, DropTrades, DropPersistent;
    DropKeeps(w, ids[0], raises);
    var u := Drop(w, ids[0], raises);
    forall k | 0 <= k < |ids[1..]| ensures ids[1..][k] < |u.streams| && Live(u, ids[1..][k]) {
      assert ids[1..][k] == ids[k + 1];
    }
  }

  lemma NoneDropped(w: Ledger, raises: nat -> bool)
    ensures EachDropped(w, w, [], raises)
  {
  }

  lemma DisconnectFollows(w: Ledger, raises: nat -> bool)
    requires Inv(w) && Wired(w)
    ensures RegOk(w) && Follows(w, Disconnecting(raises), ReleaseAll(w, raises))
  {
    hide RegOk, RoutesOk, HandlesOk, IbOk, StreamOk, Settled, DropEach, Follows, EachDropped;
    var ids := InOrder(w, L1, Depth, Trades);
    InOrderPending(w, L1, Depth, Trades);
    RegNamesAll(w);
    DropEachIs(w, ids, raises);
    ReleaseAllEmpties(w, raises);
    AllDroppedFollows(w, ReleaseAll(w, raises), ids, raises);
  }

  lemma AllDroppedFollows(w: Ledger, v: Ledger, ids: seq<nat>, raises: nat -> bool)
    requires Inv(w) && Wired(w) && forall i: nat :: i in ids <==> i < |w.streams| && Live(w, i)
    requires EachDropped(w, v, ids, raises) && v.reg == map[]
    ensures RegOk(w) && Follows(w, Disconnecting(raises), v)
  {
    hide RoutesOk, HandlesOk, IbOk, StreamOk, Settled;
    var e := Disconnecting(raises);
    forall j: nat | j < |w.streams| ensures StreamMoves(w, e, v, j) {}
    forall slot ensures SlotMoves(w, e, v, slot) {
      assert SlotDropped(w, v, ids, raises, slot);
      if slot in w.reg { assert Live(w, w.reg[slot]); }
    }
  }

  // ---- every step of every run ------------------------------------------------------------------

  lemma StepFollows(w: Ledger, e: Event)
    requires Inv(w) && Enabled(w, e)
    ensures Wired(w) && RegOk(w) && Follows(w, e, Step(w, e))
  {
    hide RegOk, RoutesOk, HandlesOk, IbOk, StreamOk, Settled, Follows, Subscribe, Close, SnapshotBegin, SnapshotEnd, TopOfBook,
         TimedOut, IdleExpired, StreamError, ResubscribeAll, ReleaseAll, FreshAll;
    InvGives(w);
    match e
    case Subscribing(kind, c, wantsError, a) => SubscribeFollows(w, kind, c, wantsError, a);
    case Closing(h, env) => ClosingFollows(w, h, env);
    case SnapshotStarts(c, a) => SnapshotStartFollows(w, c, a);
    case SnapshotEnds(i, late, env) => SnapshotEndFollows(w, i, late, env);
    case TopStarts(c, a) => TopStartFollows(w, c, a);
    case TopTimesOut(i, env) => TimeOutFollows(w, i, env);
    case TimerFires(i, env) => TimerFollows(w, i, env);
    case IbError(reqId, code, env) => ErrorFollows(w, reqId, code, env);
    case Resubscribing(cancelOld, lost, moves) => ResubscribeFollows(w, cancelOld, lost, moves);
    case Disconnecting(raises) => DisconnectFollows(w, raises);
  }

  lemma StepOfRun(cap: nat, states: seq<Ledger>, events: seq<Event>, n: nat)
    requires IsRun(cap, states, events) && n < |events|
    ensures Inv(states[n]) && Inv(states[n + 1]) && Enabled(states[n], events[n]) && states[n + 1] == Step(states[n], events[n])
  {
    hide Inv, Step, Enabled;
    EveryRunIsSound(cap, states, events, n + 1);
    assert Takes(states[n], events[n], states[n + 1]);
  }

  /**
    Every step of every run: the table says which streams end and which one is new, on which request
    every stream runs, who is listed on it and under which warning, what every handle shows, which
    snapshots run, and how often IB streams every slot.
  */
  lemma EveryStepFollowsTheTable(cap: nat, states: seq<Ledger>, events: seq<Event>, n: nat)
    requires IsRun(cap, states, events) && n < |events|
    ensures Wired(states[n]) && RegOk(states[n]) && Follows(states[n], events[n], states[n + 1])
  {
    hide Takes, Inv, Step, Enabled, Follows;
    StepOfRun(cap, states, events, n);
    StepFollows(states[n], events[n]);
  }

  /** A registered stream goes with a step exactly when the step is one of the events that end it; a dead one stays dead. */
  lemma EndsExactly(cap: nat, states: seq<Ledger>, events: seq<Event>, n: nat, i: nat)
    requires IsRun(cap, states, events) && n < |events| && i < |states[n].streams|
    ensures i < |states[n + 1].streams|
    ensures Live(states[n + 1], i) <==> Live(states[n], i) && !Ends(states[n], events[n], i)
  {
    hide Takes, Follows, Ends, Live;
    EveryStepFollowsTheTable(cap, states, events, n);
    FollowsStream(states[n], events[n], states[n + 1], i);
  }

  lemma FollowsStream(w: Ledger, e: Event, v: Ledger, i: nat)
    requires Wired(w) && RegOk(w) && Follows(w, e, v) && i < |w.streams|
    ensures |w.streams| <= |v.streams| && StreamMoves(w, e, v, i)
  {
    hide RegOk, HandlesMove, IbMoves, NewStreamIs, StreamMoves;
  }

  /** What of a registered stream's hold on the transport and on IB is the same in v. */
  ghost predicate KeepsHold(w: Ledger, v: Ledger, i: nat)
    requires i < |w.streams|
  {
    && i < |v.streams| && Live(v, i) && v.lines == w.lines && v.streams[i].reqId == w.streams[i].reqId
    && (w.streams[i].reqId.Some? ==> RouteOf(v, w.streams[i].reqId.value) == Some(i))
    && v.open[w.streams[i].At()] == w.open[w.streams[i].At()]
  }

  /** The stream gives up its slot, one line, its reqId and its timer, and is cancelled once. */
  ghost predicate GivesUp(w: Ledger, v: Ledger, i: nat)
    requires i < |w.streams|
  {
    var s := w.streams[i];
    && |v.streams| == |w.streams| && !Live(v, i) && v.reg == w.reg - {s.At()} && v.lines == w.lines - 1
    && (forall r :: r in v.routes <==> r in w.routes && w.routes[r] != i)
    && (forall r :: r in v.tradeRoutes <==> r in w.tradeRoutes && w.tradeRoutes[r] != i)
    && (forall r :: r in v.routes ==> v.routes[r] == w.routes[r])
    && (forall r :: r in v.tradeRoutes ==> v.tradeRoutes[r] == w.tradeRoutes[r])
    && v.streams[i].reqId.None? && !v.streams[i].timer && !v.streams[i].hooked && v.streams[i].retired == 1
    && s.retired == 0
    && forall j: nat :: j < |w.streams| && j != i ==> v.streams[j] == w.streams[j]
  }

  lemma DroppedGivesUp(w: Ledger, i: nat, raises: bool)
    requires RoutesOk(w) && i < |w.streams| && Live(w, i) && StreamOk(w, i)
    ensures GivesUp(w, Dropped(w, i, raises), i)
  {
    hide StreamOk;
    assert w.streams[i].retired == 0 by { StreamOkGives(w, i); }
    DroppedRoutes(w, i, raises);
  }

  lemma StreamOkGives(w: Ledger, i: nat)
    requires i < |w.streams| && Live(w, i) && StreamOk(w, i)
    ensures w.streams[i].retired == 0
  {
  }

  lemma DroppedRoutes(w: Ledger, i: nat, raises: bool)
    requires RoutesOk(w) && i < |w.streams|
    ensures var v := Dropped(w, i, raises);
      && (forall r :: r in v.routes <==> r in w.routes && w.routes[r] != i)
      && (forall r :: r in v.tradeRoutes <==> r in w.tradeRoutes && w.tradeRoutes[r] != i)
  {
    if w.streams[i].reqId.Some? { assert Routed(w, i); }
  }

  /**
    In every run, the deadline of an L1 read changes something if and only if the stream is registered and
    carries a soft warning (it has no counted users); and then the stream gives up its hold, and no handle
    and no other stream changes.
  */
  lemma TimeOutActsExactly(cap: nat, states: seq<Ledger>, events: seq<Event>, n: nat, i: nat, env: Env)
    requires IsRun(cap, states, events) && n < |events| && events[n] == TopTimesOut(i, env)
    ensures i < |states[n].streams|
    ensures var w, v := states[n], states[n + 1];
      && Users(w, i) == 0 && (v != w <==> Live(w, i) && w.streams[i].warning.Some?)
      && (v != w ==> GivesUp(w, v, i) && v.handles == w.handles && v.inflight == w.inflight)
  {
    hide Takes, Inv, Enabled, Step;
    StepOfRun(cap, states, events, n);
    TimeOutIs(states[n], i, env);
    TimeOutActs(states[n], i, env);
  }

  lemma TimeOutIs(w: Ledger, i: nat, env: Env)
    requires Inv(w) && Enabled(w, TopTimesOut(i, env))
    ensures i < |w.streams| && w.streams[i].kind.L1? && Step(w, TopTimesOut(i, env)) == TimedOut(w, i, env)
  {
    hide RegOk, RoutesOk, HandlesOk, IbOk, StreamOk, Settled, TimedOut;
  }

  /** The same of the deadline of any wait, of an L1 read or a depth snapshot: at most one user is the other condition. */
  lemma TimeOutActs(w: Ledger, i: nat, env: Env)
    requires Inv(w) && i < |w.streams| && !w.streams[i].kind.Trades?
    ensures var v := TimedOut(w, i, env);
      && (w.streams[i].kind.L1? ==> Users(w, i) == 0)
      && (v != w <==> Live(w, i) && w.streams[i].warning.Some? && Users(w, i) <= 1)
      && (v != w ==> GivesUp(w, v, i) && v.handles == w.handles && v.inflight == w.inflight)
  {
    hide RegOk, RoutesOk, HandlesOk, IbOk, Settled, Dropped, DropPersistent, GivesUp;
    assert StreamOk(w, i);
    RefsCountUsers(w, i);
    if Live(w, i) && w.streams[i].warning.Some? && w.streams[i].refs <= 1 {
      DropIsDropped(w, i, env.cancelRaises);
      DroppedGivesUp(w, i, env.cancelRaises);
      DroppedDiffers(w, i, env.cancelRaises);
    }
  }

  lemma DroppedDiffers(w: Ledger, i: nat, raises: bool)
    requires i < |w.streams|
    ensures var v := Dropped(w, i, raises); v != w && v.handles == w.handles && v.inflight == w.inflight
  {
    assert Dropped(w, i, raises).lines != w.lines;
  }

  /** The event takes the last user of stream i away. */
  ghost predicate LastLeaves(w: Ledger, e: Event, i: nat) {
    && i < |w.streams| && Users(w, i) == 1
    && match e
       case Closing(h, _) => OpenOn(w, h, i)
       case SnapshotEnds(j, _, _) => j == i && w.inflight[i] > 0
       case _ => false
  }

  function LoopRuns(e: Event): bool {
    match e
    case Closing(_, env) => env.loop
    case SnapshotEnds(_, _, env) => env.loop
    case _ => true
  }

  /**
    In every run, when the last user leaves a registered depth stream: without a loop the stream gives up
    its hold; with one it keeps it, registered, on its line, its reqId and its request, and the timer is
    armed. Only a snapshot that times out under a soft warning ends it at once even so.
  */
  lemma LastUserLeavesDepth(cap: nat, states: seq<Ledger>, events: seq<Event>, n: nat, i: nat)
    requires IsRun(cap, states, events) && n < |events| && LastLeaves(states[n], events[n], i)
    requires states[n].streams[i].kind.Depth? && Live(states[n], i)
    ensures var w, e, v := states[n], events[n], states[n + 1];
      if !LoopRuns(e) || (e.SnapshotEnds? && e.timedOut && w.streams[i].warning.Some?)
      then !Live(v, i) && v.lines == w.lines - 1 && v.streams[i].reqId.None? && v.streams[i].retired == 1
      else KeepsHold(w, v, i) && v.streams[i].timer && Users(v, i) == 0
  {
    hide Takes, Inv, Follows, Ends, Users, Live, KeepsHold, Step, Enabled;
    var w, e, v := states[n], events[n], states[n + 1];
    EveryStepFollowsTheTable(cap, states, events, n);
    EndsExactly(cap, states, events, n, i);
    StepOfRun(cap, states, events, n);
    LastEnds(w, e, i);
    SameSlot(w, e, i);
    if Live(v, i) { HoldKept(w, e, v, i); } else { HoldGone(w, e, v, i); }
  }

  lemma SameSlot(w: Ledger, e: Event, i: nat)
    requires Inv(w) && Enabled(w, e) && i < |w.streams|
    ensures var v := Step(w, e); i < |v.streams| && v.streams[i].At() == w.streams[i].At()
  {
    hide Inv, Step, Enabled;
    StepEvolves(w, e);
  }

  lemma LastEnds(w: Ledger, e: Event, i: nat)
    requires LastLeaves(w, e, i) && w.streams[i].kind.Depth?
    ensures Ends(w, e, i) <==> (!LoopRuns(e) || (e.SnapshotEnds? && e.timedOut && w.streams[i].warning.Some?))
    ensures OfOne(e, w, i)
  {
  }

  /** The lines move by what is no longer registered. */
  lemma LinesMove(w: Ledger, e: Event, v: Ledger, i: nat)
    requires Wired(w) && RegOk(w) && RegOk(v) && i < |w.streams| && OfOne(e, w, i) && Live(w, i) && Follows(w, e, v)
    ensures v.lines == w.lines - Count(!Live(v, i))
  {
    hide RegOk, HandlesMove, IbMoves, Ends;
    OthersStay(w, e, i);
    LinesCountStreams(w);
    LinesCountStreams(v);
    forall j: nat | j < |w.streams| ensures Live(v, j) <==> Live(w, j) && !Ends(w, e, j) { assert StreamMoves(w, e, v, j); }
    assert Active(v) == if Live(v, i) then Active(w) else Active(w) - {i};
  }

  lemma HoldGone(w: Ledger, e: Event, v: Ledger, i: nat)
    requires Inv(w) && Inv(v) && Wired(w) && RegOk(w) && Follows(w, e, v) && i < |w.streams| && i < |v.streams|
    requires OfOne(e, w, i) && Live(w, i) && !Live(v, i)
    ensures v.lines == w.lines - 1 && v.streams[i].reqId.None? && v.streams[i].retired == 1
  {
    hide RegOk, RoutesOk, HandlesOk, IbOk, Settled, Follows, Live;
    LinesMove(w, e, v, i);
    assert StreamOk(v, i);
  }

  lemma HoldKept(w: Ledger, e: Event, v: Ledger, i: nat)
    requires Inv(w) && Inv(v) && Wired(w) && RegOk(w) && Follows(w, e, v) && i < |w.streams| && i < |v.streams|
    requires OfOne(e, w, i) && LastLeaves(w, e, i) && Live(w, i) && Live(v, i) && w.streams[i].kind.Depth?
    requires v.streams[i].At() == w.streams[i].At()
    ensures KeepsHold(w, v, i) && v.streams[i].timer && Users(v, i) == 0
  {
    hide RegOk, RoutesOk, HandlesOk, IbOk, StreamOk, Settled, Follows, Live, Ends, KeepsHold;
    HoldStays(w, e, v, i);
    UsersGone(w, e, v, i);
    IdleIsArmed(v, i);
  }

  lemma UsersGone(w: Ledger, e: Event, v: Ledger, i: nat)
    requires Wired(w) && RegOk(w) && Follows(w, e, v) && LastLeaves(w, e, i)
    ensures Users(v, i) == 0
  {
    hide RegOk, StreamsMove, IbMoves, NewStreamIs;
    match e
    case Closing(h, _) => assert OpenHandles(v, i) == OpenHandles(w, i) - {h}; assert h in OpenHandles(w, i);
    case SnapshotEnds(_, _, _) => assert OpenHandles(v, i) == OpenHandles(w, i);
  }

  lemma IdleIsArmed(v: Ledger, i: nat)
    requires Inv(v) && i < |v.streams| && Live(v, i) && v.streams[i].kind.Depth? && Users(v, i) == 0
    ensures v.streams[i].timer
  {
    assert StreamOk(v, i) && Settled(v, i);
    hide RegOk, RoutesOk, IbOk, StreamOk;
    RefsCountUsers(v, i);
  }

  lemma SameRequest(w: Ledger, e: Event, v: Ledger, i: nat)
    requires Wired(w) && RegOk(w) && Follows(w, e, v) && i < |w.streams| && OfOne(e, w, i) && Live(w, i)
    requires |w.streams| <= |v.streams| && Live(v, i)
    ensures v.streams[i].reqId == w.streams[i].reqId && v.open[w.streams[i].At()] == w.open[w.streams[i].At()]
  {
    hide HandlesMove, NewStreamIs, Ends;
    OthersStay(w, e, i);
    Calm(w, e, i);
    assert StreamMoves(w, e, v, i) && SlotMoves(w, e, v, w.streams[i].At());
  }

  lemma StillRouted(v: Ledger, i: nat)
    requires Inv(v) && i < |v.streams| && v.streams[i].reqId.Some?
    ensures RouteOf(v, v.streams[i].reqId.value) == Some(i)
  {
    assert Routed(v, i);
  }

  /**
    In every run, a depth snapshot that times out while a loop runs and no warning was given, or while others
    use the stream too, leaves the stream registered, on its line, its reqId and its request.
  */
  lemma UnwarnedTimeOutKeeps(cap: nat, states: seq<Ledger>, events: seq<Event>, n: nat, i: nat, env: Env)
    requires IsRun(cap, states, events) && n < |events| && events[n] == SnapshotEnds(i, true, env)
    requires i < |states[n].streams| && Live(states[n], i)
    requires (env.loop && states[n].streams[i].warning.None?) || Users(states[n], i) != 1
    ensures KeepsHold(states[n], states[n + 1], i)
  {
    hide Takes, Inv, Follows, Ends, Users, Live, KeepsHold, Step, Enabled;
    var w, e, v := states[n], events[n], states[n + 1];
    EveryStepFollowsTheTable(cap, states, events, n);
    EndsExactly(cap, states, events, n, i);
    StepOfRun(cap, states, events, n);
    SameSlot(w, e, i);
    assert !Ends(w, e, i) by { UnwarnedEnds(w, e, i); }
    HoldStays(w, e, v, i);
  }

  lemma UnwarnedEnds(w: Ledger, e: Event, i: nat)
    requires i < |w.streams| && e.SnapshotEnds?
    requires (e.env.loop && w.streams[i].warning.None?) || Users(w, i) != 1
    ensures !Ends(w, e, i)
  {
  }

  lemma HoldStays(w: Ledger, e: Event, v: Ledger, i: nat)
    requires Inv(w) && Inv(v) && Wired(w) && RegOk(w) && Follows(w, e, v) && i < |w.streams| && i < |v.streams|
    requires OfOne(e, w, i) && Live(w, i) && Live(v, i) && v.streams[i].At() == w.streams[i].At()
    ensures KeepsHold(w, v, i)
  {
    hide RegOk, RoutesOk, HandlesOk, IbOk, StreamOk, Settled, Follows, Live, Ends;
    LinesMove(w, e, v, i);
    FollowsStream(w, e, v, i);
    SameRequest(w, e, v, i);
    if v.streams[i].reqId.Some? { StillRouted(v, i); }
  }

  /** As long as no event ends it, a registered stream stays the same registered object. */
  lemma {:induction false} StaysUntilEnded(cap: nat, states: seq<Ledger>, events: seq<Event>, m: nat, n: nat, i: nat)
    requires IsRun(cap, states, events) && m <= n < |states| && i < |states[m].streams| && Live(states[m], i)
    requires forall k :: m <= k < n ==> i < |states[k].streams| && !Ends(states[k], events[k], i)
    ensures i < |states[n].streams| && Live(states[n], i) && states[n].streams[i].At() == states[m].streams[i].At()
    decreases n
  {
    hide Takes, Ends, Live, Inv, Step, Enabled;
    if m < n {
      StaysUntilEnded(cap, states, events, m, n - 1, i);
      EndsExactly(cap, states, events, n - 1, i);
      StepOfRun(cap, states, events, n - 1);
      SameSlot(states[n - 1], events[n - 1], i);
    }
  }

  /**
    A subscriber that comes while a stream is registered under its key, idle or not, joins that very object,
    without a new request: nothing is sent to IB, no line is taken, and the idle timer is off.
  */
  lemma SubscriberJoinsRegistered(cap: nat, states: seq<Ledger>, events: seq<Event>, n: nat, i: nat)
    requires IsRun(cap, states, events) && n < |events| && events[n].Subscribing? && i < |states[n].streams|
    requires Live(states[n], i) && states[n].streams[i].At() == Slot(events[n].kind, StreamKey(events[n].contract))
    ensures var w, e, v := states[n], events[n], states[n + 1];
      && |v.streams| == |w.streams| && v.lines == w.lines && v.open == w.open && Live(v, i) && !v.streams[i].timer
      && v.streams[i].reqId == w.streams[i].reqId
      && v.handles == w.handles + [Handle(i, e.contract, e.wantsError, false, None, 0)]
      && v.streams[i].subscribers == w.streams[i].subscribers + [|w.handles|]
  {
    hide Takes, Enabled;
    StepOfRun(cap, states, events, n);
    JoinedState(states[n], events[n], i);
  }

  lemma JoinedState(w: Ledger, e: Event, i: nat)
    requires Inv(w) && Enabled(w, e) && e.Subscribing? && i < |w.streams|
    requires Live(w, i) && w.streams[i].At() == Slot(e.kind, StreamKey(e.contract))
    ensures var v := Step(w, e);
      && |v.streams| == |w.streams| && v.lines == w.lines && v.open == w.open && Live(v, i) && !v.streams[i].timer
      && v.streams[i].reqId == w.streams[i].reqId
      && v.handles == w.handles + [Handle(i, e.contract, e.wantsError, false, None, 0)]
      && v.streams[i].subscribers == w.streams[i].subscribers + [|w.handles|]
  {
    hide RegOk, RoutesOk, HandlesOk, IbOk, Settled;
    assert StreamOk(w, i);
    InvGives(w);
    JoinIsJoined(w, i, e.contract, e.wantsError);
  }

  /** When two contracts share a stream: both have one IB id, or neither has an id and they are equal. */
  lemma KeysAgreeExactly(c: Contract, d: Contract)
    ensures StreamKey(c) == StreamKey(d) <==>
      if c.contractId != "" then d.contractId == c.contractId else c == d
  {
  }
}
