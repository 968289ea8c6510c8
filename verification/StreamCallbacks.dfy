/**
  Error callbacks that subscribe again. A subscriber's on_error runs in the middle of the loop that
  tells the subscribers of a failed stream; whatever it subscribes there, the outcome is that of
  telling all of them first and subscribing afterwards, so it is a state of a run of the ledger.
*/
module StreamCallbacks {
  import opened Prelude
  import opened StreamLedger
  import opened StreamSafety

  /** A call of subscribe() from inside a callback, with what IB answers. */
  datatype Again = Again(kind: Kind, contract: Contract, wantsError: bool, answer: Answer)

  /** The registry names each slot's stream. */
  predicate Sound(w: Ledger) {
    forall slot :: slot in w.reg ==> w.reg[slot] < |w.streams| && w.streams[w.reg[slot]].At() == slot
  }

  function SubscribeOne(w: Ledger, a: Again): Ledger
    requires Sound(w)
  {
    Subscribe(w, a.kind, a.contract, a.wantsError, a.answer)
  }

  function SubscribeAll(w: Ledger, again: seq<Again>): Ledger
    requires Sound(w)
    decreases |again|
  {
    if again == [] then w
    else
      SubscribeSound(w, again[0]);
      SubscribeAll(SubscribeOne(w, again[0]), again[1..])
  }

  lemma SubscribeSound(w: Ledger, a: Again)
    requires Sound(w)
    ensures Sound(SubscribeOne(w, a))
    ensures |SubscribeOne(w, a).handles| >= |w.handles|
    ensures Wired(w) ==> Wired(SubscribeOne(w, a))
  {
    hide Find, AddUser, AddHandle, Sound, Wired;
    FindSound(w, a);
    var (v, r) := Find(w, a.kind, a.contract, a.answer);
    if r.Ok? { JoinSound(v, r.value, a); }
  }

  lemma FindSound(w: Ledger, a: Again)
    requires Sound(w)
    ensures var (v, r) := Find(w, a.kind, a.contract, a.answer);
      Sound(v) && v.handles == w.handles && (Wired(w) ==> Wired(v)) && (r.Ok? ==> r.value < |v.streams|)
  {
    hide Find;
    FindUnlessNew(w, a.kind, a.contract, a.answer);
    if Slot(a.kind, StreamKey(a.contract)) !in w.reg && w.lines < w.cap && a.answer.Sent? {
      FindIsOpened(w, a.kind, a.contract, a.answer);
    }
  }

  lemma FindUnlessNew(w: Ledger, kind: Kind, c: Contract, a: Answer)
    ensures Slot(kind, StreamKey(c)) in w.reg ==> Find(w, kind, c, a) == (w, Ok(w.reg[Slot(kind, StreamKey(c))]))
    ensures Slot(kind, StreamKey(c)) !in w.reg && w.lines >= w.cap ==> Find(w, kind, c, a) == (w, Err(LinesExhausted))
    ensures Slot(kind, StreamKey(c)) !in w.reg && w.lines < w.cap && a.Raises? ==>
      Find(w, kind, c, a) == (w, Err(RequestFailed))
  {
  }

  lemma JoinSound(v: Ledger, j: nat, a: Again)
    requires Sound(v) && j < |v.streams|
    ensures var u := AddHandle(AddUser(v, j), j, a.contract, a.wantsError);
      Sound(u) && |u.handles| == |v.handles| + 1 && (Wired(v) ==> Wired(u))
  {
  }

  lemma {:induction false} SubscribeAllSound(w: Ledger, again: seq<Again>)
    requires Sound(w)
    ensures Sound(SubscribeAll(w, again)) && |SubscribeAll(w, again).handles| >= |w.handles|
    ensures Wired(w) ==> Wired(SubscribeAll(w, again))
    decreases |again|
  {
    hide SubscribeOne, Wired;
    if again != [] {
      SubscribeSound(w, again[0]);
      SubscribeAllSound(SubscribeOne(w, again[0]), again[1..]);
    }
  }

  lemma {:induction false} SubscribeAppend(w: Ledger, a: seq<Again>, b: seq<Again>)
    requires Sound(w)
    ensures Sound(SubscribeAll(w, a)) && SubscribeAll(w, a + b) == SubscribeAll(SubscribeAll(w, a), b)
    decreases |a|
  {
    hide SubscribeOne;
    if a == [] {
      assert a + b == b;
    } else {
      SubscribeSound(w, a[0]);
      assert (a + b)[1..] == a[1..] + b;
      SubscribeAppend(SubscribeOne(w, a[0]), a[1..], b);
    }
  }

  /** A subscriber that has an error callback and is not closed when its turn comes. */
  predicate CallsBack(w: Ledger, h: nat)
    requires h < |w.handles|
  {
    !w.handles[h].closed && w.handles[h].wantsError
  }

  /** The loop of the failure, each callback subscribing what it likes before the next subscriber is told. */
  function NotifyAllWith(w: Ledger, hs: seq<nat>, code: int, env: Env, calls: nat -> seq<Again>): Ledger
    requires Wired(w) && Sound(w) && Known(w, hs)
    decreases |hs|
  {
    if hs == [] then w
    else
      var v := Notify(w, hs[0], code, env);
      NotifySound(w, hs[0], code, env);
      var again := if CallsBack(w, hs[0]) then calls(hs[0]) else [];
      SubscribeAllSound(v, again);
      NotifyAllWith(SubscribeAll(v, again), hs[1..], code, env, calls)
  }

  lemma NotifySound(w: Ledger, h: nat, code: int, env: Env)
    requires Wired(w) && Sound(w) && h < |w.handles|
    ensures Sound(Notify(w, h, code, env))
  {
    hide Close;
    if !w.handles[h].closed {
      CloseSound(w.(handles := w.handles[h := w.handles[h].(error := Some(code))]), h, env);
    }
  }

  lemma CloseSound(w: Ledger, h: nat, env: Env)
    requires Wired(w) && Sound(w) && h < |w.handles|
    ensures Sound(Close(w, h, env))
  {
    hide Release;
    var hd := w.handles[h];
    var w1 := w.(handles := w.handles[h := hd.(closed := true)]);
    SetSound(w1, hd.stream, w.streams[hd.stream].(subscribers := Remove(w.streams[hd.stream].subscribers, h)));
    ReleaseSound(SetStream(w1, hd.stream, w.streams[hd.stream].(subscribers := Remove(w.streams[hd.stream].subscribers, h))),
                 hd.stream, env);
  }

  lemma ReleaseSound(w: Ledger, i: nat, env: Env)
    requires Sound(w) && i < |w.streams|
    ensures Sound(Release(w, i, env))
  {
    hide DropTrades, DropPersistent, Sound;
    var w1 := SetStream(w, i, w.streams[i].(refs := w.streams[i].refs - 1));
    SetSound(w, i, w1.streams[i]);
    DropSound(w1, i, env.cancelRaises);
    SetSound(w1, i, w1.streams[i].(timer := true));
  }

  lemma SetSound(w: Ledger, i: nat, s: Stream)
    requires Sound(w) && i < |w.streams| && s.kind == w.streams[i].kind && s.contract == w.streams[i].contract
    ensures Sound(SetStream(w, i, s))
  {
  }

  lemma DropSound(w: Ledger, i: nat, raises: bool)
    requires Sound(w) && i < |w.streams|
    ensures Sound(DropTrades(w, i, raises)) && Sound(DropPersistent(w, i, raises))
  {
    hide DropTrades, DropPersistent;
    DropEvolves(w, i, raises);
    DropTradesShrinks(w, i, raises);
    DropPersistentShrinks(w, i, raises);
  }

  lemma DropTradesShrinks(w: Ledger, i: nat, raises: bool)
    requires i < |w.streams|
    ensures var v := DropTrades(w, i, raises); forall slot :: slot in v.reg ==> slot in w.reg && v.reg[slot] == w.reg[slot]
  {
  }

  lemma DropPersistentShrinks(w: Ledger, i: nat, raises: bool)
    requires i < |w.streams|
    ensures var v := DropPersistent(w, i, raises); forall slot :: slot in v.reg ==> slot in w.reg && v.reg[slot] == w.reg[slot]
  {
  }

  /** What all callbacks subscribe, in the order in which they run. */
  function AllAgain(handles: seq<Handle>, hs: seq<nat>, calls: nat -> seq<Again>): seq<Again>
    requires forall k :: 0 <= k < |hs| ==> hs[k] < |handles|
    decreases |hs|
  {
    if hs == [] then []
    else (if handles[hs[0]].wantsError then calls(hs[0]) else []) + AllAgain(handles, hs[1..], calls)
  }

  // ---- telling and subscribing commute ----------------------------------------------------------

  lemma FindCommutes(w: Ledger, i: nat, h: nat, code: int, kind: Kind, c: Contract, a: Answer)
    requires i < |w.streams| && h < |w.handles|
    ensures var (v, r) := Find(w, kind, c, a);
      i < |v.streams| && v.handles == w.handles && Find(Heard(w, i, h, code), kind, c, a) == (Heard(v, i, h, code), r)
  {
    hide Find, Heard;
    FindUnlessNew(w, kind, c, a);
    HeardParts(w, i, h, code);
    var u := Heard(w, i, h, code);
    FindUnlessNew(u, kind, c, a);
    if Slot(kind, StreamKey(c)) !in w.reg && w.lines < w.cap && a.Sent? {
      FindIsOpened(w, kind, c, a);
      FindIsOpened(u, kind, c, a);
      OpenedCommutes(w, i, h, code, kind, c, a.reqId);
    }
  }

  lemma HeardParts(w: Ledger, i: nat, h: nat, code: int)
    requires i < |w.streams| && h < |w.handles|
    ensures var u := Heard(w, i, h, code);
      u.reg == w.reg && u.lines == w.lines && u.cap == w.cap && |u.streams| == |w.streams| && |u.handles| == |w.handles|
  {
  }

  lemma OpenedCommutes(w: Ledger, i: nat, h: nat, code: int, kind: Kind, c: Contract, reqId: Option<nat>)
    requires i < |w.streams| && h < |w.handles|
    ensures var v := Opened(w, kind, c, reqId);
      i < |v.streams| && v.handles == w.handles && Opened(Heard(w, i, h, code), kind, c, reqId) == Heard(v, i, h, code)
  {
    var s := w.streams[i].(refs := w.streams[i].refs - 1);
    var added := [NewStream(kind, c).(hooked := true, reqId := reqId)];
    assert w.streams[i := s] + added == (w.streams + added)[i := s];
  }

  lemma JoinCommutes(v: Ledger, i: nat, h: nat, code: int, j: nat, c: Contract, wantsError: bool)
    requires i < |v.streams| && j < |v.streams| && i != j && h < |v.handles|
    ensures var u := AddHandle(AddUser(v, j), j, c, wantsError);
      && i < |u.streams| && h < |u.handles|
      && AddHandle(AddUser(Heard(v, i, h, code), j), j, c, wantsError) == Heard(u, i, h, code)
  {
    var x, y := v.streams[i].(refs := v.streams[i].refs - 1), AddUser(v, j).streams[j];
    var z := y.(subscribers := y.subscribers + [|v.handles|]);
    UpdateTwice(v.streams, j, y, z);
    UpdateTwice(v.streams[i := x], j, y, z);
    assert v.streams[i := x][j := z] == v.streams[j := z][i := x];
    var added, told := [Handle(j, c, wantsError, false, None, 0)], Told(v.handles[h], code);
    assert v.handles[h := told] + added == (v.handles + added)[h := told];
  }

  lemma HeardSound(w: Ledger, i: nat, h: nat, code: int)
    requires Sound(w) && i < |w.streams| && h < |w.handles|
    ensures Sound(Heard(w, i, h, code))
  {
  }

  /** Telling a subscriber of a dropped stream and subscribing elsewhere do not see each other. */
  lemma SubscribeCommutes(w: Ledger, i: nat, h: nat, code: int, a: Again)
    requires Sound(w) && i < |w.streams| && !Live(w, i) && h < |w.handles|
    ensures Sound(Heard(w, i, h, code))
    ensures var v := SubscribeOne(w, a);
      && i < |v.streams| && h < |v.handles| && !Live(v, i)
      && SubscribeOne(Heard(w, i, h, code), a) == Heard(v, i, h, code)
  {
    hide Find, Heard, AddUser, AddHandle;
    HeardParts(w, i, h, code);
    HeardSound(w, i, h, code);
    FindCommutes(w, i, h, code, a.kind, a.contract, a.answer);
    FoundIsOther(w, i, a);
    var (v, r) := Find(w, a.kind, a.contract, a.answer);
    if r.Ok? {
      JoinCommutes(v, i, h, code, r.value, a.contract, a.wantsError);
      StillDropped(v, i, r.value, a);
    }
  }

  /** What a subscription finds or opens is never the dropped object, which stays dropped. */
  lemma FoundIsOther(w: Ledger, i: nat, a: Again)
    requires Sound(w) && i < |w.streams| && !Live(w, i)
    ensures var (v, r) := Find(w, a.kind, a.contract, a.answer);
      && Sound(v) && i < |v.streams| && !Live(v, i) && v.streams[i] == w.streams[i]
      && (r.Ok? ==> r.value < |v.streams| && r.value != i)
  {
    hide Find;
    FindUnlessNew(w, a.kind, a.contract, a.answer);
    var slot := Slot(a.kind, StreamKey(a.contract));
    if slot !in w.reg && w.lines < w.cap && a.answer.Sent? {
      FindIsOpened(w, a.kind, a.contract, a.answer);
    }
  }

  lemma StillDropped(v: Ledger, i: nat, j: nat, a: Again)
    requires i < |v.streams| && !Live(v, i) && j < |v.streams| && i != j
    ensures var u := AddHandle(AddUser(v, j), j, a.contract, a.wantsError);
      && i < |u.streams| && !Live(u, i) && u.streams[i] == v.streams[i]
      && |u.handles| == |v.handles| + 1 && u.handles[..|v.handles|] == v.handles
  {
  }

  lemma {:induction false} SubscribeAllCommutes(w: Ledger, i: nat, h: nat, code: int, again: seq<Again>)
    requires Sound(w) && i < |w.streams| && !Live(w, i) && h < |w.handles|
    ensures Sound(Heard(w, i, h, code))
    ensures var v := SubscribeAll(w, again);
      && Sound(v) && i < |v.streams| && h < |v.handles| && !Live(v, i)
      && SubscribeAll(Heard(w, i, h, code), again) == Heard(v, i, h, code)
    decreases |again|
  {
    hide SubscribeOne, Heard, Live;
    HeardSound(w, i, h, code);
    if again != [] {
      SubscribeSound(w, again[0]);
      SubscribeCommutes(w, i, h, code, again[0]);
      SubscribeAllCommutes(SubscribeOne(w, again[0]), i, h, code, again[1..]);
    }
  }

  /** Subscribing leaves the dropped object and the handles there were as they are. */
  lemma SubscribeKeepsCleared(w: Ledger, i: nat, hs: seq<nat>, a: Again)
    requires Sound(w) && Cleared(w, i, hs)
    ensures Cleared(SubscribeOne(w, a), i, hs)
    ensures SubscribeOne(w, a).handles[..|w.handles|] == w.handles
  {
    hide Find, AddUser, AddHandle, NoDup;
    SubscribeSound(w, a);
    FoundIsOther(w, i, a);
    FindKeepsHandles(w, a);
    var (v, r) := Find(w, a.kind, a.contract, a.answer);
    if r.Ok? { StillDropped(v, i, r.value, a); }
    var u := SubscribeOne(w, a);
    forall k | 0 <= k < |w.handles| ensures u.handles[k] == w.handles[k] { assert u.handles[..|w.handles|][k] == u.handles[k]; }
  }

  lemma FindKeepsHandles(w: Ledger, a: Again)
    ensures Find(w, a.kind, a.contract, a.answer).0.handles == w.handles
  {
  }

  lemma {:induction false} SubscribeAllKeepsCleared(w: Ledger, i: nat, hs: seq<nat>, again: seq<Again>)
    requires Sound(w) && Cleared(w, i, hs)
    ensures Sound(SubscribeAll(w, again)) && Cleared(SubscribeAll(w, again), i, hs)
    ensures |SubscribeAll(w, again).handles| >= |w.handles|
    ensures SubscribeAll(w, again).handles[..|w.handles|] == w.handles
    decreases |again|
  {
    hide SubscribeOne, Cleared;
    if again != [] {
      var v := SubscribeOne(w, again[0]);
      SubscribeSound(w, again[0]);
      SubscribeKeepsCleared(w, i, hs, again[0]);
      SubscribeAllKeepsCleared(v, i, hs, again[1..]);
      assert v.handles[..|w.handles|] == SubscribeAll(w, again).handles[..|v.handles|][..|w.handles|];
    }
  }

  // ---- the loop ---------------------------------------------------------------------------------

  lemma {:induction false} SameAgain(a: seq<Handle>, b: seq<Handle>, hs: seq<nat>, calls: nat -> seq<Again>)
    requires forall k :: 0 <= k < |hs| ==> hs[k] < |a| && hs[k] < |b| && a[hs[k]].wantsError == b[hs[k]].wantsError
    ensures AllAgain(a, hs, calls) == AllAgain(b, hs, calls)
    decreases |hs|
  {
    if hs != [] { SameAgain(a, b, hs[1..], calls); }
  }

  /** Subscriptions made before the loop may as well be made after it. */
  lemma {:induction false} NotifyAllCommutes(w: Ledger, i: nat, hs: seq<nat>, code: int, env: Env, again: seq<Again>)
    requires Sound(w) && Cleared(w, i, hs)
    ensures Sound(NotifyAll(w, hs, code, env))
    ensures var v := SubscribeAll(w, again);
      && Wired(v) && Known(v, hs)
      && NotifyAll(v, hs, code, env) == SubscribeAll(NotifyAll(w, hs, code, env), again)
    decreases |hs|
  {
    hide Notify, Heard, Live, Cleared, SubscribeAll, Sound;
    SubscribeAllKeepsCleared(w, i, hs, again);
    ClearedGives(w, i, hs);
    var v := SubscribeAll(w, again);
    ClearedGives(v, i, hs);
    if hs != [] {
      ClearedNext(w, i, hs, code);
      ClearedNext(v, i, hs, code);
      NotifyIs(w, i, hs[0], code, env);
      NotifyIs(v, i, hs[0], code, env);
      SubscribeAllCommutes(w, i, hs[0], code, again);
      NotifyAllCommutes(Heard(w, i, hs[0], code), i, hs[1..], code, env, again);
    }
  }

  lemma ClearedGives(w: Ledger, i: nat, hs: seq<nat>)
    requires Cleared(w, i, hs)
    ensures Wired(w) && Known(w, hs) && i < |w.streams| && !Live(w, i)
    ensures forall k :: 0 <= k < |hs| ==> !w.handles[hs[k]].closed
  {
  }

  /** Subscribing in the callbacks is subscribing once the loop is over. */
  lemma {:induction false} CallbacksCommute(w: Ledger, i: nat, hs: seq<nat>, code: int, env: Env, calls: nat -> seq<Again>)
    requires Sound(w) && Cleared(w, i, hs)
    ensures Wired(w) && Known(w, hs) && Sound(NotifyAll(w, hs, code, env))
    ensures NotifyAllWith(w, hs, code, env, calls)
      == SubscribeAll(NotifyAll(w, hs, code, env), AllAgain(w.handles, hs, calls))
    decreases |hs|
  {
    hide Notify, Heard, Live, Cleared, SubscribeAll, Sound;
    ClearedGives(w, i, hs);
    if hs == [] {
      SubscribeNone(w);
    } else {
      ClearedNext(w, i, hs, code);
      NotifyIs(w, i, hs[0], code, env);
      var v := Heard(w, i, hs[0], code);
      HeardSound(w, i, hs[0], code);
      var again := if CallsBack(w, hs[0]) then calls(hs[0]) else [];
      SubscribeAllKeepsCleared(v, i, hs[1..], again);
      CallbacksCommute(SubscribeAll(v, again), i, hs[1..], code, env, calls);
      NotifyAllCommutes(v, i, hs[1..], code, env, again);
      HandlesSame(w, v, SubscribeAll(v, again), i, hs, code, calls);
      SubscribeAppend(NotifyAll(v, hs[1..], code, env), again, AllAgain(w.handles, hs[1..], calls));
    }
  }

  lemma SubscribeNone(w: Ledger)
    requires Sound(w)
    ensures SubscribeAll(w, []) == w
  {
  }

  lemma HandlesSame(w: Ledger, v: Ledger, u: Ledger, i: nat, hs: seq<nat>, code: int, calls: nat -> seq<Again>)
    requires hs != [] && Known(w, hs) && i < |w.streams| && v == Heard(w, i, hs[0], code)
    requires |u.handles| >= |v.handles| && u.handles[..|v.handles|] == v.handles
    ensures forall k :: 0 <= k < |hs[1..]| ==> hs[1..][k] < |u.handles| && hs[1..][k] < |w.handles|
    ensures AllAgain(u.handles, hs[1..], calls) == AllAgain(w.handles, hs[1..], calls)
  {
    forall k | 0 <= k < |hs[1..]|
      ensures hs[1..][k] < |w.handles| && u.handles[hs[1..][k]].wantsError == w.handles[hs[1..][k]].wantsError
    {
      assert hs[1..][k] == hs[k + 1];
      assert u.handles[..|v.handles|][hs[k + 1]] == u.handles[hs[k + 1]];
    }
    SameAgain(u.handles, w.handles, hs[1..], calls);
  }

  // ---- the failure of a stream ------------------------------------------------------------------

  /** The stream dropped, as _fail_stream and _fail_trades do it before they tell anyone. */
  function FailDrop(w: Ledger, i: nat, env: Env): (v: Ledger)
    requires i < |w.streams|
    ensures v.handles == w.handles && |v.streams| == |w.streams|
  {
    if w.streams[i].kind.Trades? || Live(w, i) then Drop(w, i, env.cancelRaises) else w
  }

  function ClearSubscribers(w: Ledger, i: nat): Ledger
    requires i < |w.streams|
  {
    SetStream(w, i, w.streams[i].(subscribers := []))
  }

  /** _on_stream_error with callbacks that subscribe; `calls` gives what the callback of each handle subscribes. */
  ghost function StreamErrorWith(w: Ledger, reqId: int, code: int, env: Env, calls: nat -> seq<Again>): Ledger
    requires Inv(w)
  {
    StreamErrorKeeps(w, reqId, code, env);
    if RouteOf(w, reqId).Some? && FailsStream(code) then
      FailReady(w, reqId, env);
      var i := RouteOf(w, reqId).value;
      NotifyAllWith(ClearSubscribers(FailDrop(w, i, env), i), w.streams[i].subscribers, code, env, calls)
    else StreamError(w, reqId, code, env)
  }

  /** After the drop the subscribers are ready to be told. */
  lemma FailReady(w: Ledger, reqId: int, env: Env)
    requires Inv(w) && RouteOf(w, reqId).Some?
    ensures var i := RouteOf(w, reqId).value;
      && i < |w.streams| && Live(w, i)
      && var v := ClearSubscribers(FailDrop(w, i, env), i);
      && Sound(v) && Wired(v) && Known(v, w.streams[i].subscribers) && v.handles == w.handles
      && (w.streams[i].subscribers == [] || Cleared(v, i, w.streams[i].subscribers))
  {
    hide RegOk, RoutesOk, HandlesOk, IbOk, StreamOk, Settled, Drop, Dropped, Cleared, Sound, Wired, Live;
    RouteIsLive(w, reqId);
    InvWired(w);
    var i := RouteOf(w, reqId).value;
    DropReady(w, i, env);
    var d := FailDrop(w, i, env);
    ReadyToTell(d, i);
    ClearSound(d, i);
  }

  lemma DropReady(w: Ledger, i: nat, env: Env)
    requires Inv(w) && i < |w.streams| && Live(w, i)
    ensures var d := FailDrop(w, i, env);
      Inv(d) && !Live(d, i) && Sound(d) && d.streams[i].subscribers == w.streams[i].subscribers
  {
    hide RegOk, RoutesOk, HandlesOk, IbOk, Settled, Drop, StreamOk;
    assert StreamOk(w, i);
    DropSettled(w, i, env.cancelRaises);
    DropIsDropped(w, i, env.cancelRaises);
    RegIsSound(Drop(w, i, env.cancelRaises));
  }

  lemma RegIsSound(w: Ledger)
    requires RegOk(w)
    ensures Sound(w)
  {
  }

  lemma ClearSound(w: Ledger, i: nat)
    requires Sound(w) && Wired(w) && i < |w.streams|
    ensures Sound(ClearSubscribers(w, i)) && Wired(ClearSubscribers(w, i))
  {
  }

  lemma ReadyToTell(d: Ledger, i: nat)
    requires Inv(d) && i < |d.streams| && !Live(d, i)
    ensures Wired(d) && Known(d, d.streams[i].subscribers)
    ensures d.streams[i].subscribers == [] || Cleared(ClearSubscribers(d, i), i, d.streams[i].subscribers)
  {
    hide RegOk, RoutesOk, IbOk, Settled;
    var s := d.streams[i];
    assert StreamOk(d, i) && Listed(d, i);
    forall k | 0 <= k < |s.subscribers|
      ensures var h := s.subscribers[k]; h < |d.handles| && d.handles[h].stream == i && !d.handles[h].closed
    {
      assert s.subscribers[k] in s.subscribers;
    }
  }

  /** Without callbacks this is the ledger's own transition. */
  lemma FailIsError(w: Ledger, reqId: int, code: int, env: Env)
    requires Inv(w) && RouteOf(w, reqId).Some? && FailsStream(code)
    requires var i := RouteOf(w, reqId).value;
      && i < |w.streams| && Live(w, i) && Wired(w) && Known(w, w.streams[i].subscribers)
      && Wired(ClearSubscribers(FailDrop(w, i, env), i))
    ensures var i := RouteOf(w, reqId).value;
      StreamError(w, reqId, code, env)
        == NotifyAll(ClearSubscribers(FailDrop(w, i, env), i), w.streams[i].subscribers, code, env)
  {
    hide RegOk, HandlesOk, IbOk, StreamOk, Settled, NotifyAll, DropTrades, DropPersistent;
    RouteIsLive(w, reqId);
  }

  /** What the callbacks of a failing error subscribe; nothing for any other error. */
  ghost function Reactions(w: Ledger, reqId: int, code: int, calls: nat -> seq<Again>): seq<Again>
    requires Inv(w)
  {
    if RouteOf(w, reqId).Some? && FailsStream(code) then
      FailReady(w, reqId, Env(true, false));
      AllAgain(w.handles, w.streams[RouteOf(w, reqId).value].subscribers, calls)
    else []
  }

  /** An error whose callbacks subscribe again leads where the error leads, followed by the subscriptions. */
  lemma CallbacksAreLater(w: Ledger, reqId: int, code: int, env: Env, calls: nat -> seq<Again>)
    requires Inv(w)
    ensures Wired(w) && (RouteOf(w, reqId).Some? ==>
      RouteOf(w, reqId).value < |w.streams| && Known(w, w.streams[RouteOf(w, reqId).value].subscribers))
    ensures Sound(StreamError(w, reqId, code, env))
    ensures StreamErrorWith(w, reqId, code, env, calls)
      == SubscribeAll(StreamError(w, reqId, code, env), Reactions(w, reqId, code, calls))
  {
    hide RegOk, RoutesOk, HandlesOk, IbOk, StreamOk, Settled, StreamError, SubscribeAll, NotifyAll, NotifyAllWith,
         ClearSubscribers, FailDrop, Cleared, Live;
    StreamErrorKeeps(w, reqId, code, env);
    RegIsSound(StreamError(w, reqId, code, env));
    SubscribeNone(StreamError(w, reqId, code, env));
    if RouteOf(w, reqId).Some? && FailsStream(code) {
      FailReady(w, reqId, env);
      FailIsError(w, reqId, code, env);
      var i := RouteOf(w, reqId).value;
      var v := ClearSubscribers(FailDrop(w, i, env), i);
      if w.streams[i].subscribers == [] {
        NothingToTell(v, code, env, calls);
      } else {
        CallbacksCommute(v, i, w.streams[i].subscribers, code, env, calls);
      }
    }
  }

  lemma NothingToTell(v: Ledger, code: int, env: Env, calls: nat -> seq<Again>)
    requires Wired(v) && Sound(v)
    ensures NotifyAllWith(v, [], code, env, calls) == v == NotifyAll(v, [], code, env)
  {
  }

  // ---- runs -------------------------------------------------------------------------------------

  /** Each subscription could have been made where it is; telling subscribers moves no reqId. */
  ghost predicate Admissible(w: Ledger, again: seq<Again>)
    requires Sound(w)
    decreases |again|
  {
    again == [] || (
      && !again[0].kind.L1? && Fresh(w, again[0].answer)
      && (SubscribeSound(w, again[0]); Admissible(SubscribeOne(w, again[0]), again[1..])))
  }

  /** A run goes on through any admissible subscriptions. */
  lemma {:induction false} SubscriptionsExtendTheRun(cap: nat, states: seq<Ledger>, events: seq<Event>, again: seq<Again>)
      returns (states': seq<Ledger>, events': seq<Event>)
    requires IsRun(cap, states, events) && Sound(states[|events|]) && Admissible(states[|events|], again)
    ensures IsRun(cap, states', events') && states <= states' && events <= events'
    ensures states'[|events'|] == SubscribeAll(states[|events|], again)
    decreases |again|
  {
    hide Inv, SubscribeOne, Fresh, Takes, Sound;
    if again == [] {
      states', events' := states, events;
    } else {
      var w, a := states[|events|], again[0];
      SubscribeSound(w, a);
      states', events' := SubscribeExtends(cap, states, events, a);
      states', events' := SubscriptionsExtendTheRun(cap, states', events', again[1..]);
    }
  }

  lemma SubscribeExtends(cap: nat, states: seq<Ledger>, events: seq<Event>, a: Again)
      returns (states': seq<Ledger>, events': seq<Event>)
    requires IsRun(cap, states, events) && Sound(states[|events|])
    requires !a.kind.L1? && Fresh(states[|events|], a.answer)
    ensures IsRun(cap, states', events') && states <= states' && events <= events'
    ensures states'[|events'|] == SubscribeOne(states[|events|], a)
  {
    hide Inv, Fresh, Takes, Sound, Subscribe;
    var e := Subscribing(a.kind, a.contract, a.wantsError, a.answer);
    EveryEventExtendsTheRun(cap, states, events, e);
    states', events' := states + [Step(states[|events|], e)], events + [e];
  }

  /**
    Every theorem about runs holds with callbacks that subscribe: from the last state of any run, an
    error whose callbacks subscribe whatever they like leads to the last state of a longer run.
  */
  lemma CallbacksStayInARun(cap: nat, states: seq<Ledger>, events: seq<Event>,
                            reqId: int, code: int, env: Env, calls: nat -> seq<Again>)
      returns (states': seq<Ledger>, events': seq<Event>)
    requires IsRun(cap, states, events) && Inv(states[|events|])
    requires var w := states[|events|];
      && Wired(w) && (RouteOf(w, reqId).Some? ==>
           RouteOf(w, reqId).value < |w.streams| && Known(w, w.streams[RouteOf(w, reqId).value].subscribers))
      && Sound(StreamError(w, reqId, code, env))
      && Admissible(StreamError(w, reqId, code, env), Reactions(w, reqId, code, calls))
    ensures IsRun(cap, states', events') && states <= states' && events <= events'
    ensures states'[|events'|] == StreamErrorWith(states[|events|], reqId, code, env, calls)
  {
    hide Inv, StreamError, StreamErrorWith, Reactions, Admissible, SubscribeAll, Takes, Sound, Wired, Known;
    var w := states[|events|];
    CallbacksAreLater(w, reqId, code, env, calls);
    var e := IbError(reqId, code, env);
    EveryEventExtendsTheRun(cap, states, events, e);
    states', events' := states + [Step(w, e)], events + [e];
    states', events' := SubscriptionsExtendTheRun(cap, states', events', Reactions(w, reqId, code, calls));
  }
}
