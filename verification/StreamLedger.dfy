/**
  The shared-stream allocator of IbGatewayTransport as a transition system over values.

  Stream objects and subscription handles are named by their creation number, so `is` on two
  objects is equality of numbers. Every transition below is one stretch of the transport's code
  between two awaits; what IB answers is a parameter. StreamTransport.dfy proves that the classes
  which do the work in place make exactly these transitions.
*/
module StreamLedger {
  import opened Prelude

  const MAX_TICKERS_CODE := 101
  const HARD_PERMISSION_CODES: set<int> := {354}
  const SOFT_PERMISSION_CODES: set<int> := {2152, 10089, 10090}

  /** A contract: its stable IB id ("" when it has none) and everything else `==` compares. */
  datatype Contract = Contract(contractId: string, body: int)

  datatype Key = ById(id: string) | ByContract(contract: Contract)

  function StreamKey(c: Contract): Key {
    if c.contractId != "" then ById(c.contractId) else ByContract(c)
  }

  datatype Kind = L1 | Depth | Trades

  /** A place in one of the three stream dicts, which is also one market-data line at IB. */
  datatype Slot = Slot(kind: Kind, key: Key)

  /** `retired` counts the cancel calls made while tearing this object down. */
  datatype Stream = Stream(
    kind: Kind, contract: Contract, refs: int, timer: bool, reqId: Option<nat>, hooked: bool,
    warning: Option<int>, subscribers: seq<nat>, retired: nat)
  {
    function At(): Slot { Slot(kind, StreamKey(contract)) }
  }

  /** `calls` counts the invocations of the subscriber's on_error callback. */
  datatype Handle = Handle(
    stream: nat, contract: Contract, wantsError: bool, closed: bool, error: Option<int>, calls: nat)

  /**
    The transport. `reg` is the union of the three stream dicts; `inflight` holds the stream of every
    depth snapshot between its acquire and its release. The last three fields are not in the
    program: `open` is what IB currently streams for this client, `leaked` the teardown cancels IB
    never received, `faults` how often a cancel or a re-request has raised; IB losing every stream
    makes all three start over.
  */
  datatype Ledger = Ledger(
    cap: nat, lines: int, reg: map<Slot, nat>, routes: map<nat, nat>, tradeRoutes: map<nat, nat>,
    streams: seq<Stream>, handles: seq<Handle>, inflight: multiset<nat>,
    open: multiset<Slot>, leaked: multiset<Slot>, faults: nat)

  function Init(cap: nat): Ledger {
    Ledger(cap, 0, map[], map[], map[], [], [], multiset{}, multiset{}, multiset{}, 0)
  }

  /** What IB does with a request: it raises, or is sent under a reqId (None when unknown). */
  datatype Answer = Raises | Sent(reqId: Option<nat>)

  datatype Failure = LinesExhausted | RequestFailed

  predicate Live(w: Ledger, i: nat)
    requires i < |w.streams|
  {
    var slot := w.streams[i].At();
    slot in w.reg && w.reg[slot] == i
  }

  function SetStream(w: Ledger, i: nat, s: Stream): Ledger
    requires i < |w.streams|
  {
    w.(streams := w.streams[i := s])
  }

  // ---- requests -----------------------------------------------------------------------------

  /** _request_trades / _request_persistent on a request that was sent. */
  function Request(w: Ledger, i: nat, reqId: Option<nat>): (v: Ledger)
    requires i < |w.streams|
    ensures v.handles == w.handles && |v.streams| == |w.streams|
  {
    var s := w.streams[i];
    w.(streams := w.streams[i := s.(hooked := true, reqId := if reqId.Some? then reqId else s.reqId)],
       routes := if s.kind.Trades? then w.routes else Remember(w.routes, reqId, i),
       tradeRoutes := if s.kind.Trades? then Remember(w.tradeRoutes, reqId, i) else w.tradeRoutes,
       open := w.open + multiset{s.At()})
  }

  function Remember(routes: map<nat, nat>, r: Option<nat>, i: nat): map<nat, nat> {
    if r.None? then routes else routes[r.value := i]
  }

  function Forget(routes: map<nat, nat>, r: Option<nat>): map<nat, nat> {
    if r.None? then routes else routes - {r.value}
  }

  /** _unhook_trades / _unhook_persistent. */
  function Unhook(w: Ledger, i: nat): (v: Ledger)
    requires i < |w.streams|
    ensures v.handles == w.handles && |v.streams| == |w.streams|
  {
    var s := w.streams[i];
    w.(streams := w.streams[i := s.(hooked := false, reqId := None)],
       routes := if s.kind.Trades? then w.routes else Forget(w.routes, s.reqId),
       tradeRoutes := if s.kind.Trades? then Forget(w.tradeRoutes, s.reqId) else w.tradeRoutes)
  }

  // ---- teardown -----------------------------------------------------------------------------

  /** The IB cancel that ends a teardown; it may raise, which the transport only logs. */
  function FinalCancel(w: Ledger, i: nat, raises: bool): (v: Ledger)
    requires i < |w.streams|
    ensures v.handles == w.handles && |v.streams| == |w.streams|
  {
    var s := w.streams[i];
    w.(streams := w.streams[i := s.(retired := s.retired + 1)],
       open := if raises then w.open else w.open - multiset{s.At()},
       leaked := if raises then w.leaked + multiset{s.At()} else w.leaked,
       faults := if raises then w.faults + 1 else w.faults)
  }

  /** _drop_stream: L1 and depth. */
  function DropPersistent(w: Ledger, i: nat, raises: bool): (v: Ledger)
    requires i < |w.streams|
    ensures v.handles == w.handles && |v.streams| == |w.streams|
  {
    var s := w.streams[i];
    var w1 := if Live(w, i) then w.(reg := w.reg - {s.At()}, lines := w.lines - 1) else w;
    var w2 := SetStream(w1, i, s.(timer := false));
    FinalCancel(Unhook(w2, i), i, raises)
  }

  /** _drop_trades: a no-op once dropped. */
  function DropTrades(w: Ledger, i: nat, raises: bool): (v: Ledger)
    requires i < |w.streams|
    ensures v.handles == w.handles && |v.streams| == |w.streams|
  {
    if !Live(w, i) then w
    else
      var w1 := w.(reg := w.reg - {w.streams[i].At()});
      var w2 := Unhook(w1, i);
      FinalCancel(w2.(lines := w2.lines - 1), i, raises)
  }

  // ---- acquire and release ------------------------------------------------------------------

  function NewStream(kind: Kind, c: Contract): Stream {
    Stream(kind, c, 0, false, None, false, None, [], 0)
  }

  /** top_of_book / _acquire_depth / _acquire_trades up to the returned stream. */
  function Find(w: Ledger, kind: Kind, c: Contract, a: Answer): (Ledger, Result<nat, Failure>) {
    var slot := Slot(kind, StreamKey(c));
    if slot in w.reg then (w, Ok(w.reg[slot]))
    else if w.lines >= w.cap then (w, Err(LinesExhausted))
    else if a.Raises? then (w, Err(RequestFailed))
    else
      var i := |w.streams|;
      var w1 := Request(w.(streams := w.streams + [NewStream(kind, c)]), i, a.reqId);
      (w1.(reg := w1.reg[slot := i], lines := w1.lines + 1), Ok(i))
  }

  /** One more user of a depth or trades stream; a depth stream's idle timer stops. */
  function AddUser(w: Ledger, i: nat): (v: Ledger)
    requires i < |w.streams|
    ensures v.handles == w.handles && |v.streams| == |w.streams|
  {
    var s := w.streams[i];
    SetStream(w, i, s.(timer := if s.kind.Depth? then false else s.timer, refs := s.refs + 1))
  }

  /** Whether an event loop is running, and whether the IB cancel raises. */
  datatype Env = Env(loop: bool, cancelRaises: bool)

  /** _release_depth / _release_trades. */
  function Release(w: Ledger, i: nat, env: Env): (v: Ledger)
    requires i < |w.streams|
    ensures v.handles == w.handles && |v.streams| == |w.streams|
  {
    var s := w.streams[i];
    var w1 := SetStream(w, i, s.(refs := s.refs - 1));
    if s.kind.Trades? then
      if s.refs - 1 <= 0 then DropTrades(w1, i, env.cancelRaises) else w1
    else if s.refs - 1 > 0 || !Live(w1, i) then w1
    else if !env.loop then DropPersistent(w1, i, env.cancelRaises)
    else SetStream(w1, i, w1.streams[i].(timer := true))
  }

  // ---- subscriptions ------------------------------------------------------------------------

  /** Every handle names a stream that exists. */
  predicate Wired(w: Ledger) {
    forall h :: 0 <= h < |w.handles| ==> w.handles[h].stream < |w.streams|
  }

  /** The given handles exist. */
  predicate Known(w: Ledger, hs: seq<nat>) {
    forall k :: 0 <= k < |hs| ==> hs[k] < |w.handles|
  }

  /** The subscriber is appended to the stream and its handle is returned. */
  function AddHandle(w: Ledger, i: nat, c: Contract, wantsError: bool): Ledger
    requires i < |w.streams|
  {
    var s := w.streams[i];
    SetStream(w, i, s.(subscribers := s.subscribers + [|w.handles|]))
      .(handles := w.handles + [Handle(i, c, wantsError, false, None, 0)])
  }

  /** subscribe(). */
  function Subscribe(w: Ledger, kind: Kind, c: Contract, wantsError: bool, a: Answer): Ledger
    requires forall slot :: slot in w.reg ==> w.reg[slot] < |w.streams|
  {
    var (w1, r) := Find(w, kind, c, a);
    if r.Err? then w1 else AddHandle(AddUser(w1, r.value), r.value, c, wantsError)
  }

  /** SubscriptionHandle.close(): idempotent; otherwise the subscription's cleanup runs. */
  function Close(w: Ledger, h: nat, env: Env): (v: Ledger)
    requires Wired(w) && h < |w.handles|
    ensures Wired(v) && |v.streams| == |w.streams| && |v.handles| == |w.handles|
  {
    var hd := w.handles[h];
    if hd.closed then w
    else
      var i := hd.stream;
      var s := w.streams[i];
      var w1 := w.(handles := w.handles[h := hd.(closed := true)]);
      var w2 := SetStream(w1, i, s.(subscribers := Remove(s.subscribers, h)));
      Release(w2, i, env)
  }

  /** A subscriber's _fail callback. */
  function Notify(w: Ledger, h: nat, code: int, env: Env): (v: Ledger)
    requires Wired(w) && h < |w.handles|
    ensures Wired(v) && |v.streams| == |w.streams| && |v.handles| == |w.handles|
  {
    var hd := w.handles[h];
    if hd.closed then w
    else
      var w1 := w.(handles := w.handles[h := hd.(error := Some(code))]);
      var w2 := Close(w1, h, env);
      w2.(handles := w2.handles[h := w2.handles[h].(calls := hd.calls + if hd.wantsError then 1 else 0)])
  }

  function NotifyAll(w: Ledger, hs: seq<nat>, code: int, env: Env): (v: Ledger)
    requires Wired(w) && Known(w, hs)
    ensures Wired(v) && |v.streams| == |w.streams| && |v.handles| == |w.handles|
    decreases |hs|
  {
    if hs == [] then w else NotifyAll(Notify(w, hs[0], code, env), hs[1..], code, env)
  }

  /** The subscriber list is copied and cleared, then every subscriber in it is told. */
  function FailSubscribers(w: Ledger, i: nat, subscribers: seq<nat>, code: int, env: Env): (v: Ledger)
    requires Wired(w) && i < |w.streams| && Known(w, subscribers)
    ensures Wired(v) && |v.streams| == |w.streams| && |v.handles| == |w.handles|
  {
    NotifyAll(SetStream(w, i, w.streams[i].(subscribers := [])), subscribers, code, env)
  }

  /** _fail_stream: L1 and depth. */
  function FailPersistent(w: Ledger, i: nat, code: Option<int>, env: Env): (v: Ledger)
    requires Wired(w) && i < |w.streams| && Known(w, w.streams[i].subscribers)
    ensures Wired(v) && |v.streams| == |w.streams| && |v.handles| == |w.handles|
  {
    var w1 := if Live(w, i) then DropPersistent(w, i, env.cancelRaises) else w;
    if code.None? then w1 else FailSubscribers(w1, i, w.streams[i].subscribers, code.value, env)
  }

  predicate FailsStream(code: int) { code in HARD_PERMISSION_CODES || code == MAX_TICKERS_CODE }

  /** _fail_trades. */
  function FailTrades(w: Ledger, i: nat, code: int, env: Env): (v: Ledger)
    requires Wired(w) && i < |w.streams| && Known(w, w.streams[i].subscribers)
    ensures Wired(v) && |v.streams| == |w.streams| && |v.handles| == |w.handles|
  {
    if !FailsStream(code) then w
    else FailSubscribers(DropTrades(w, i, env.cancelRaises), i, w.streams[i].subscribers, code, env)
  }

  /** The stream a reqId routes to: the trades map is consulted first. */
  function RouteOf(w: Ledger, reqId: int): Option<nat> {
    if reqId in w.tradeRoutes then Some(w.tradeRoutes[reqId])
    else if reqId in w.routes then Some(w.routes[reqId])
    else None
  }

  /** _on_stream_error: an unknown reqId is ignored. */
  function StreamError(w: Ledger, reqId: int, code: int, env: Env): Ledger
    requires Wired(w)
    requires RouteOf(w, reqId).Some? ==>
               var i := RouteOf(w, reqId).value; i < |w.streams| && Known(w, w.streams[i].subscribers)
  {
    if reqId in w.tradeRoutes then FailTrades(w, w.tradeRoutes[reqId], code, env)
    else if reqId !in w.routes then w
    else
      var i := w.routes[reqId];
      if FailsStream(code) then FailPersistent(w, i, Some(code), env)
      else if code in SOFT_PERMISSION_CODES then SetStream(w, i, w.streams[i].(warning := Some(code)))
      else w
  }

  // ---- timers and snapshots -----------------------------------------------------------------

  /** _idle_expired. */
  function IdleExpired(w: Ledger, i: nat, env: Env): Ledger
    requires i < |w.streams|
  {
    var w1 := SetStream(w, i, w.streams[i].(timer := false));
    if w.streams[i].refs <= 0 && Live(w1, i) then DropPersistent(w1, i, env.cancelRaises) else w1
  }

  /** The deadline branch of _wait_for: a stream under a soft warning is released by its sole holder. */
  function TimedOut(w: Ledger, i: nat, env: Env): (v: Ledger)
    requires i < |w.streams|
    ensures |v.streams| == |w.streams| && v.handles == w.handles
  {
    if w.streams[i].warning.Some? && w.streams[i].refs <= 1 && Live(w, i)
    then DropPersistent(w, i, env.cancelRaises) else w
  }

  /** depth_snapshot up to its first await. */
  function SnapshotBegin(w: Ledger, c: Contract, a: Answer): Ledger
    requires forall slot :: slot in w.reg ==> w.reg[slot] < |w.streams|
  {
    var (w1, r) := Find(w, Depth, c, a);
    if r.Err? then w1 else AddUser(w1, r.value).(inflight := w.inflight + multiset{r.value})
  }

  /** depth_snapshot from its last await on: data, failure or (timedOut) the deadline. */
  function SnapshotEnd(w: Ledger, i: nat, timedOut: bool, env: Env): Ledger
    requires i < |w.streams|
  {
    var w1 := if timedOut then TimedOut(w, i, env) else w;
    Release(w1.(inflight := w1.inflight - multiset{i}), i, env)
  }

  /** top_of_book up to its first await; an L1 stream has no users to count. */
  function TopOfBook(w: Ledger, c: Contract, a: Answer): Ledger {
    Find(w, L1, c, a).0
  }

  // ---- resubscribe and disconnect -----------------------------------------------------------

  /** What IB answers while one stream moves to a new request. */
  datatype Move = Move(cancelRaises: bool, answer: Answer)

  /** The first half of a move: unhook, reset the warning (L1 and depth), cancel if asked to. */
  function Withdraw(w: Ledger, i: nat, cancel: bool): (v: Ledger)
    requires i < |w.streams|
    ensures v.handles == w.handles && |v.streams| == |w.streams|
  {
    var s := w.streams[i];
    w.(streams := w.streams[i := s.(hooked := false, reqId := None, warning := if s.kind.Trades? then s.warning else None)],
       routes := if s.kind.Trades? then w.routes else Forget(w.routes, s.reqId),
       tradeRoutes := if s.kind.Trades? then Forget(w.tradeRoutes, s.reqId) else w.tradeRoutes,
       open := if cancel then w.open - multiset{s.At()} else w.open)
  }

  /** _resubscribe_trades / _resubscribe_stream: a raise anywhere ends the move of that stream. */
  function Resubscribe(w: Ledger, i: nat, cancelOld: bool, m: Move): (v: Ledger)
    requires i < |w.streams|
    ensures v.handles == w.handles && |v.streams| == |w.streams|
  {
    var w1 := Withdraw(w, i, cancelOld && !m.cancelRaises);
    if (cancelOld && m.cancelRaises) || m.answer.Raises? then w1.(faults := w1.faults + 1)
    else Request(w1, i, m.answer.reqId)
  }

  function ResubscribeEach(w: Ledger, ids: seq<nat>, cancelOld: bool, moves: nat -> Move): (v: Ledger)
    requires forall k :: 0 <= k < |ids| ==> ids[k] < |w.streams|
    ensures v.handles == w.handles && |v.streams| == |w.streams|
    decreases |ids|
  {
    if ids == [] then w
    else ResubscribeEach(Resubscribe(w, ids[0], cancelOld, moves(ids[0])), ids[1..], cancelOld, moves)
  }

  /** list(streams.values()) of one dict: insertion order is creation order. */
  function Registered(w: Ledger, kind: Kind, n: nat): (ids: seq<nat>)
    requires n <= |w.streams|
    ensures forall i: nat :: i in ids <==> i < n && Live(w, i) && w.streams[i].kind == kind
  {
    if n == 0 then []
    else Registered(w, kind, n - 1) + if Live(w, n - 1) && w.streams[n - 1].kind == kind then [n - 1] else []
  }

  function InOrder(w: Ledger, a: Kind, b: Kind, c: Kind): (ids: seq<nat>)
    ensures forall i: nat :: i in ids <==> i < |w.streams| && Live(w, i) && w.streams[i].kind in {a, b, c}
    ensures forall k :: 0 <= k < |ids| ==> ids[k] < |w.streams|
  {
    var ids := Registered(w, a, |w.streams|) + Registered(w, b, |w.streams|) + Registered(w, c, |w.streams|);
    assert forall k :: 0 <= k < |ids| ==> ids[k] in ids;
    ids
  }

  /** resubscribe_all, on its streams. `lost` says that IB has dropped all it was streaming. */
  function ResubscribeAll(w: Ledger, cancelOld: bool, lost: bool, moves: nat -> Move): Ledger {
    var w1 := if lost then w.(open := multiset{}, leaked := multiset{}, faults := 0) else w;
    ResubscribeEach(w1, InOrder(w, Trades, L1, Depth), cancelOld, moves)
  }

  function DropEach(w: Ledger, ids: seq<nat>, raises: nat -> bool): (v: Ledger)
    requires forall k :: 0 <= k < |ids| ==> ids[k] < |w.streams|
    ensures v.handles == w.handles && |v.streams| == |w.streams|
    decreases |ids|
  {
    if ids == [] then w
    else
      var i := ids[0];
      var w1 := if w.streams[i].kind.Trades? then DropTrades(w, i, raises(i)) else DropPersistent(w, i, raises(i));
      DropEach(w1, ids[1..], raises)
  }

  /** _release_all_streams, on its streams. */
  function ReleaseAll(w: Ledger, raises: nat -> bool): Ledger {
    DropEach(w, InOrder(w, L1, Depth, Trades), raises)
  }
}
