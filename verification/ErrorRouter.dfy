/**
  The IB error router: a stream of error codes against two tables of waiting futures, the connection
  flag and the data-farm state. The state is generic in what a future is: the run theorems hold for
  any identity, and the class instantiates it with its Future objects.
*/
module ErrorRouter {
  import opened Prelude

  datatype Farm = Market | Hmds | Secdef

  /** An error text, as far as the router looks into it. */
  datatype Message = Message(text: string, pacing: bool, noPermission: bool)

  datatype Kind =
    | ConnectionLost | ConnectionTerminated | OrderCancelled | OrderRejected | HistoricalData
    | ContractNotFound | SubscriptionLimit | MarketDataPermission | RateLimit(retryAfter: real)

  datatype Hint = NoHint | DelayedData | CompetingSession

  datatype Exc = Exc(kind: Kind, code: int, msg: Message, hint: Hint)

  datatype Outcome = Pending | Completed | Failed(exc: Exc)

  /** What the router tells its listeners, in order. */
  datatype Note =
    | Connection(up: bool)
    | DataLost(code: int)
    | StreamError(reqId: int, code: int)
    | Pacing(retryAfter: real)
    | DepthReset
    | FarmStatus(farm: Farm, ok: bool)

  datatype State<F(==)> = State(
    requests: map<int, F>,
    orders: map<int, F>,
    outcome: map<F, Outcome>,
    connected: bool,
    stale: set<Farm>,
    reasons: map<int, Message>,
    told: seq<Note>)

  predicate Lost(code: int) { code == 1100 || code == 2110 || code == 502 || code == 504 }

  const HISTORICAL_PACING_RETRY_AFTER := 10.0
  const MESSAGE_RATE_RETRY_AFTER := 1.0

  function FarmOf(code: int): Option<(Farm, bool)> {
    match code
    case 2103 => Some((Market, false))
    case 2104 => Some((Market, true))
    case 2105 => Some((Hmds, false))
    case 2106 => Some((Hmds, true))
    case 2157 => Some((Secdef, false))
    case 2158 => Some((Secdef, true))
    case _ => None
  }

  /** _ERROR_TABLE. */
  function TableKind(code: int): Option<Kind> {
    match code
    case 165 => Some(HistoricalData)
    case 200 => Some(ContractNotFound)
    case 201 => Some(OrderRejected)
    case 309 => Some(SubscriptionLimit)
    case 321 => Some(OrderRejected)
    case 325 => Some(OrderRejected)
    case 354 => Some(MarketDataPermission)
    case 10089 => Some(MarketDataPermission)
    case 10243 => Some(OrderRejected)
    case _ => None
  }

  /** _request_exception; `delayed` says that delayed or frozen market data is configured. */
  function RequestException(code: int, msg: Message, kind: Option<Kind>, delayed: bool): Option<Exc> {
    if code == 162 && msg.pacing then Some(Exc(RateLimit(HISTORICAL_PACING_RETRY_AFTER), code, msg, NoHint))
    else if code == 420 || code == 100 then Some(Exc(RateLimit(MESSAGE_RATE_RETRY_AFTER), code, msg, NoHint))
    else if code == 10197 then Some(Exc(MarketDataPermission, code, msg, CompetingSession))
    else
      var k := if code == 162 then Some(if msg.noPermission then MarketDataPermission else HistoricalData) else kind;
      if k.None? then None
      else Some(Exc(k.value, code, msg, if k.value.MarketDataPermission? && delayed then DelayedData else NoHint))
  }

  // ---- the router as a function ---------------------------------------------------------------

  function Fail<F>(outcome: map<F, Outcome>, futures: set<F>, exc: Exc): (r: map<F, Outcome>)
    ensures r.Keys == outcome.Keys
  {
    map f | f in outcome :: if f in futures && outcome[f].Pending? then Failed(exc) else outcome[f]
  }

  function Futures<F>(table: map<int, F>): set<F> { set k | k in table :: table[k] }

  function At<F>(table: map<int, F>, key: int): set<F> { if key in table then {table[key]} else {} }

  function FailRequest<F>(s: State<F>, key: int, exc: Exc): State<F> {
    s.(outcome := Fail(s.outcome, At(s.requests, key), exc), requests := s.requests - {key})
  }

  function FailOrder<F>(s: State<F>, key: int, exc: Exc): State<F> {
    s.(outcome := Fail(s.outcome, At(s.orders, key), exc), orders := s.orders - {key})
  }

  function FailAllPending<F>(s: State<F>, exc: Exc): State<F> {
    s.(outcome := Fail(s.outcome, Futures(s.requests) + Futures(s.orders), exc), requests := map[], orders := map[])
  }

  function PacingNotes(code: int, msg: Message): seq<Note> {
    if code == 162 && msg.pacing then [Pacing(HISTORICAL_PACING_RETRY_AFTER)]
    else if code == 420 then [Pacing(MESSAGE_RATE_RETRY_AFTER)]
    else []
  }

  function Tell<F>(s: State<F>, notes: seq<Note>): State<F> { s.(told := s.told + notes) }

  /** The branch that on_error takes, which the code alone decides. */
  datatype Route =
    | Up
    | UpDataLost
    | Quiet
    | BooksReset
    | Clears(kind: Kind)
    | FarmNews(farm: Farm, ok: bool)
    | OrderFails(kind: Kind)
    | RequestFails

  function RouteOf(code: int): Route {
    if code == 1102 then Up
    else if code == 1101 then UpDataLost
    else if code == 10090 then Quiet
    else if code == 317 then BooksReset
    else if code == 10349 then Quiet
    else if Lost(code) then Clears(ConnectionLost)
    else if code == 1300 then Clears(ConnectionTerminated)
    else if FarmOf(code).Some? then FarmNews(FarmOf(code).value.0, FarmOf(code).value.1)
    else if code == 202 then OrderFails(OrderCancelled)
    else if TableKind(code) == Some(OrderRejected) then OrderFails(OrderRejected)
    else RequestFails
  }

  function OnError<F>(s: State<F>, reqId: int, code: int, msg: Message, delayed: bool): State<F> {
    var seen := Tell(s, [StreamError(reqId, code)] + PacingNotes(code, msg));
    match RouteOf(code)
    case Up => Tell(s.(connected := true), [Connection(true)])
    case UpDataLost => Tell(s.(connected := true), [Connection(true), DataLost(code)])
    case Quiet => seen
    case BooksReset => Tell(seen, [DepthReset])
    case Clears(kind) =>
      FailAllPending(if kind.ConnectionLost? then Tell(seen.(connected := false), [Connection(false)]) else seen,
                     Exc(kind, code, msg, NoHint))
    case FarmNews(farm, ok) =>
      Tell(seen.(stale := if ok then s.stale - {farm} else s.stale + {farm}), [FarmStatus(farm, ok)])
    case OrderFails(kind) =>
      FailOrder(seen.(reasons := if kind.OrderCancelled? then s.reasons[reqId := msg] else s.reasons),
                reqId, Exc(kind, code, msg, NoHint))
    case RequestFails =>
      match RequestException(code, msg, TableKind(code), delayed)
      case None => seen
      case Some(exc) => FailRequest(seen, reqId, exc)
  }

  /** What _on_disconnected fails every waiter with. */
  const SocketLost: Exc := Exc(ConnectionLost, 1100, Message("socket disconnected", false, false), NoHint)

  // ---- which codes touch which table ----------------------------------------------------------

  predicate OrderCode(code: int) { code == 201 || code == 202 || code == 321 || code == 325 || code == 10243 }

  predicate RequestCode(code: int) {
    || code == 100 || code == 162 || code == 165 || code == 200 || code == 309 || code == 354 || code == 420
    || code == 10089 || code == 10197
  }

  predicate ClearingCode(code: int) { code == 1300 || Lost(code) }

  lemma RoutedCodes(code: int, msg: Message, delayed: bool)
    ensures ClearingCode(code) <==> RouteOf(code).Clears?
    ensures ClearingCode(code) ==> RouteOf(code).kind == if code == 1300 then ConnectionTerminated else ConnectionLost
    ensures OrderCode(code) <==> RouteOf(code).OrderFails?
    ensures RequestCode(code) <==>
      RouteOf(code).RequestFails? && RequestException(code, msg, TableKind(code), delayed).Some?
  {
  }

  /** Every code, whatever the message: which entries leave the tables, and what else may change. */
  lemma TablesByCode<F>(s: State<F>, reqId: int, code: int, msg: Message, delayed: bool)
    ensures var t := OnError(s, reqId, code, msg, delayed);
      && t.orders == (if ClearingCode(code) then map[] else if OrderCode(code) then s.orders - {reqId} else s.orders)
      && t.requests == (if ClearingCode(code) then map[] else if RequestCode(code) then s.requests - {reqId} else s.requests)
  {
    RoutedCodes(code, msg, delayed);
    hide RouteOf, RequestException, PacingNotes, OrderCode, RequestCode, ClearingCode, Fail, At, Futures;
  }

  /** No code makes or forgets futures; a code of no table changes none. */
  lemma OutcomesByCode<F>(s: State<F>, reqId: int, code: int, msg: Message, delayed: bool)
    ensures var t := OnError(s, reqId, code, msg, delayed);
      && t.outcome.Keys == s.outcome.Keys
      && (!ClearingCode(code) && !OrderCode(code) && !RequestCode(code) ==> t.outcome == s.outcome)
  {
    RoutedCodes(code, msg, delayed);
    hide RouteOf, RequestException, PacingNotes, OrderCode, RequestCode, ClearingCode, Fail, At, Futures;
  }

  /** A code that empties the tables leaves no registered future pending, and fails no other. */
  lemma ClearingFailsEveryWaiter<F>(s: State<F>, reqId: int, code: int, msg: Message, delayed: bool, f: F)
    requires ClearingCode(code) && f in s.outcome
    ensures var t := OnError(s, reqId, code, msg, delayed);
      f in t.outcome && t.outcome[f] ==
        if s.outcome[f].Pending? && (f in Futures(s.requests) || f in Futures(s.orders))
        then Failed(Exc(if code == 1300 then ConnectionTerminated else ConnectionLost, code, msg, NoHint))
        else s.outcome[f]
  {
    RoutedCodes(code, msg, delayed);
    hide RouteOf, RequestException, PacingNotes, OrderCode, RequestCode, ClearingCode, Futures;
  }

  /** A code fails at most the future waiting under the request's id, in the table the code belongs to. */
  lemma OnlyItsWaiterFails<F>(s: State<F>, reqId: int, code: int, msg: Message, delayed: bool, f: F)
    requires !ClearingCode(code) && f in s.outcome
    ensures var t := OnError(s, reqId, code, msg, delayed);
      f in t.outcome && (t.outcome[f] != s.outcome[f] <==>
        && s.outcome[f].Pending?
        && ((OrderCode(code) && f in At(s.orders, reqId)) || (RequestCode(code) && f in At(s.requests, reqId))))
    ensures var t := OnError(s, reqId, code, msg, delayed);
      t.outcome[f] != s.outcome[f] ==> t.outcome[f].Failed? && t.outcome[f].exc.code == code
  {
    RoutedCodes(code, msg, delayed);
    ExceptionCarriesCode(code, msg, delayed);
    hide RouteOf, RequestException, PacingNotes, OrderCode, RequestCode, ClearingCode, At;
  }

  lemma ExceptionCarriesCode(code: int, msg: Message, delayed: bool)
    ensures var exc := RequestException(code, msg, TableKind(code), delayed);
      exc.Some? ==> exc.value.code == code
  {
  }

  // ---- what is told, and with what a waiter fails -----------------------------------------------

  /** The code that reports the farm broken; the next one reports it well again. */
  function BrokenCode(farm: Farm): int { match farm case Market => 2103 case Hmds => 2105 case Secdef => 2157 }

  predicate Unpaced(code: int, msg: Message) { code == 420 || (code == 162 && msg.pacing) }

  predicate ConnectionGone(code: int) { code in {1100, 2110, 502, 504} }

  /** Told about the farm by this code, and how it is. */
  predicate FarmTold(code: int, farm: Farm, ok: bool) { code == BrokenCode(farm) + if ok then 1 else 0 }

  /**
    What one call of on_error appends to the notes, code by code: 1101 and 1102 the connection's return, and
    1101 then the loss of data, once; every other code first the stream error, and behind it, at most once
    each, the pacing, the depth reset, the loss of the connection and the farm's status.
  */
  lemma ToldByCode<F>(s: State<F>, reqId: int, code: int, msg: Message, delayed: bool) returns (notes: seq<Note>)
    ensures OnError(s, reqId, code, msg, delayed).told == s.told + notes
    ensures code == 1101 ==> notes == [Connection(true), DataLost(1101)]
    ensures code == 1102 ==> notes == [Connection(true)]
    ensures code != 1101 && code != 1102 ==>
      && 1 <= |notes| <= 2 && notes[0] == StreamError(reqId, code)
      && (|notes| == 2 <==> Unpaced(code, msg) || code == 317 || ConnectionGone(code)
                            || exists farm, ok :: FarmTold(code, farm, ok))
      && (Unpaced(code, msg) ==> notes[1] == Pacing(if code == 162 then 10.0 else 1.0))
      && (code == 317 ==> notes[1] == DepthReset)
      && (ConnectionGone(code) ==> notes[1] == Connection(false))
      && (forall farm, ok :: FarmTold(code, farm, ok) ==> notes[1] == FarmStatus(farm, ok))
  {
    hide RequestException, Fail, At, Futures, TableKind, RouteOf, PacingNotes, Unpaced, ConnectionGone, FarmTold;
    notes := Notes(reqId, code, msg);
    NotesByCode(reqId, code, msg);
  }

  function Notes(reqId: int, code: int, msg: Message): seq<Note> {
    var seen := [StreamError(reqId, code)] + PacingNotes(code, msg);
    match RouteOf(code)
    case Up => [Connection(true)]
    case UpDataLost => [Connection(true), DataLost(code)]
    case BooksReset => seen + [DepthReset]
    case Clears(kind) => if kind.ConnectionLost? then seen + [Connection(false)] else seen
    case FarmNews(farm, ok) => seen + [FarmStatus(farm, ok)]
    case _ => seen
  }

  lemma NotesByCode(reqId: int, code: int, msg: Message)
    ensures var notes := Notes(reqId, code, msg);
      && (code == 1101 ==> notes == [Connection(true), DataLost(1101)])
      && (code == 1102 ==> notes == [Connection(true)])
      && (code != 1101 && code != 1102 ==>
            && 1 <= |notes| <= 2 && notes[0] == StreamError(reqId, code)
            && (|notes| == 2 <==> Unpaced(code, msg) || code == 317 || ConnectionGone(code)
                                  || exists farm, ok :: FarmTold(code, farm, ok))
            && (Unpaced(code, msg) ==> notes[1] == Pacing(if code == 162 then 10.0 else 1.0))
            && (code == 317 ==> notes[1] == DepthReset)
            && (ConnectionGone(code) ==> notes[1] == Connection(false))
            && (forall farm, ok :: FarmTold(code, farm, ok) ==> notes[1] == FarmStatus(farm, ok)))
  {
    FarmRoutes(code);
    hide TableKind, FarmTold, BrokenCode;
  }

  lemma FarmRoutes(code: int)
    ensures forall farm, ok :: FarmTold(code, farm, ok) <==> RouteOf(code) == FarmNews(farm, ok)
    ensures RouteOf(code).FarmNews? ==> FarmTold(code, RouteOf(code).farm, RouteOf(code).ok)
  {
    hide TableKind;
  }

  /** The kind of failure a request code stands for. */
  predicate FailsAs(code: int, msg: Message, kind: Kind) {
    match kind
    case RateLimit(wait) => (wait == 10.0 && code == 162 && msg.pacing) || (wait == 1.0 && code in {100, 420})
    case MarketDataPermission => code in {354, 10089, 10197} || (code == 162 && !msg.pacing && msg.noPermission)
    case HistoricalData => code == 165 || (code == 162 && !msg.pacing && !msg.noPermission)
    case ContractNotFound => code == 200
    case SubscriptionLimit => code == 309
    case _ => false
  }

  /** With what the waiter under the id fails: an order by 202 as cancelled, otherwise as rejected; a request by its code. */
  lemma WaiterFailsWith<F>(s: State<F>, reqId: int, code: int, msg: Message, delayed: bool, f: F)
    requires f in s.outcome && s.outcome[f].Pending?
    ensures var t := OnError(s, reqId, code, msg, delayed);
      && f in t.outcome
      && (OrderCode(code) && reqId in s.orders && s.orders[reqId] == f ==>
            t.outcome[f] == Failed(Exc(if code == 202 then OrderCancelled else OrderRejected, code, msg, NoHint)))
      && (RequestCode(code) && reqId in s.requests && s.requests[reqId] == f ==>
            && t.outcome[f].Failed? && FailsAs(code, msg, t.outcome[f].exc.kind)
            && t.outcome[f].exc.code == code && t.outcome[f].exc.msg == msg
            && t.outcome[f].exc.hint ==
                 if code == 10197 then CompetingSession
                 else if delayed && FailsAs(code, msg, MarketDataPermission) then DelayedData else NoHint)
  {
    RoutedCodes(code, msg, delayed);
    hide PacingNotes, Futures;
    RefusedAs(code, msg, delayed);
    hide RouteOf, RequestException, FailsAs, OrderCode, RequestCode;
  }

  lemma RefusedAs(code: int, msg: Message, delayed: bool)
    ensures RequestCode(code) ==>
      var exc := RequestException(code, msg, TableKind(code), delayed);
      && exc.Some? && FailsAs(code, msg, exc.value.kind) && exc.value.code == code && exc.value.msg == msg
      && exc.value.hint == (if code == 10197 then CompetingSession
                            else if delayed && FailsAs(code, msg, MarketDataPermission) then DelayedData else NoHint)
    ensures OrderCode(code) ==> RouteOf(code).OrderFails? && RouteOf(code).kind == if code == 202 then OrderCancelled else OrderRejected
  {
  }

  // ---- runs -----------------------------------------------------------------------------------

  datatype Event<F> =
    | Error(reqId: int, code: int, msg: Message)
    | WaitForRequest(key: int, future: F)
    | WaitForOrder(key: int, future: F)
    | StopWaiting(key: int)
    | Finish(future: F)
    | SetConnected(up: bool)
    | SocketDropped

  /** A waiter is a new future; its owner may finish it and drops its key. */
  predicate Enabled<F>(s: State<F>, e: Event<F>) {
    match e
    case WaitForRequest(_, f) => f !in s.outcome
    case WaitForOrder(_, f) => f !in s.outcome
    case Finish(f) => f in s.outcome && s.outcome[f].Pending?
    case _ => true
  }

  /** The tables are emptied: by a code, or by the transport when its socket drops. */
  predicate Clearing<F>(e: Event<F>) { e.SocketDropped? || (e.Error? && ClearingCode(e.code)) }

  function Step<F>(s: State<F>, e: Event<F>, delayed: bool): State<F>
    requires Enabled(s, e)
  {
    match e
    case Error(reqId, code, msg) => OnError(s, reqId, code, msg, delayed)
    case WaitForRequest(key, f) => s.(requests := s.requests[key := f], outcome := s.outcome[f := Pending])
    case WaitForOrder(key, f) => s.(orders := s.orders[key := f], outcome := s.outcome[f := Pending])
    case StopWaiting(key) => s.(orders := s.orders - {key})
    case Finish(f) => s.(outcome := s.outcome[f := Completed])
    case SetConnected(up) => s.(connected := up)
    case SocketDropped => FailAllPending(s.(connected := false), SocketLost)
  }

  function Start<F>(): State<F> { State(map[], map[], map[], false, {}, map[], []) }

  ghost predicate IsRun<F>(states: seq<State<F>>, events: seq<Event<F>>, delayed: bool) {
    && |states| == |events| + 1
    && states[0] == Start<F>()
    && forall i :: 0 <= i < |events| ==> Enabled(states[i], events[i]) && states[i + 1] == Step(states[i], events[i], delayed)
  }

  ghost predicate OneKeyEach<F>(table: map<int, F>) {
    forall k, l :: k in table && l in table && k != l ==> table[k] != table[l]
  }

  /** Registered futures are known, and no future is registered twice. */
  ghost predicate TablesOk<F>(s: State<F>) {
    && (forall k :: k in s.requests ==> s.requests[k] in s.outcome)
    && (forall k :: k in s.orders ==> s.orders[k] in s.outcome)
    && OneKeyEach(s.requests) && OneKeyEach(s.orders)
    && (forall k, l :: k in s.requests && l in s.orders ==> s.requests[k] != s.orders[l])
  }

  lemma TablesKept<F>(s: State<F>, e: Event<F>, delayed: bool)
    requires TablesOk(s) && Enabled(s, e)
    ensures TablesOk(Step(s, e, delayed))
    ensures s.outcome.Keys <= Step(s, e, delayed).outcome.Keys
  {
    hide OnError, OneKeyEach;
    match e
    case Error(reqId, code, msg) =>
      TablesByCode(s, reqId, code, msg, delayed);
      OutcomesByCode(s, reqId, code, msg, delayed);
      SmallerTables(s, OnError(s, reqId, code, msg, delayed));
    case WaitForRequest(k, f) => KeyAdded(s.requests, k, f);
    case WaitForOrder(k, f) => KeyAdded(s.orders, k, f);
    case StopWaiting(k) => KeyDropped(s.orders, k);
    case SocketDropped => SmallerTables(s, Step(s, e, delayed));
    case _ =>
  }

  lemma KeyAdded<F>(table: map<int, F>, k: int, f: F)
    requires OneKeyEach(table) && forall l :: l in table ==> table[l] != f
    ensures OneKeyEach(table[k := f])
  {
  }

  lemma KeyDropped<F>(table: map<int, F>, k: int)
    requires OneKeyEach(table)
    ensures OneKeyEach(table - {k})
  {
  }

  lemma SmallerTables<F>(s: State<F>, t: State<F>)
    requires TablesOk(s) && t.outcome.Keys == s.outcome.Keys
    requires forall k :: k in t.requests ==> k in s.requests && t.requests[k] == s.requests[k]
    requires forall k :: k in t.orders ==> k in s.orders && t.orders[k] == s.orders[k]
    ensures TablesOk(t)
  {
  }

  /** A future that is done is never touched again. */
  lemma DoneStays<F>(s: State<F>, e: Event<F>, delayed: bool, f: F)
    requires Enabled(s, e) && f in s.outcome && !s.outcome[f].Pending?
    ensures f in Step(s, e, delayed).outcome && Step(s, e, delayed).outcome[f] == s.outcome[f]
  {
    hide OnError;
    if e.Error? {
      TablesByCode(s, e.reqId, e.code, e.msg, delayed);
      OutcomesByCode(s, e.reqId, e.code, e.msg, delayed);
      if ClearingCode(e.code) {
        ClearingFailsEveryWaiter(s, e.reqId, e.code, e.msg, delayed, f);
      } else {
        OnlyItsWaiterFails(s, e.reqId, e.code, e.msg, delayed, f);
      }
    }
  }

  /** A waiter's future completes at most once in any run. */
  lemma {:induction false} CompletesOnce<F>(
      states: seq<State<F>>, events: seq<Event<F>>, delayed: bool, i: nat, j: nat, f: F)
    requires IsRun(states, events, delayed) && i <= j < |states|
    requires f in states[i].outcome && !states[i].outcome[f].Pending?
    ensures f in states[j].outcome && states[j].outcome[f] == states[i].outcome[f]
    decreases j
  {
    hide Step, Enabled;
    if i < j {
      CompletesOnce(states, events, delayed, i, j - 1, f);
      DoneStays(states[j - 1], events[j - 1], delayed, f);
    }
  }

  /** Every future still pending is waiting in a table, so some error code can still fail it. */
  ghost predicate Lossless<F>(s: State<F>) {
    forall f :: f in s.outcome && s.outcome[f].Pending? ==> f in Futures(s.requests) || f in Futures(s.orders)
  }

  /** The step puts a new waiter over a pending one, or drops the key of a pending one. */
  ghost predicate Displaces<F>(s: State<F>, e: Event<F>) {
    match e
    case WaitForRequest(k, _) => k in s.requests && s.requests[k] in s.outcome && s.outcome[s.requests[k]].Pending?
    case WaitForOrder(k, _) => k in s.orders && s.orders[k] in s.outcome && s.outcome[s.orders[k]].Pending?
    case StopWaiting(k) => k in s.orders && s.orders[k] in s.outcome && s.outcome[s.orders[k]].Pending?
    case _ => false
  }

  /**
    No error code ever loses a waiter: it leaves its table only by being failed. A pending waiter is
    lost exactly by a second waiter under its key, or by dropping its key.
  */
  lemma WaiterLostExactly<F>(s: State<F>, e: Event<F>, delayed: bool)
    requires TablesOk(s) && Lossless(s) && Enabled(s, e)
    ensures Lossless(Step(s, e, delayed)) <==> !Displaces(s, e)
  {
    hide OnError;
    var t := Step(s, e, delayed);
    match e
    case Error(reqId, code, msg) =>
      TablesByCode(s, reqId, code, msg, delayed);
      OutcomesByCode(s, reqId, code, msg, delayed);
      forall f | f in t.outcome && t.outcome[f].Pending? ensures f in Futures(t.requests) || f in Futures(t.orders) {
        if ClearingCode(code) {
          ClearingFailsEveryWaiter(s, reqId, code, msg, delayed, f);
        } else {
          OnlyItsWaiterFails(s, reqId, code, msg, delayed, f);
          StillWaiting(s, t, reqId, f);
        }
      }
    case WaitForRequest(k, g) => Replaced(s.requests, k, g);
    case WaitForOrder(k, g) => Replaced(s.orders, k, g);
    case StopWaiting(k) => Dropped(s.orders, k);
    case _ =>
  }

  lemma StillWaiting<F>(s: State<F>, t: State<F>, reqId: int, f: F)
    requires f in Futures(s.requests) || f in Futures(s.orders)
    requires t.requests == s.requests || (t.requests == s.requests - {reqId} && f !in At(s.requests, reqId))
    requires t.orders == s.orders || (t.orders == s.orders - {reqId} && f !in At(s.orders, reqId))
    ensures f in Futures(t.requests) || f in Futures(t.orders)
  {
    if f in Futures(s.requests) {
      var k :| k in s.requests && s.requests[k] == f;
      assert k in t.requests && t.requests[k] == f;
    } else {
      var k :| k in s.orders && s.orders[k] == f;
      assert k in t.orders && t.orders[k] == f;
    }
  }

  lemma Replaced<F>(table: map<int, F>, k: int, g: F)
    requires OneKeyEach(table) && g !in Futures(table)
    ensures forall f :: f in Futures(table[k := g]) <==> f == g || (f in Futures(table) && !(k in table && table[k] == f))
  {
    forall f ensures f in Futures(table[k := g]) <==> f == g || (f in Futures(table) && !(k in table && table[k] == f)) {
      if f in Futures(table) && !(k in table && table[k] == f) {
        var l :| l in table && table[l] == f;
        assert table[k := g][l] == f;
      }
      if f == g { assert table[k := g][k] == f; }
    }
  }

  lemma Dropped<F>(table: map<int, F>, k: int)
    requires OneKeyEach(table)
    ensures forall f :: f in Futures(table - {k}) <==> f in Futures(table) && !(k in table && table[k] == f)
  {
    forall f ensures f in Futures(table - {k}) <==> f in Futures(table) && !(k in table && table[k] == f) {
      if f in Futures(table) && !(k in table && table[k] == f) {
        var l :| l in table && table[l] == f;
        assert (table - {k})[l] == f;
      }
    }
  }

  /** What the last news about a farm said: true when broken. */
  function LastBroken<F>(events: seq<Event<F>>, farm: Farm): bool {
    if events == [] then false
    else
      var last := events[|events| - 1];
      if last.Error? && last.code == BrokenCode(farm) then true
      else if last.Error? && last.code == BrokenCode(farm) + 1 then false
      else LastBroken(events[..|events| - 1], farm)
  }

  /** What the last connectivity code, or the transport itself, said about the connection. */
  function LastUp<F>(events: seq<Event<F>>): bool {
    if events == [] then false
    else
      var last := events[|events| - 1];
      if last.SetConnected? then last.up
      else if last.SocketDropped? then false
      else if last.Error? && (last.code == 1101 || last.code == 1102) then true
      else if last.Error? && ConnectionGone(last.code) then false
      else LastUp(events[..|events| - 1])
  }

  /** The text of the last cancellation of an order, if any. */
  function LastReason<F>(events: seq<Event<F>>, orderId: int): Option<Message> {
    if events == [] then None
    else
      var last := events[|events| - 1];
      if last.Error? && last.code == 202 && last.reqId == orderId then Some(last.msg)
      else LastReason(events[..|events| - 1], orderId)
  }

  lemma StepFlags<F>(s: State<F>, e: Event<F>, delayed: bool)
    requires Enabled(s, e)
    ensures var t := Step(s, e, delayed);
      && t.connected == (if e.SetConnected? then e.up
                         else if e.SocketDropped? then false
                         else if e.Error? && (e.code == 1101 || e.code == 1102) then true
                         else if e.Error? && ConnectionGone(e.code) then false else s.connected)
      && (forall farm :: farm in t.stale <==>
            if e.Error? && e.code == BrokenCode(farm) then true
            else if e.Error? && e.code == BrokenCode(farm) + 1 then false
            else farm in s.stale)
      && t.reasons == if e.Error? && e.code == 202 then s.reasons[e.reqId := e.msg] else s.reasons
  {
    hide RequestException, PacingNotes, Fail, At, Futures;
    if e.Error? { FlagCodes(e.code); }
    hide RouteOf, Lost, BrokenCode, ConnectionGone;
  }

  lemma FlagCodes(code: int)
    ensures RouteOf(code).Up? || RouteOf(code).UpDataLost? <==> code == 1101 || code == 1102
    ensures RouteOf(code).Clears? && RouteOf(code).kind.ConnectionLost? <==> Lost(code)
    ensures RouteOf(code).OrderFails? && RouteOf(code).kind.OrderCancelled? <==> code == 202
    ensures Lost(code) <==> ConnectionGone(code)
    ensures Lost(code) ==> code != 1101 && code != 1102
    ensures forall farm :: (code == BrokenCode(farm) <==> RouteOf(code) == FarmNews(farm, false))
                        && (code == BrokenCode(farm) + 1 <==> RouteOf(code) == FarmNews(farm, true))
  {
  }

  /**
    After any run of errors, registrations and connects: the stale farms are exactly those whose last
    status was broken, the connection flag is what the last connectivity code or the transport said,
    and the recorded cancellation text of every order is the last one that came.
  */
  lemma {:induction false} FlagsAreTheLastNews<F>(states: seq<State<F>>, events: seq<Event<F>>, delayed: bool, i: nat)
    requires IsRun(states, events, delayed) && i < |states|
    ensures forall farm :: farm in states[i].stale <==> LastBroken(events[..i], farm)
    ensures states[i].connected == LastUp(events[..i])
    ensures forall id :: LastReason(events[..i], id) == if id in states[i].reasons then Some(states[i].reasons[id]) else None
  {
    hide Step, Enabled, BrokenCode, ConnectionGone;
    if i > 0 {
      FlagsAreTheLastNews(states, events, delayed, i - 1);
      assert events[..i][..i - 1] == events[..i - 1] && events[..i][i - 1] == events[i - 1];
      StepFlags(states[i - 1], events[i - 1], delayed);
    }
  }

  function DataLosses(told: seq<Note>): nat {
    if told == [] then 0 else DataLosses(told[..|told| - 1]) + if told[|told| - 1].DataLost? then 1 else 0
  }

  /** How often IB reported the connection back with its data lost. */
  function LossReports<F>(events: seq<Event<F>>): nat {
    if events == [] then 0
    else
      var last := events[|events| - 1];
      LossReports(events[..|events| - 1]) + if last.Error? && last.code == 1101 then 1 else 0
  }

  lemma {:induction false} DataLossesJoined(told: seq<Note>, notes: seq<Note>)
    ensures DataLosses(told + notes) == DataLosses(told) + DataLosses(notes)
  {
    if notes == [] {
      assert told + notes == told;
    } else {
      assert (told + notes)[..|told + notes| - 1] == told + notes[..|notes| - 1];
      DataLossesJoined(told, notes[..|notes| - 1]);
    }
  }

  lemma StepDataLosses<F>(s: State<F>, e: Event<F>, delayed: bool)
    requires Enabled(s, e)
    ensures DataLosses(Step(s, e, delayed).told) == DataLosses(s.told) + if e.Error? && e.code == 1101 then 1 else 0
  {
    hide OnError, Unpaced, ConnectionGone, FarmTold;
    if e.Error? {
      var notes := ToldByCode(s, e.reqId, e.code, e.msg, delayed);
      DataLossesJoined(s.told, notes);
      FewDataLosses(notes);
      if e.code != 1101 && |notes| == 2 { SecondIsNoLoss(e.code, e.msg, notes[1]); }
    }
  }

  lemma FewDataLosses(notes: seq<Note>)
    ensures |notes| == 1 ==> DataLosses(notes) == if notes[0].DataLost? then 1 else 0
    ensures |notes| == 2 ==>
      DataLosses(notes) == (if notes[0].DataLost? then 1 else 0) + if notes[1].DataLost? then 1 else 0
  {
    if |notes| == 1 { assert notes[..0] == []; }
    if |notes| == 2 { assert notes[..1][..0] == []; }
  }

  lemma SecondIsNoLoss(code: int, msg: Message, note: Note)
    requires Unpaced(code, msg) || code == 317 || ConnectionGone(code) || exists farm, ok :: FarmTold(code, farm, ok)
    requires Unpaced(code, msg) ==> note == Pacing(if code == 162 then 10.0 else 1.0)
    requires code == 317 ==> note == DepthReset
    requires ConnectionGone(code) ==> note == Connection(false)
    requires forall farm, ok :: FarmTold(code, farm, ok) ==> note == FarmStatus(farm, ok)
    ensures !note.DataLost?
  {
  }

  /** In every run the data-lost listeners are told exactly as often as IB reported 1101. */
  lemma {:induction false} EveryLossIsTold<F>(states: seq<State<F>>, events: seq<Event<F>>, delayed: bool, i: nat)
    requires IsRun(states, events, delayed) && i < |states|
    ensures DataLosses(states[i].told) == LossReports(events[..i])
  {
    hide Step, Enabled;
    if i > 0 {
      EveryLossIsTold(states, events, delayed, i - 1);
      assert events[..i][..i - 1] == events[..i - 1] && events[..i][i - 1] == events[i - 1];
      StepDataLosses(states[i - 1], events[i - 1], delayed);
    }
  }

  lemma {:induction false} EveryRunKeepsTables<F>(states: seq<State<F>>, events: seq<Event<F>>, delayed: bool, i: nat)
    requires IsRun(states, events, delayed) && i < |states|
    ensures TablesOk(states[i])
    ensures (forall j :: 0 <= j < i ==> !Displaces(states[j], events[j])) ==> Lossless(states[i])
  {
    hide Step, Enabled, Displaces;
    if i > 0 {
      EveryRunKeepsTables(states, events, delayed, i - 1);
      TablesKept(states[i - 1], events[i - 1], delayed);
      if forall j :: 0 <= j < i ==> !Displaces(states[j], events[j]) {
        WaiterLostExactly(states[i - 1], events[i - 1], delayed);
      }
    }
  }

  ghost predicate AllDone<F>(outcome: map<F, Outcome>) { forall f :: f in outcome ==> !outcome[f].Pending? }

  /**
    When a run in which no waiter was displaced ends with a connection-lost code, 1300 or a dropped
    socket, no future at all is left pending and both tables are empty.
  */
  lemma ConnectionLossFailsEverything<F>(states: seq<State<F>>, events: seq<Event<F>>, delayed: bool, i: nat)
    requires IsRun(states, events, delayed) && i < |events| && Clearing(events[i])
    requires forall j :: 0 <= j < i ==> !Displaces(states[j], events[j])
    ensures states[i + 1].requests == map[] && states[i + 1].orders == map[]
    ensures AllDone(states[i + 1].outcome)
  {
    hide Step, Displaces, Clearing;
    EveryRunKeepsTables(states, events, delayed, i);
    forall f | f in states[i].outcome ensures f in states[i + 1].outcome && !states[i + 1].outcome[f].Pending? {
      ClearingFailsThemAll(states[i], events[i], delayed, f);
    }
    ClearingKeepsFutures(states[i], events[i], delayed);
  }

  lemma ClearingFailsThemAll<F>(s: State<F>, e: Event<F>, delayed: bool, f: F)
    requires Clearing(e) && Lossless(s) && f in s.outcome
    ensures f in Step(s, e, delayed).outcome && !Step(s, e, delayed).outcome[f].Pending?
  {
    hide OnError, ClearingCode;
    if e.Error? { ClearingFailsEveryWaiter(s, e.reqId, e.code, e.msg, delayed, f); }
  }

  lemma ClearingKeepsFutures<F>(s: State<F>, e: Event<F>, delayed: bool)
    requires Clearing(e)
    ensures var t := Step(s, e, delayed); t.outcome.Keys == s.outcome.Keys && t.requests == map[] && t.orders == map[]
  {
    hide OnError, ClearingCode;
    if e.Error? {
      TablesByCode(s, e.reqId, e.code, e.msg, delayed);
      OutcomesByCode(s, e.reqId, e.code, e.msg, delayed);
    }
  }

  // ---- the program's object -------------------------------------------------------------------

  class Future {
    var outcome: Outcome
    constructor () ensures outcome == Pending { outcome := Pending; }

    method SetException(exc: Exc)
      requires outcome == Pending
      modifies this
      ensures outcome == Failed(exc)
    {
      outcome := Failed(exc);
    }
  }

  ghost function Outcomes(futures: set<Future>): map<Future, Outcome>
    reads futures
  {
    map f | f in futures :: f.outcome
  }

  class Router {
    const delayed: bool
    var pendingRequestWaiters: map<int, Future>
    var pendingOrderWaiters: map<int, Future>
    var isConnected: bool
    var staleFarms: set<Farm>
    var cancelReasons: map<int, Message>
    var told: seq<Note>
    /** Every future that was ever registered. */
    ghost var known: set<Future>

    ghost predicate Valid()
      reads this
    {
      && (forall k :: k in pendingRequestWaiters ==> pendingRequestWaiters[k] in known)
      && (forall k :: k in pendingOrderWaiters ==> pendingOrderWaiters[k] in known)
    }

    /** The abstract state, with the future objects as identities. */
    ghost function View(): State<Future>
      reads this, known
    {
      State(pendingRequestWaiters, pendingOrderWaiters, Outcomes(known), isConnected, staleFarms, cancelReasons, told)
    }

    constructor (delayed: bool)
      ensures Valid() && View() == Start() && this.delayed == delayed && known == {}
    {
      this.delayed := delayed;
      pendingRequestWaiters, pendingOrderWaiters := map[], map[];
      isConnected, staleFarms, cancelReasons, told, known := false, {}, map[], [], {};
    }

    /** Where a request or an order starts to wait. */
    method Register(key: int, future: Future, forOrder: bool)
      requires Valid() && future !in known && future.outcome == Pending
      modifies this`pendingRequestWaiters, this`pendingOrderWaiters, this`known
      ensures Valid()
      ensures View() == Step(old(View()), if forOrder then WaitForOrder(key, future) else WaitForRequest(key, future), delayed)
    {
      if forOrder {
        pendingOrderWaiters := pendingOrderWaiters[key := future];
      } else {
        pendingRequestWaiters := pendingRequestWaiters[key := future];
      }
      known := known + {future};
    }

    /** `if fut is not None and not fut.done(): fut.set_exception(exc)`. */
    method FailOne(future: Future, exc: Exc)
      requires future in known
      modifies future
      ensures Outcomes(known) == Fail(old(Outcomes(known)), {future}, exc)
    {
      if future.outcome == Pending { future.SetException(exc); }
    }

    method FailWaiter(order: bool, key: int, exc: Exc)
      requires Valid()
      modifies this`pendingRequestWaiters, this`pendingOrderWaiters, known
      ensures Valid()
      ensures View() == if order then FailOrder(old(View()), key, exc) else FailRequest(old(View()), key, exc)
    {
      var table := if order then pendingOrderWaiters else pendingRequestWaiters;
      if order { pendingOrderWaiters := pendingOrderWaiters - {key}; }
      else { pendingRequestWaiters := pendingRequestWaiters - {key}; }
      if key in table { FailOne(table[key], exc); }
    }

    method FailAll(exc: Exc)
      requires Valid()
      modifies this`pendingRequestWaiters, this`pendingOrderWaiters, known
      ensures Valid() && View() == FailAllPending(old(View()), exc)
    {
      FailEach(Futures(pendingRequestWaiters) + Futures(pendingOrderWaiters), exc);
      pendingRequestWaiters, pendingOrderWaiters := map[], map[];
    }

    /** What _on_disconnected does to the router. */
    method SocketDrops()
      requires Valid()
      modifies this`isConnected, this`pendingRequestWaiters, this`pendingOrderWaiters, known
      ensures Valid() && known == old(known) && View() == Step(old(View()), SocketDropped, delayed)
    {
      isConnected := false;
      FailAll(SocketLost);
    }

    method FailEach(all: set<Future>, exc: Exc)
      requires all <= known
      modifies known
      ensures Outcomes(known) == Fail(old(Outcomes(known)), all, exc)
    {
      var left := all;
      while left != {}
        invariant left <= all
        invariant forall f :: f in known ==>
          f.outcome == if f in all - left && old(f.outcome).Pending? then Failed(exc) else old(f.outcome)
        decreases |left|
      {
        var f :| f in left;
        if f.outcome == Pending { f.SetException(exc); }
        left := left - {f};
      }
    }

    method HandleError(reqId: int, code: int, msg: Message)
      requires Valid()
      modifies this, known
      ensures Valid() && known == old(known)
      ensures View() == OnError(old(View()), reqId, code, msg, delayed)
    {
      hide FarmOf, TableKind, RequestException, PacingNotes, Fail, Futures, At, Outcomes;
      if code == 1102 {
        isConnected := true;
        told := told + [Connection(true)];
        return;
      }
      if code == 1101 {
        isConnected := true;
        told := told + [Connection(true), DataLost(code)];
        return;
      }
      told := told + ([StreamError(reqId, code)] + PacingNotes(code, msg));
      if code == 10090 { return; }
      if code == 317 {
        told := told + [DepthReset];
        return;
      }
      if code == 10349 { return; }
      if Lost(code) {
        isConnected := false;
        told := told + [Connection(false)];
        FailAll(Exc(ConnectionLost, code, msg, NoHint));
        return;
      }
      if code == 1300 {
        FailAll(Exc(ConnectionTerminated, code, msg, NoHint));
        return;
      }
      var farm := FarmOf(code);
      if farm.Some? {
        if farm.value.1 {
          staleFarms := staleFarms - {farm.value.0};
        } else {
          staleFarms := staleFarms + {farm.value.0};
        }
        told := told + [FarmStatus(farm.value.0, farm.value.1)];
        return;
      }
      if code == 202 {
        cancelReasons := cancelReasons[reqId := msg];
        FailWaiter(true, reqId, Exc(OrderCancelled, code, msg, NoHint));
        return;
      }
      if TableKind(code) == Some(OrderRejected) {
        FailWaiter(true, reqId, Exc(OrderRejected, code, msg, NoHint));
        return;
      }
      var exc := RequestException(code, msg, TableKind(code), delayed);
      if exc.Some? { FailWaiter(false, reqId, exc.value); }
    }
  }
}
