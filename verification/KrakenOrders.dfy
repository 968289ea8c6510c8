/**
  Kraken order accounting: the local upper bound on open orders per pair, and the age-based charges,
  as a state machine that runs beside the exchange. `open` is the exchange's own state, which the
  program never sees; the exchange acts at one moment and its reply is recorded at a later one, and
  fills and the clock move freely in between.
*/
module KrakenOrders {
  import opened Prelude

  // ---- penalty tables -------------------------------------------------------------------------

  const CANCEL: seq<(real, int)> := [(5.0, 8), (10.0, 6), (15.0, 5), (45.0, 4), (90.0, 2), (300.0, 1)]
  const AMEND: seq<(real, int)> := [(5.0, 4), (10.0, 3), (15.0, 2)]
  const EDIT: seq<(real, int)> := [(5.0, 7), (10.0, 6), (15.0, 5), (45.0, 3), (90.0, 2)]

  /** First row whose bound exceeds the age. */
  function Penalty(table: seq<(real, int)>, age: real, beyond: int): int {
    if table == [] then beyond
    else if age < table[0].0 then table[0].1
    else Penalty(table[1..], age, beyond)
  }

  /** Each row costs no less than the rows for older orders. */
  predicate Falling(table: seq<(real, int)>, beyond: int) {
    && (forall i, j :: 0 <= i < j < |table| ==> table[i].1 >= table[j].1)
    && (forall i :: 0 <= i < |table| ==> table[i].1 >= beyond)
  }

  lemma {:induction false} PenaltyRange(table: seq<(real, int)>, age: real, beyond: int)
    requires Falling(table, beyond)
    ensures Penalty(table, age, beyond) >= beyond
    ensures table != [] ==> Penalty(table, age, beyond) <= table[0].1
  {
    if table != [] && age >= table[0].0 {
      assert Falling(table[1..], beyond);
      PenaltyRange(table[1..], age, beyond);
    }
  }

  /** An older order never costs more. */
  lemma {:induction false} OlderIsCheaper(table: seq<(real, int)>, young: real, aged: real, beyond: int)
    requires Falling(table, beyond) && young <= aged
    ensures Penalty(table, young, beyond) >= Penalty(table, aged, beyond)
  {
    if table != [] {
      PenaltyRange(table, aged, beyond);
      if young >= table[0].0 {
        assert Falling(table[1..], beyond);
        OlderIsCheaper(table[1..], young, aged, beyond);
      }
    }
  }

  lemma TablesFall()
    ensures Falling(CANCEL, 0) && Falling(AMEND, 1) && Falling(EDIT, 1)
  {
  }

  datatype Op = Cancel | Amend | Edit

  function Cost(op: Op, age: real): int {
    match op
    case Cancel => Penalty(CANCEL, age, 0)
    case Amend => Penalty(AMEND, age, 1)
    case Edit => Penalty(EDIT, age, 1)
  }

  lemma CostFalls(op: Op, young: real, aged: real)
    requires young <= aged
    ensures Cost(op, young) >= Cost(op, aged) >= 0
  {
    hide Penalty, Falling;
    TablesFall();
    match op
    case Cancel => OlderIsCheaper(CANCEL, young, aged, 0); PenaltyRange(CANCEL, aged, 0);
    case Amend => OlderIsCheaper(AMEND, young, aged, 1); PenaltyRange(AMEND, aged, 1);
    case Edit => OlderIsCheaper(EDIT, young, aged, 1); PenaltyRange(EDIT, aged, 1);
  }

  /** What an order of a given age costs, in seconds and units. */
  lemma CostByAge(age: real)
    ensures Cost(Cancel, age) ==
      if age < 5.0 then 8 else if age < 10.0 then 6 else if age < 15.0 then 5
      else if age < 45.0 then 4 else if age < 90.0 then 2 else if age < 300.0 then 1 else 0
    ensures Cost(Amend, age) == if age < 5.0 then 4 else if age < 10.0 then 3 else if age < 15.0 then 2 else 1
    ensures Cost(Edit, age) ==
      if age < 5.0 then 7 else if age < 10.0 then 6 else if age < 15.0 then 5
      else if age < 45.0 then 3 else if age < 90.0 then 2 else 1
  {
    PenaltyTwo(CANCEL, age, 0);
    PenaltyTwo(CANCEL[2..], age, 0);
    PenaltyTwo(CANCEL[4..], age, 0);
    PenaltyTwo(EDIT, age, 1);
    PenaltyTwo(EDIT[2..], age, 1);
    PenaltyTwo(AMEND, age, 1);
  }

  lemma PenaltyTwo(table: seq<(real, int)>, age: real, beyond: int)
    requires |table| >= 2
    ensures Penalty(table, age, beyond) ==
      if age < table[0].0 then table[0].1 else if age < table[1].0 then table[1].1 else Penalty(table[2..], age, beyond)
  {
    assert table[1..][1..] == table[2..];
  }

  // ---- state ----------------------------------------------------------------------------------

  datatype Tier = Starter | Intermediate | Pro

  function Cap(tier: Tier): nat {
    match tier case Starter => 60 case Intermediate => 80 case Pro => 225
  }

  const SMALLEST_CAP: nat := 60

  /** An order as Kraken knows it: its pair, and when its age last started. */
  datatype Order = Order(pair: string, since: real)

  datatype Named = Named(pair: string, txid: string)

  /** The one call that is running: before the exchange acted on it, and before its reply came. */
  datatype Call =
    | Idle
    | Listing(pair: string, n: nat)
    | Listed(pair: string, n: nat, seen: nat)
    | Adding(pair: string, n: nat)
    | Added(pair: string, txids: seq<string>)
    | Cancelling(orders: seq<Named>, units: map<string, int>, sent: real)
    | Cancelled(orders: seq<Named>)
    | Changing(op: Op, order: Named, cost: int, sent: real)
    | Amended(txid: string)
    | Edited(was: string, added: string)

  /** Units charged to the matching pool of each pair, against what Kraken counts there for the same call. */
  datatype Charge = Charge(charged: map<string, int>, due: map<string, int>)

  /**
    `counted` holds the orders that the local counts stand for: placed or put in by an edit, shown by
    the pair's last listing or recorded since, and not cancelled; whether they have filled is not known.
    `listed` holds the orders of the last listing.
  */
  datatype State = State(
    tier: Tier,
    counts: map<string, int>,
    placedAt: map<string, real>,
    call: Call,
    now: real,
    open: map<string, Order>,
    used: set<string>,
    charges: seq<Charge>,
    counted: map<string, Order>,
    listed: map<string, Order>)

  function Start(tier: Tier): State { State(tier, map[], map[], Idle, 0.0, map[], {}, [], map[], map[]) }

  function Local(counts: map<string, int>, pair: string): int {
    if pair in counts then counts[pair] else 0
  }

  function OnPair(open: map<string, Order>, pair: string): set<string> {
    set t | t in open && open[t].pair == pair
  }

  /** How many orders are open on a pair. */
  function Count(open: map<string, Order>, pair: string): nat { |OnPair(open, pair)| }

  function Age(placedAt: map<string, real>, txid: string, now: real): real {
    if txid in placedAt then now - placedAt[txid] else 0.0
  }

  function Txids(orders: seq<Named>): set<string> { set k | 0 <= k < |orders| :: orders[k].txid }

  // ---- what each stretch does to the program's own fields --------------------------------------

  function AddOpen(counts: map<string, int>, pair: string, delta: int): map<string, int> {
    var c := Local(counts, pair) + delta;
    counts[pair := if c < 0 then 0 else c]
  }

  /** The units of a list of orders, summed per pair. */
  function Total(orders: seq<Named>, cost: string -> int): (r: map<string, int>)
    ensures forall k :: 0 <= k < |orders| ==> orders[k].pair in r
  {
    if orders == [] then map[]
    else
      var t, last := Total(orders[..|orders| - 1], cost), orders[|orders| - 1];
      assert forall k :: 0 <= k < |orders| - 1 ==> orders[k] == orders[..|orders| - 1][k];
      t[last.pair := Local(t, last.pair) + cost(last.txid)]
  }

  function LocalCost(op: Op, placedAt: map<string, real>, now: real): string -> int {
    txid => Cost(op, Age(placedAt, txid, now))
  }

  /** What Kraken counts: by the order's true age, nothing for an order that is not open. */
  function TrueCost(op: Op, open: map<string, Order>, now: real): string -> int {
    txid => if txid in open then Cost(op, now - open[txid].since) else 0
  }

  /** The units of a list of orders, summed per pair on which they are really open, whatever pair is named. */
  function Owed(orders: seq<Named>, open: map<string, Order>, cost: string -> int): map<string, int> {
    if orders == [] then map[]
    else
      var t, txid := Owed(orders[..|orders| - 1], open, cost), orders[|orders| - 1].txid;
      if txid in open then t[open[txid].pair := Local(t, open[txid].pair) + cost(txid)] else t
  }

  /** The loop of cancel_orders_batch behind the reply, one order after the other. */
  function Uncount(counts: map<string, int>, orders: seq<Named>): map<string, int> {
    if orders == [] then counts
    else AddOpen(Uncount(counts, orders[..|orders| - 1]), orders[|orders| - 1].pair, -1)
  }

  function Stamp(placedAt: map<string, real>, txids: seq<string>, t: real): map<string, real> {
    map x | x in placedAt.Keys + Elems(txids) :: if x in txids then t else placedAt[x]
  }

  function Opened(open: map<string, Order>, ids: seq<string>, order: Order): map<string, Order> {
    open + map t | t in Elems(ids) :: order
  }

  function ShownOn(open: map<string, Order>, pair: string): map<string, Order> {
    map t | t in open && open[t].pair == pair :: open[t]
  }

  function Relisted(counted: map<string, Order>, pair: string, listed: map<string, Order>): map<string, Order> {
    (counted - OnPair(counted, pair)) + listed
  }

  function Swapped(counted: map<string, Order>, was: string, added: string, now: real): map<string, Order> {
    if was in counted then (counted - {was})[added := Order(counted[was].pair, now)] else counted
  }

  /** _ensure_room without a listing. */
  predicate Fits(s: State, pair: string, n: nat) {
    Local(s.counts, pair) + n <= SMALLEST_CAP || Local(s.counts, pair) + n <= Cap(s.tier)
  }

  // ---- transitions ----------------------------------------------------------------------------

  datatype Event =
    | Tick(t: real)
    | Fill(txids: set<string>)
    | Place(p: string, n: nat)
    | List
    | ListReply
    | Add(ids: seq<string>)
    | AddReply
    | CancelAll(orders: seq<Named>)
    | CancelAct
    | CancelReply
    | Change(op: Op, order: Named)
    | AmendAct
    | AmendReply
    | EditAct(id: string)
    | EditReply
    | Reject

  /** What can happen next: one call at a time, new transaction ids are new, only open orders change. */
  predicate Enabled(s: State, e: Event) {
    match e
    case Tick(t) => s.now <= t
    case Fill(_) => true
    case Place(_, n) => s.call.Idle?
    case List => s.call.Listing?
    case ListReply => s.call.Listed?
    case Add(ids) => s.call.Adding? && |ids| <= s.call.n && Elems(ids) !! s.used && DistinctIds(ids)
    case AddReply => s.call.Added?
    case CancelAll(_) => s.call.Idle?
    case CancelAct => s.call.Cancelling?
    case CancelReply => s.call.Cancelled?
    case Change(op, _) => s.call.Idle? && op != Cancel
    case AmendAct => s.call.Changing? && s.call.op == Amend && s.call.order.txid in s.open
    case AmendReply => s.call.Amended?
    case EditAct(id) => && s.call.Changing? && s.call.op == Edit && id !in s.used
      && s.call.order.txid in s.open && s.open[s.call.order.txid].pair == s.call.order.pair
    case EditReply => s.call.Edited?
    case Reject => s.call.Listing? || s.call.Adding? || s.call.Cancelling? || s.call.Changing?
  }

  predicate DistinctIds(ids: seq<string>) { forall i, j :: 0 <= i < j < |ids| ==> ids[i] != ids[j] }

  function ChargeOne(s: State, o: Named, cost: int, op: Op): Charge {
    Charge(map[o.pair := cost], Owed([o], s.open, TrueCost(op, s.open, s.now)))
  }

  function Step(s: State, e: Event): State
    requires Enabled(s, e)
  {
    match e
    case Tick(t) => s.(now := t)
    case Fill(txids) => s.(open := s.open - txids)
    case Place(p, n) => s.(call := if Fits(s, p, n) then Adding(p, n) else Listing(p, n))
    case List => s.(call := Listed(s.call.pair, s.call.n, Count(s.open, s.call.pair)),
                    listed := ShownOn(s.open, s.call.pair))
    case ListReply => s.(counts := s.counts[s.call.pair := s.call.seen],
                         counted := Relisted(s.counted, s.call.pair, s.listed),
                         call := if s.call.seen + s.call.n > Cap(s.tier) then Idle else Adding(s.call.pair, s.call.n))
    case Add(ids) => s.(call := Added(s.call.pair, ids), used := s.used + Elems(ids),
                        open := Opened(s.open, ids, Order(s.call.pair, s.now)))
    case AddReply => s.(call := Idle, placedAt := Stamp(s.placedAt, s.call.txids, s.now),
                        counts := AddOpen(s.counts, s.call.pair, |s.call.txids|),
                        counted := Opened(s.counted, s.call.txids, Order(s.call.pair, s.now)))
    case CancelAll(orders) => s.(call := Cancelling(orders, Total(orders, LocalCost(Cancel, s.placedAt, s.now)), s.now))
    case CancelAct => s.(call := Cancelled(s.call.orders), open := s.open - Txids(s.call.orders),
                         charges := s.charges + [Charge(s.call.units, Owed(s.call.orders, s.open, TrueCost(Cancel, s.open, s.now)))])
    case CancelReply => s.(call := Idle, placedAt := s.placedAt - Txids(s.call.orders),
                           counts := Uncount(s.counts, s.call.orders), counted := s.counted - Txids(s.call.orders))
    case Change(op, o) => s.(call := Changing(op, o, Cost(op, Age(s.placedAt, o.txid, s.now)), s.now))
    case AmendAct =>
      var o := s.call.order;
      s.(call := Amended(o.txid), open := s.open[o.txid := s.open[o.txid].(since := s.now)],
         charges := s.charges + [ChargeOne(s, o, s.call.cost, Amend)])
    case AmendReply => s.(call := Idle, placedAt := s.placedAt[s.call.txid := s.now])
    case EditAct(id) =>
      var o := s.call.order;
      s.(call := Edited(o.txid, id), used := s.used + {id},
         open := (s.open - {o.txid})[id := Order(o.pair, s.now)],
         charges := s.charges + [ChargeOne(s, o, s.call.cost, Edit)])
    case EditReply => s.(call := Idle, placedAt := (s.placedAt - {s.call.was})[s.call.added := s.now],
                         counted := Swapped(s.counted, s.call.was, s.call.added, s.now))
    case Reject => s.(call := Idle)
  }

  /** The named orders are among the given ones, each named once and on its own pair. */
  ghost predicate Proper(orders: seq<Named>, open: map<string, Order>) {
    && (forall i, j :: 0 <= i < j < |orders| ==> orders[i].txid != orders[j].txid)
    && (forall i :: 0 <= i < |orders| ==> orders[i].txid in open && open[orders[i].txid].pair == orders[i].pair)
  }

  ghost predicate IsRun(tier: Tier, states: seq<State>, events: seq<Event>) {
    && |states| == |events| + 1
    && states[0] == Start(tier)
    && (forall i :: 0 <= i < |events| ==> Enabled(states[i], events[i]) && states[i + 1] == Step(states[i], events[i]))
  }

  /**
    Whenever a cancellation is called for, the orders it names are counted ones, once each and on
    their own pair. They may have filled already, or fill before Kraken acts.
  */
  ghost predicate CancelsCounted(states: seq<State>, events: seq<Event>) {
    forall i :: 0 <= i < |events| && i < |states| && events[i].CancelAll? ==>
      Proper(events[i].orders, states[i].counted)
  }

  /** Whenever a cancellation is called for, the orders it names are open, once each and on their own pair. */
  ghost predicate CancelsOpen(states: seq<State>, events: seq<Event>) {
    forall i :: 0 <= i < |events| && i < |states| && events[i].CancelAll? ==> Proper(events[i].orders, states[i].open)
  }

  // ---- counting -------------------------------------------------------------------------------

  function Mentions(orders: seq<Named>, pair: string): nat {
    if orders == [] then 0
    else Mentions(orders[..|orders| - 1], pair) + if orders[|orders| - 1].pair == pair then 1 else 0
  }

  /** Open orders on the pair that the list names, under whatever pair. */
  function NamedOpen(orders: seq<Named>, open: map<string, Order>, pair: string): nat {
    |OnPair(open, pair) * Txids(orders)|
  }

  lemma {:induction false} UncountIs(counts: map<string, int>, orders: seq<Named>, pair: string)
    requires Local(counts, pair) >= 0
    ensures var left := Local(counts, pair) - Mentions(orders, pair);
      Local(Uncount(counts, orders), pair) == if left < 0 then 0 else left
  {
    if orders != [] { UncountIs(counts, orders[..|orders| - 1], pair); }
  }

  lemma CancelCount(orders: seq<Named>, open: map<string, Order>, pair: string)
    ensures Count(open - Txids(orders), pair) == Count(open, pair) - NamedOpen(orders, open, pair)
  {
    assert OnPair(open - Txids(orders), pair) == OnPair(open, pair) - OnPair(open, pair) * Txids(orders);
  }

  lemma TxidsAppended(orders: seq<Named>, last: Named)
    ensures Txids(orders + [last]) == Txids(orders) + {last.txid}
  {
    var all := orders + [last];
    forall x ensures x in Txids(all) <==> x in Txids(orders) || x == last.txid {
      if x == last.txid { assert all[|orders|].txid == x; }
      if x in Txids(orders) { var k :| 0 <= k < |orders| && orders[k].txid == x; assert all[k].txid == x; }
      if x in Txids(all) && x != last.txid {
        var k :| 0 <= k < |all| && all[k].txid == x;
        assert orders[k].txid == x;
      }
    }
  }

  lemma {:induction false} ProperMentions(orders: seq<Named>, open: map<string, Order>, pair: string)
    requires Proper(orders, open)
    ensures Mentions(orders, pair) == NamedOpen(orders, open, pair)
  {
    if orders == [] {
      assert OnPair(open, pair) * Txids(orders) == {};
    } else {
      var t, last := orders[..|orders| - 1], orders[|orders| - 1];
      ProperMentions(t, open, pair);
      assert orders == t + [last];
      assert last.txid !in Txids(t);
      OneMoreNamed(t, last, open, pair);
    }
  }

  lemma OneMoreNamed(orders: seq<Named>, last: Named, open: map<string, Order>, pair: string)
    requires last.txid !in Txids(orders) && last.txid in open
    ensures NamedOpen(orders + [last], open, pair) ==
      NamedOpen(orders, open, pair) + if open[last.txid].pair == pair then 1 else 0
  {
    hide Txids;
    TxidsAppended(orders, last);
    if open[last.txid].pair == pair {
      assert OnPair(open, pair) * (Txids(orders) + {last.txid}) == OnPair(open, pair) * Txids(orders) + {last.txid};
    } else {
      assert OnPair(open, pair) * (Txids(orders) + {last.txid}) == OnPair(open, pair) * Txids(orders);
    }
  }

  lemma SetSubSize<T>(a: set<T>, b: set<T>)
    requires a <= b
    ensures |a| <= |b|
  {
    assert b == a + (b - a);
    assert |b| == |a| + |b - a|;
  }

  lemma FillCount(open: map<string, Order>, txids: set<string>, pair: string)
    ensures Count(open - txids, pair) <= Count(open, pair)
  {
    SetSubSize(OnPair(open - txids, pair), OnPair(open, pair));
  }

  lemma AddCount(open: map<string, Order>, ids: seq<string>, order: Order, p: string)
    requires DistinctIds(ids) && Elems(ids) !! open.Keys
    ensures Count(Opened(open, ids, order), p) == Count(open, p) + if p == order.pair then |ids| else 0
  {
    NoDupSize(ids);
    OpenedOn(open, ids, order, p);
  }

  lemma OpenedOn(open: map<string, Order>, ids: seq<string>, order: Order, p: string)
    requires Elems(ids) !! open.Keys
    ensures OnPair(Opened(open, ids, order), p) == OnPair(open, p) + if p == order.pair then Elems(ids) else {}
    ensures OnPair(open, p) !! Elems(ids)
  {
  }

  /**
    When the bound survives the reply to a cancellation, whichever of the counted orders have filled:
    exactly when no more entries are listed under the pair than the list names different counted orders
    of the pair, or it names all of them. So it may be lost by naming an order twice, one that is no
    longer counted, or one of another pair.
  */
  lemma UncountedBoundExactly(counts: map<string, int>, counted: map<string, Order>, orders: seq<Named>, pair: string)
    requires Local(counts, pair) == Count(counted, pair)
    ensures (forall gone: set<string> ::
              Local(Uncount(counts, orders), pair) >= Count((counted - gone) - Txids(orders), pair)) <==>
      || Mentions(orders, pair) <= NamedOpen(orders, counted, pair)
      || NamedOpen(orders, counted, pair) == Count(counted, pair)
  {
    hide Uncount, Mentions, Txids, Local;
    UncountIs(counts, orders, pair);
    CancelCount(orders, counted, pair);
    SetSubSize(OnPair(counted, pair) * Txids(orders), OnPair(counted, pair));
    var none: set<string> := {};
    assert counted - none == counted;
    assert Local(Uncount(counts, orders), pair) >= Count((counted - none) - Txids(orders), pair) <==>
      Local(Uncount(counts, orders), pair) >= Count(counted - Txids(orders), pair);
    forall gone: set<string>
      ensures Count((counted - gone) - Txids(orders), pair) <= Count(counted - Txids(orders), pair)
    {
      SetSubSize(OnPair((counted - gone) - Txids(orders), pair), OnPair(counted - Txids(orders), pair));
    }
  }

  // ---- invariants -----------------------------------------------------------------------------

  /** Where an order open on a pair is accounted for: counted there, or brought in by the outstanding reply. */
  ghost predicate Accounted(s: State, t: string, pair: string) {
    || (t in s.counted && s.counted[t].pair == pair && !(s.call.Cancelled? && t in Txids(s.call.orders)))
    || (s.call.Added? && t in s.call.txids && pair == s.call.pair)
    || (s.call.Edited? && t == s.call.added && s.call.was in s.counted && s.counted[s.call.was].pair == pair)
  }

  /** The local count of every pair is the number of its counted orders; every open order is accounted for. */
  ghost predicate Tallied(s: State) {
    && (forall p :: Local(s.counts, p) == Count(s.counted, p))
    && s.counted.Keys <= s.used
    && (forall t :: t in s.open ==> t in s.used && Accounted(s, t, s.open[t].pair))
    && (s.call.Listed? ==>
          && s.call.seen == |s.listed|
          && (forall t :: t in s.listed ==>
                s.listed[t].pair == s.call.pair && t in s.counted && s.counted[t].pair == s.call.pair)
          && (forall t :: t in s.open && s.open[t].pair == s.call.pair ==> t in s.listed))
    && (s.call.Added? ==>
          DistinctIds(s.call.txids) && Elems(s.call.txids) !! s.counted.Keys && Elems(s.call.txids) <= s.used)
    && (s.call.Cancelling? ==> Proper(s.call.orders, s.counted))
    && (s.call.Cancelled? ==> Proper(s.call.orders, s.counted))
    && (s.call.Edited? ==>
          s.call.was in s.counted && s.call.was !in s.open && s.call.added !in s.counted && s.call.added in s.used)
  }

  lemma ShownSize(open: map<string, Order>, pair: string)
    ensures |ShownOn(open, pair)| == Count(open, pair)
  {
    assert ShownOn(open, pair).Keys == OnPair(open, pair);
  }

  lemma RelistedCount(counted: map<string, Order>, pair: string, listed: map<string, Order>, p: string)
    requires forall t :: t in listed ==> listed[t].pair == pair && (t in counted ==> counted[t].pair == pair)
    ensures Count(Relisted(counted, pair, listed), p) == if p == pair then |listed| else Count(counted, p)
  {
    if p == pair {
      assert OnPair(Relisted(counted, pair, listed), p) == listed.Keys;
    } else {
      assert OnPair(Relisted(counted, pair, listed), p) == OnPair(counted, p);
    }
  }

  lemma ListTallied(s: State, e: Event)
    requires Tallied(s) && Enabled(s, e) && (e.List? || e.ListReply?)
    ensures Tallied(Step(s, e))
  {
    hide Count, Proper, Txids, DistinctIds, Relisted;
    if e.List? {
      ShownSize(s.open, s.call.pair);
    } else {
      forall p ensures Local(Step(s, e).counts, p) == Count(Step(s, e).counted, p) {
        RelistedCount(s.counted, s.call.pair, s.listed, p);
      }
      RelistedAccounts(s);
    }
  }

  lemma RelistedAccounts(s: State)
    requires Tallied(s) && s.call.Listed?
    ensures var c := Relisted(s.counted, s.call.pair, s.listed);
      && c.Keys <= s.used
      && forall t :: t in s.open ==> t in c && c[t].pair == s.open[t].pair
  {
    hide Count, Proper, Txids, DistinctIds;
  }

  lemma AddTallied(s: State, e: Event)
    requires Tallied(s) && Enabled(s, e) && (e.Add? || e.AddReply?)
    ensures Tallied(Step(s, e))
  {
    if e.Add? { AddActTallied(s, e.ids); } else { AddReplyTallied(s); }
  }

  lemma AddActTallied(s: State, ids: seq<string>)
    requires Tallied(s) && Enabled(s, Add(ids))
    ensures Tallied(Step(s, Add(ids)))
  {
    hide Count, Proper, Txids, DistinctIds, Local, Opened, Accounted;
    forall t | t in Opened(s.open, ids, Order(s.call.pair, s.now))
      ensures Accounted(Step(s, Add(ids)), t, Opened(s.open, ids, Order(s.call.pair, s.now))[t].pair)
      ensures t in s.used + Elems(ids)
    {
      AddedIsAccounted(s, ids, t);
    }
  }

  lemma AddedIsAccounted(s: State, ids: seq<string>, t: string)
    requires Enabled(s, Add(ids)) && t in Opened(s.open, ids, Order(s.call.pair, s.now))
    requires t in s.open ==> t in s.used && Accounted(s, t, s.open[t].pair)
    ensures Accounted(Step(s, Add(ids)), t, Opened(s.open, ids, Order(s.call.pair, s.now))[t].pair)
    ensures t in s.used + Elems(ids)
  {
    hide Txids, DistinctIds;
  }

  lemma AddReplyTallied(s: State)
    requires Tallied(s) && Enabled(s, AddReply)
    ensures Tallied(Step(s, AddReply))
  {
    hide Count, Proper, Txids, Stamp, Opened, AddOpen, Accounted, DistinctIds;
    forall p ensures Local(Step(s, AddReply).counts, p) == Count(Step(s, AddReply).counted, p) { AddReplyCounts(s, p); }
    forall t | t in s.open ensures Accounted(Step(s, AddReply), t, s.open[t].pair) { AddReplyAccounts(s, t); }
    assert Opened(s.counted, s.call.txids, Order(s.call.pair, s.now)).Keys <= s.used by { OpenedKeys(s); }
  }

  lemma AddReplyCounts(s: State, p: string)
    requires Tallied(s) && s.call.Added?
    ensures Local(AddOpen(s.counts, s.call.pair, |s.call.txids|), p)
      == Count(Opened(s.counted, s.call.txids, Order(s.call.pair, s.now)), p)
  {
    hide Count, Proper, Txids, Opened, Accounted;
    AddCount(s.counted, s.call.txids, Order(s.call.pair, s.now), p);
  }

  lemma AddReplyAccounts(s: State, t: string)
    requires s.call.Added? && t in s.open && Accounted(s, t, s.open[t].pair)
    requires Elems(s.call.txids) !! s.counted.Keys
    ensures Accounted(Step(s, AddReply), t, s.open[t].pair)
  {
    hide Txids, Stamp, AddOpen;
  }

  lemma OpenedKeys(s: State)
    requires s.call.Added? && s.counted.Keys <= s.used && Elems(s.call.txids) <= s.used
    ensures Opened(s.counted, s.call.txids, Order(s.call.pair, s.now)).Keys <= s.used
  {
  }

  lemma CancelTallied(s: State, e: Event)
    requires Tallied(s) && Enabled(s, e) && (e.CancelAll? || e.CancelAct? || e.CancelReply?)
    requires e.CancelAll? ==> Proper(e.orders, s.counted)
    ensures Tallied(Step(s, e))
  {
    hide Count, Proper, Txids, Uncount, Total, Mentions, NamedOpen;
    if e.CancelReply? {
      forall p ensures Local(Step(s, e).counts, p) == Count(Step(s, e).counted, p) {
        UncountIs(s.counts, s.call.orders, p);
        ProperMentions(s.call.orders, s.counted, p);
        CancelCount(s.call.orders, s.counted, p);
      }
    }
  }

  lemma ChangeTallied(s: State, e: Event)
    requires Tallied(s) && Enabled(s, e)
    requires e.Change? || e.AmendAct? || e.AmendReply? || e.EditAct? || e.EditReply?
    ensures Tallied(Step(s, e))
  {
    hide Count, Proper, Txids, ChargeOne, Cost;
    if e.EditReply? {
      forall p ensures Count(Step(s, e).counted, p) == Count(s.counted, p) {
        ChangedOn(s.counted, s.call.was, s.call.added, Order(s.counted[s.call.was].pair, s.now), p);
      }
    }
  }

  lemma TalliedKept(s: State, e: Event)
    requires Tallied(s) && Enabled(s, e)
    requires e.CancelAll? ==> Proper(e.orders, s.counted)
    ensures Tallied(Step(s, e))
  {
    hide Tallied, Proper;
    match e
    case List => ListTallied(s, e);
    case ListReply => ListTallied(s, e);
    case Add(_) => AddTallied(s, e);
    case AddReply => AddTallied(s, e);
    case CancelAll(_) => CancelTallied(s, e);
    case CancelAct => CancelTallied(s, e);
    case CancelReply => CancelTallied(s, e);
    case Place(_, _) => CallTallied(s, e);
    case Reject => CallTallied(s, e);
    case Tick(_) => CallTallied(s, e);
    case Fill(_) => CallTallied(s, e);
    case _ => ChangeTallied(s, e);
  }

  lemma CallTallied(s: State, e: Event)
    requires Tallied(s) && Enabled(s, e) && (e.Place? || e.Reject? || e.Tick? || e.Fill?)
    ensures Tallied(Step(s, e))
  {
    hide Tallied, Fits;
    if e.Place? || e.Reject? { PlainCallTallied(s, Step(s, e).call); } else { FewerOpenTallied(s, Step(s, e).open, Step(s, e).now); }
  }

  /** Nothing at Kraken is outstanding in such a call. */
  predicate PlainCall(c: Call) { c.Idle? || c.Listing? || c.Adding? || c.Changing? || c.Amended? }

  lemma PlainCallTallied(s: State, c: Call)
    requires Tallied(s) && (PlainCall(s.call) || s.call.Cancelling?) && PlainCall(c)
    ensures Tallied(s.(call := c))
  {
    hide Count, Proper, Txids, DistinctIds, Local;
    var v := s.(call := c);
    forall t | t in v.open ensures Accounted(v, t, v.open[t].pair) { assert Accounted(s, t, s.open[t].pair); }
  }

  lemma FewerOpenTallied(s: State, open: map<string, Order>, now: real)
    requires Tallied(s) && forall t :: t in open ==> t in s.open && open[t] == s.open[t]
    ensures Tallied(s.(open := open, now := now))
  {
    hide Count, Proper, Txids, DistinctIds, Local;
    var v := s.(open := open, now := now);
    forall t | t in v.open ensures Accounted(v, t, v.open[t].pair) { assert Accounted(s, t, s.open[t].pair); }
  }

  // ---- the bound and the cap ------------------------------------------------------------------

  /** What the reply of the running call will still add to a pair's count. */
  function Pending(call: Call, pair: string): int {
    match call
    case Added(p, txids) => if p == pair then |txids| else 0
    case Cancelled(orders) => 0 - Mentions(orders, pair)
    case _ => 0
  }

  /** The local count, with the reply outstanding, is at least the number of open orders. */
  ghost predicate Bounded(s: State) {
    && (forall p :: Local(s.counts, p) >= 0 && Local(s.counts, p) + Pending(s.call, p) >= Count(s.open, p))
    && (s.call.Listed? ==> s.call.seen >= Count(s.open, s.call.pair))
  }

  /** No pair has more open orders than the tier allows, nor will once the accepted call has acted. */
  ghost predicate Capped(s: State) {
    forall p :: Count(s.open, p) + (if s.call.Adding? && s.call.pair == p then s.call.n else 0) <= Cap(s.tier)
  }

  /** The open orders of a pair are among this many. */
  lemma TallyBounds(s: State)
    requires Tallied(s)
    ensures Bounded(s)
  {
    hide Proper, NamedOpen;
    forall p ensures Local(s.counts, p) + Pending(s.call, p) >= Count(s.open, p) { TallyBoundsPair(s, p); }
    if s.call.Listed? {
      assert OnPair(s.open, s.call.pair) <= s.listed.Keys;
      SetSubSize(OnPair(s.open, s.call.pair), s.listed.Keys);
    }
  }

  lemma TallyBoundsPair(s: State, p: string)
    requires Tallied(s)
    ensures Local(s.counts, p) + Pending(s.call, p) >= Count(s.open, p)
  {
    hide Proper, NamedOpen, Mentions;
    var on := OnPair(s.counted, p);
    match s.call
    case Added(q, txids) =>
      AddCount(s.counted, txids, Order(q, s.now), p);
      SetSubSize(OnPair(s.open, p), OnPair(Opened(s.counted, txids, Order(q, s.now)), p));
    case Cancelled(orders) =>
      ProperMentions(orders, s.counted, p);
      CancelCount(orders, s.counted, p);
      SetSubSize(OnPair(s.open, p), OnPair(s.counted - Txids(orders), p));
    case Edited(was, added) =>
      var swapped := Swapped(s.counted, was, added, s.now);
      ChangedOn(s.counted, was, added, Order(s.counted[was].pair, s.now), p);
      SetSubSize(OnPair(s.open, p), OnPair(swapped, p));
    case _ => SetSubSize(OnPair(s.open, p), on);
  }

  lemma ChangedOn(open: map<string, Order>, was: string, id: string, order: Order, p: string)
    requires was in open && open[was].pair == order.pair && (id == was || id !in open)
    ensures Count((open - {was})[id := order], p) == Count(open, p)
  {
    if p == order.pair {
      assert OnPair((open - {was})[id := order], p) == OnPair(open, p) - {was} + {id};
    } else {
      assert OnPair((open - {was})[id := order], p) == OnPair(open, p);
    }
  }

  /** A call passes only when the count, local or re-read, leaves room below the cap. */
  lemma PlaceKeeps(s: State, e: Event)
    requires Bounded(s) && Capped(s) && Enabled(s, e) && (e.Place? || e.List? || e.ListReply? || e.Reject?)
    ensures Capped(Step(s, e))
  {
    hide Count;
    var s' := Step(s, e);
    forall p ensures Count(s'.open, p) + (if s'.call.Adding? && s'.call.pair == p then s'.call.n else 0) <= Cap(s.tier) {
      assert Local(s.counts, p) >= Count(s.open, p) || !s.call.Idle?;
      assert Count(s.open, p) <= Cap(s.tier);
    }
  }

  /** What an accepted call adds stays below the cap; amending and editing move no count; the rest only removes. */
  lemma ActsKeep(s: State, e: Event)
    requires Capped(s) && s.open.Keys <= s.used && Enabled(s, e)
    requires !(e.Place? || e.List? || e.ListReply? || e.Reject?)
    ensures Capped(Step(s, e))
  {
    hide Count, Opened, Stamp, Uncount, Total, ChargeOne, Cost, Txids;
    var s' := Step(s, e);
    forall p ensures Count(s'.open, p) + (if s'.call.Adding? && s'.call.pair == p then s'.call.n else 0) <= Cap(s.tier) {
      assert Count(s.open, p) + (if s.call.Adding? && s.call.pair == p then s.call.n else 0) <= Cap(s.tier);
      match e
      case Add(ids) => AddCount(s.open, ids, Order(s.call.pair, s.now), p);
      case Fill(txids) => FillCount(s.open, txids, p);
      case CancelAct => FillCount(s.open, Txids(s.call.orders), p);
      case AmendAct =>
        var t := s.call.order.txid;
        var o := s.open[t].(since := s.now);
        assert s.open[t := o] == (s.open - {t})[t := o];
        ChangedOn(s.open, t, t, o, p);
      case EditAct(id) => ChangedOn(s.open, s.call.order.txid, id, Order(s.call.order.pair, s.now), p);
      case _ =>
    }
  }

  // ---- ages and charges -----------------------------------------------------------------------

  /**
    Recorded times are never earlier than the moment Kraken started the order's age, except between
    an amendment and its reply; every transaction id the program or Kraken holds has been used.
  */
  ghost predicate Timed(s: State) {
    && s.open.Keys <= s.used && s.placedAt.Keys <= s.used
    && (s.call.Amended? ==> s.call.txid in s.used)
    && (s.call.Edited? ==> s.call.added in s.used)
    && (s.call.Added? ==> Elems(s.call.txids) <= s.used)
    && (forall t :: t in s.open ==> s.open[t].since <= s.now)
    && (forall t :: t in s.open && t in s.placedAt && s.call != Amended(t) ==> s.open[t].since <= s.placedAt[t])
  }

  /** The units of the running call were computed from the recorded times, at some earlier moment. */
  ghost predicate Priced(s: State) {
    && (s.call.Cancelling? ==>
          && s.call.sent <= s.now
          && s.call.units == Total(s.call.orders, LocalCost(Cancel, s.placedAt, s.call.sent)))
    && (s.call.Changing? ==>
          && s.call.sent <= s.now
          && s.call.cost == LocalCost(s.call.op, s.placedAt, s.call.sent)(s.call.order.txid))
  }

  ghost predicate Covers(c: Charge) {
    forall p :: Local(c.charged, p) >= Local(c.due, p)
  }

  ghost predicate AllCovered(charges: seq<Charge>) { forall k :: 0 <= k < |charges| ==> Covers(charges[k]) }

  /** At whatever later moment Kraken acts, an order's true cost is at most what was computed. */
  lemma CostCovers(s: State, op: Op, sent: real, txid: string)
    requires Timed(s) && !s.call.Amended? && sent <= s.now
    ensures LocalCost(op, s.placedAt, sent)(txid) >= TrueCost(op, s.open, s.now)(txid)
  {
    hide Cost;
    CostFalls(op, Age(s.placedAt, txid, sent), Age(s.placedAt, txid, sent));
    if txid in s.open { CostFalls(op, Age(s.placedAt, txid, sent), s.now - s.open[txid].since); }
  }

  /** Every named order that is open is named under its own pair. */
  ghost predicate OwnPairs(orders: seq<Named>, open: map<string, Order>) {
    forall k :: 0 <= k < |orders| && orders[k].txid in open ==> open[orders[k].txid].pair == orders[k].pair
  }

  lemma {:induction false} TotalCovers(orders: seq<Named>, open: map<string, Order>, charged: string -> int, due: string -> int)
    requires OwnPairs(orders, open) && forall t :: charged(t) >= due(t) && charged(t) >= 0
    ensures Covers(Charge(Total(orders, charged), Owed(orders, open, due)))
  {
    if orders != [] {
      var rest := orders[..|orders| - 1];
      assert OwnPairs(rest, open);
      TotalCovers(rest, open, charged, due);
      forall p ensures Local(Total(orders, charged), p) >= Local(Owed(orders, open, due), p) {
        assert Local(Total(rest, charged), p) >= Local(Owed(rest, open, due), p);
        var q := orders[|orders| - 1].pair;
        assert Local(Total(rest, charged), q) >= Local(Owed(rest, open, due), q);
      }
    }
  }

  lemma CostNonNegative(s: State, op: Op, sent: real, txid: string)
    ensures LocalCost(op, s.placedAt, sent)(txid) >= 0
  {
    hide Cost;
    CostFalls(op, Age(s.placedAt, txid, sent), Age(s.placedAt, txid, sent));
  }

  /** A cancellation is charged enough when it names the open ones among its orders under their own pairs. */
  lemma CancelIsCovered(s: State)
    requires Timed(s) && Priced(s) && s.call.Cancelling? && OwnPairs(s.call.orders, s.open)
    ensures Covers(Charge(s.call.units, Owed(s.call.orders, s.open, TrueCost(Cancel, s.open, s.now))))
  {
    hide LocalCost, TrueCost, Total, Timed, Owed, Covers;
    forall t
      ensures LocalCost(Cancel, s.placedAt, s.call.sent)(t) >= TrueCost(Cancel, s.open, s.now)(t)
      ensures LocalCost(Cancel, s.placedAt, s.call.sent)(t) >= 0
    {
      CostCovers(s, Cancel, s.call.sent, t);
      CostNonNegative(s, Cancel, s.call.sent, t);
    }
    TotalCovers(s.call.orders, s.open, LocalCost(Cancel, s.placedAt, s.call.sent), TrueCost(Cancel, s.open, s.now));
  }

  lemma OwedOne(s: State, o: Named, op: Op)
    requires o.txid in s.open
    ensures Owed([o], s.open, TrueCost(op, s.open, s.now)) == map[s.open[o.txid].pair := TrueCost(op, s.open, s.now)(o.txid)]
  {
    hide TrueCost;
    assert [o][..0] == [];
  }

  /** Amending and editing never come free. */
  lemma ChangeCosts(op: Op, age: real)
    requires op != Cancel
    ensures Cost(op, age) >= 1
  {
    hide Penalty, Falling;
    TablesFall();
    PenaltyRange(if op == Amend then AMEND else EDIT, age, 1);
  }

  /** An amendment or edit is charged enough exactly when it names the pair on which its order is open. */
  lemma ChangeCoveredExactly(s: State)
    requires Timed(s) && Priced(s) && s.call.Changing? && s.call.op != Cancel && s.call.order.txid in s.open
    ensures Covers(ChargeOne(s, s.call.order, s.call.cost, s.call.op)) <==>
      s.open[s.call.order.txid].pair == s.call.order.pair
  {
    hide Cost, Timed, Owed;
    var o := s.call.order;
    CostCovers(s, s.call.op, s.call.sent, o.txid);
    OwedOne(s, o, s.call.op);
    ChangeCosts(s.call.op, s.now - s.open[o.txid].since);
    var c := ChargeOne(s, o, s.call.cost, s.call.op);
    assert Local(c.due, s.open[o.txid].pair) >= 1;
  }

  /** The order of the running amendment is open on the named pair. */
  ghost predicate AmendsOwn(s: State) {
    s.call.Changing? && s.call.order.txid in s.open && s.open[s.call.order.txid].pair == s.call.order.pair
  }

  /** A step adds a charge that is too low exactly when it amends an order named under another pair. */
  lemma ChargeKept(s: State, e: Event)
    requires Timed(s) && Priced(s) && Enabled(s, e)
    requires e.CancelAct? ==> OwnPairs(s.call.orders, s.open)
    ensures AllCovered(Step(s, e).charges) <==> AllCovered(s.charges) && (e.AmendAct? ==> AmendsOwn(s))
  {
    hide LocalCost, TrueCost, Total, Timed, Priced, Count, Stamp, Opened, Uncount, Fits, AddOpen, Covers, ChargeOne, Owed, OwnPairs;
    if e.CancelAct? {
      CancelIsCovered(s);
      AppendCovered(s.charges, Charge(s.call.units, Owed(s.call.orders, s.open, TrueCost(Cancel, s.open, s.now))));
    } else if e.AmendAct? || e.EditAct? {
      ChangeCoveredExactly(s);
      AppendCovered(s.charges, ChargeOne(s, s.call.order, s.call.cost, s.call.op));
    }
  }

  lemma AppendCovered(charges: seq<Charge>, c: Charge)
    ensures AllCovered(charges + [c]) <==> AllCovered(charges) && Covers(c)
  {
    hide Covers;
    forall k | 0 <= k < |charges| ensures (charges + [c])[k] == charges[k] {}
    assert (charges + [c])[|charges|] == c;
  }

  lemma PricedKept(s: State, e: Event)
    requires Priced(s) && Enabled(s, e)
    ensures Priced(Step(s, e))
  {
    hide Total, Cost, Age, Count, Stamp, Opened, Uncount, Fits, AddOpen, ChargeOne;
  }

  lemma TimedKept(s: State, e: Event)
    requires Timed(s) && Enabled(s, e)
    ensures Timed(Step(s, e))
  {
    hide Total, Cost, Age, Count, Uncount, Fits, AddOpen, ChargeOne, LocalCost, TrueCost, DistinctIds, Txids;
  }

  ghost predicate Inv(s: State) {
    Tallied(s) && Capped(s) && Timed(s) && Priced(s)
  }

  lemma StepKeeps(s: State, e: Event)
    requires Inv(s) && Enabled(s, e)
    requires e.CancelAll? ==> Proper(e.orders, s.counted)
    ensures Inv(Step(s, e))
  {
    assert s.open.Keys <= s.used by { TimedKept(s, e); }
    hide Tallied, Bounded, Capped, Priced, Step, Proper;
    TalliedKept(s, e);
    TallyBounds(s);
    TimedKept(s, e);
    PricedKept(s, e);
    if e.Place? || e.List? || e.ListReply? || e.Reject? { PlaceKeeps(s, e); } else { ActsKeep(s, e); }
  }

  lemma {:induction false} RunKeeps(tier: Tier, states: seq<State>, events: seq<Event>, i: nat)
    requires IsRun(tier, states, events) && CancelsCounted(states, events) && i < |states|
    ensures Inv(states[i]) && states[i].tier == tier
  {
    hide Inv, Proper;
    if i == 0 {
      StartOk(tier);
    } else {
      RunKeeps(tier, states, events, i - 1);
      StepKeeps(states[i - 1], events[i - 1]);
      SameTier(states[i - 1], events[i - 1]);
    }
  }

  lemma SameTier(s: State, e: Event)
    requires Enabled(s, e)
    ensures Step(s, e).tier == s.tier
  {
  }

  lemma StartOk(tier: Tier)
    ensures Inv(Start(tier))
  {
    forall p ensures Count(Start(tier).open, p) == 0 == Count(Start(tier).counted, p) {
      assert OnPair(Start(tier).open, p) == {} == OnPair(Start(tier).counted, p);
    }
  }

  /** The orders of a running cancellation that are still open are named under their own pairs. */
  lemma CancelNamesOwnPairs(s: State)
    requires Tallied(s) && s.call.Cancelling?
    ensures OwnPairs(s.call.orders, s.open)
  {
    hide Count, Local;
    forall k | 0 <= k < |s.call.orders| && s.call.orders[k].txid in s.open
      ensures s.open[s.call.orders[k].txid].pair == s.call.orders[k].pair
    {
      assert Accounted(s, s.call.orders[k].txid, s.open[s.call.orders[k].txid].pair);
    }
  }

  /** Every amendment that Kraken acted on named the pair its order was open on. */
  ghost predicate AmendedOwn(states: seq<State>, events: seq<Event>, i: nat) {
    forall j :: 0 <= j < i && j < |events| && j < |states| && events[j].AmendAct? ==> AmendsOwn(states[j])
  }

  /**
    In every run with proper cancellations, everything was charged enough exactly when every amendment
    that Kraken acted on named its order's own pair: Kraken is not told the pair of an amendment, and
    counts it where the order is.
  */
  lemma {:induction false} ChargedEnoughExactly(tier: Tier, states: seq<State>, events: seq<Event>, i: nat)
    requires IsRun(tier, states, events) && CancelsCounted(states, events) && i < |states|
    ensures AllCovered(states[i].charges) <==> AmendedOwn(states, events, i)
  {
    hide Inv, CancelsCounted, Step, Enabled, AmendsOwn, AllCovered;
    if i == 0 {
      assert AllCovered([]) by { NothingCharged(); }
    } else {
      ChargedEnoughExactly(tier, states, events, i - 1);
      RunKeeps(tier, states, events, i - 1);
      StepCharges(states[i - 1], events[i - 1]);
    }
  }

  lemma NothingCharged()
    ensures AllCovered([])
  {
  }

  lemma StepCharges(s: State, e: Event)
    requires Inv(s) && Enabled(s, e)
    ensures AllCovered(Step(s, e).charges) <==> AllCovered(s.charges) && (e.AmendAct? ==> AmendsOwn(s))
  {
    hide Tallied, Timed, Priced, AllCovered, Step, AmendsOwn, OwnPairs;
    if e.CancelAct? { CancelNamesOwnPairs(s); }
    ChargeKept(s, e);
  }

  predicate CallsForOwn(s: State, e: Event) {
    e.Change? && e.op == Amend && e.order.txid in s.open ==> s.open[e.order.txid].pair == e.order.pair
  }

  /** Whenever an amendment of an open order is called for, it names the order's own pair. */
  ghost predicate AmendsNameOwn(states: seq<State>, events: seq<Event>) {
    forall i :: 0 <= i < |events| && i < |states| ==> CallsForOwn(states[i], events[i])
  }

  /** A running amendment names its order's pair, if that is still open. */
  ghost predicate NamesOwn(s: State) {
    s.call.Changing? && s.call.op == Amend && s.call.order.txid in s.open ==>
      s.open[s.call.order.txid].pair == s.call.order.pair
  }

  lemma NamesOwnKept(s: State, e: Event)
    requires NamesOwn(s) && Enabled(s, e) && CallsForOwn(s, e)
    ensures NamesOwn(Step(s, e))
  {
    hide Total, Cost, Age, Count, Stamp, Uncount, Fits, AddOpen, ChargeOne, LocalCost, TrueCost, Owed, Txids, DistinctIds;
  }

  /** Naming the own pair when an amendment is called for is enough. */
  lemma {:induction false} OwnAtTheCallIsEnough(tier: Tier, states: seq<State>, events: seq<Event>, i: nat)
    requires IsRun(tier, states, events) && AmendsNameOwn(states, events) && i < |states|
    ensures NamesOwn(states[i]) && AmendedOwn(states, events, i)
  {
    hide Step, Enabled, AmendsOwn, NamesOwn;
    if i == 0 {
      assert NamesOwn(Start(tier)) by { NothingAmended(tier); }
    } else {
      OwnAtTheCallIsEnough(tier, states, events, i - 1);
      NamesOwnKept(states[i - 1], events[i - 1]);
      if events[i - 1].AmendAct? { ActsOnOwn(states[i - 1]); }
    }
  }

  lemma NothingAmended(tier: Tier)
    ensures NamesOwn(Start(tier))
  {
  }

  lemma ActsOnOwn(s: State)
    requires NamesOwn(s) && Enabled(s, AmendAct)
    ensures AmendsOwn(s)
  {
  }

  /** The failing side is reached: an order is placed on p and amended under the name of q. */
  lemma WrongPairIsUndercharged(tier: Tier, p: string, q: string, a: string, b: string) returns (s: State)
    requires a != b && p != q
    ensures Reachable(tier, s) && s.charges != [] && q in s.charges[0].charged && p !in s.charges[0].charged
    ensures Local(s.charges[0].due, p) == 4 && !AllCovered(s.charges)
  {
    hide Reachable, Total, Owed;
    var placed := TwoPlaced(tier, p, a, b);
    var o := Named(q, a);
    StepIsReachable(tier, placed, Change(Amend, o));
    var asked := Step(placed, Change(Amend, o));
    OwedOne(asked, o, Amend);
    StepIsReachable(tier, asked, AmendAct);
    s := Step(asked, AmendAct);
    assert Penalty(AMEND, 0.0, 1) == 4;
    assert s.charges[0].due == map[p := 4];
    assert !Covers(s.charges[0]) by { assert Local(s.charges[0].charged, p) == 0; }
  }

  /**
    Every run in which each call runs alone and every reply arrives, with any fills at any moment: as
    long as a cancellation names only orders still counted, between calls the local count is at least
    the number of open orders, and no pair ever has more open orders than the tier's cap, not even by
    the call that is under way; and as long as amendments name their orders' own pairs, every amend,
    edit, cancel and batch was charged, on the pair of each of its orders, at least what Kraken counts
    there for the orders' true ages.
  */
  lemma EveryRunIsCappedAndCharged(tier: Tier, states: seq<State>, events: seq<Event>, i: nat)
    requires IsRun(tier, states, events) && CancelsCounted(states, events) && i < |states|
    ensures var s := states[i];
      && (s.call.Idle? ==> forall p :: Local(s.counts, p) >= Count(s.open, p))
      && (forall p :: Count(s.open, p) <= Cap(tier))
      && (s.call.Adding? ==> Count(s.open, s.call.pair) + s.call.n <= Cap(tier))
      && (AmendsNameOwn(states, events) ==> AllCovered(s.charges))
  {
    hide IsRun, CancelsCounted, Count, AllCovered, Tallied, AmendsNameOwn, AmendedOwn;
    RunKeeps(tier, states, events, i);
    TallyBounds(states[i]);
    ChargedEnoughExactly(tier, states, events, i);
    if AmendsNameOwn(states, events) { OwnAtTheCallIsEnough(tier, states, events, i); }
    forall p ensures Count(states[i].open, p) <= Cap(tier) {}
  }

  /**
    In every idle state of such a run, for any cancellation whatever: its reply keeps the bound on a pair,
    whichever of the client's counted orders have filled, exactly when the client's own counted orders say
    so; and then it keeps it for the orders that are really open.
  */
  lemma CancelKeepsBoundExactly(tier: Tier, states: seq<State>, events: seq<Event>, i: nat, orders: seq<Named>, pair: string)
    requires IsRun(tier, states, events) && CancelsCounted(states, events) && i < |states| && states[i].call.Idle?
    ensures var s := states[i]; var after := Local(Uncount(s.counts, orders), pair);
      && ((forall gone: set<string> :: after >= Count((s.counted - gone) - Txids(orders), pair)) <==>
            || Mentions(orders, pair) <= NamedOpen(orders, s.counted, pair)
            || NamedOpen(orders, s.counted, pair) == Count(s.counted, pair))
      && ((forall gone: set<string> :: after >= Count((s.counted - gone) - Txids(orders), pair)) ==>
            after >= Count(s.open - Txids(orders), pair))
  {
    hide Count, Uncount, Mentions, Txids, Tallied, Step, Enabled;
    var s := states[i];
    RunKeeps(tier, states, events, i);
    OpenAmongCounted(s, orders, pair);
    assert Local(s.counts, pair) == Count(s.counted, pair) by { TallyIs(s, pair); }
    UncountedBoundExactly(s.counts, s.counted, orders, pair);
    var none: set<string> := {};
    assert s.counted - none == s.counted;
  }

  lemma TallyIs(s: State, pair: string)
    requires Tallied(s)
    ensures Local(s.counts, pair) == Count(s.counted, pair)
  {
  }

  lemma OpenAmongCounted(s: State, orders: seq<Named>, pair: string)
    requires Tallied(s) && s.call.Idle?
    ensures Count(s.open - Txids(orders), pair) <= Count(s.counted - Txids(orders), pair)
  {
    hide Txids;
    SetSubSize(OnPair(s.open - Txids(orders), pair), OnPair(s.counted - Txids(orders), pair));
  }

  lemma OpenIsCounted(s: State, orders: seq<Named>)
    requires Tallied(s) && s.call.Idle? && Proper(orders, s.open)
    ensures Proper(orders, s.counted)
  {
    hide Count;
  }

  /** Naming orders that are open when the call is made is enough, whatever fills before Kraken acts. */
  lemma {:induction false} OpenAtTheCallIsEnough(tier: Tier, states: seq<State>, events: seq<Event>, n: nat)
    requires IsRun(tier, states, events) && CancelsOpen(states, events) && n <= |events|
    ensures CancelsCounted(states[..n + 1], events[..n])
  {
    hide Inv, Proper;
    if n > 0 {
      var s', e' := states[..n + 1], events[..n];
      OpenAtTheCallIsEnough(tier, states, events, n - 1);
      forall i | 0 <= i < n - 1 && e'[i].CancelAll? ensures Proper(e'[i].orders, s'[i].counted) {
        assert events[..n - 1][i] == e'[i] && states[..n][i] == s'[i];
      }
      RunKeeps(tier, states[..n], events[..n - 1], n - 1);
      if events[n - 1].CancelAll? { OpenWasCounted(states[n - 1], events[n - 1].orders); }
    }
  }

  lemma OpenWasCounted(s: State, orders: seq<Named>)
    requires Inv(s) && s.call.Idle? && Proper(orders, s.open)
    ensures Proper(orders, s.counted)
  {
    hide Tallied, Proper;
    OpenIsCounted(s, orders);
  }

  // ---- how tight the bound is -----------------------------------------------------------------

  /** The counted orders are the open ones, but for what the outstanding reply will record. */
  ghost predicate Exact(s: State) {
    match s.call
    case Added(_, txids) => s.open.Keys == s.counted.Keys + Elems(txids)
    case Cancelled(orders) => s.open.Keys == s.counted.Keys - Txids(orders)
    case Edited(was, added) => s.open.Keys == s.counted.Keys - {was} + {added}
    case Listed(p, _, _) => s.open.Keys == s.counted.Keys && s.listed.Keys == OnPair(s.open, p)
    case _ => s.open.Keys == s.counted.Keys
  }

  lemma ExactKept(s: State, e: Event)
    requires Tallied(s) && Exact(s) && Enabled(s, e) && !e.Fill?
    ensures Exact(Step(s, e))
  {
    hide Tallied, Exact, Step;
    if e.List? || e.ListReply? { ExactListing(s, e); }
    else if e.CancelAct? || e.CancelReply? { ExactCancel(s, e); }
    else if e.EditAct? || e.EditReply? || e.AmendAct? { ExactChange(s, e); }
    else { ExactElse(s, e); }
  }

  lemma ExactListing(s: State, e: Event)
    requires Tallied(s) && Exact(s) && Enabled(s, e) && (e.List? || e.ListReply?)
    ensures Exact(Step(s, e))
  {
    hide Tallied, Count, Relisted, ShownOn;
    if e.List? {
      assert ShownOn(s.open, s.call.pair).Keys == OnPair(s.open, s.call.pair) by { ShownKeys(s.open, s.call.pair); }
    } else {
      RelistedKeys(s);
    }
  }

  lemma ShownKeys(open: map<string, Order>, pair: string)
    ensures ShownOn(open, pair).Keys == OnPair(open, pair)
  {
  }

  lemma RelistedKeys(s: State)
    requires Tallied(s) && s.call.Listed? && s.open.Keys == s.counted.Keys && s.listed.Keys == OnPair(s.open, s.call.pair)
    ensures Relisted(s.counted, s.call.pair, s.listed).Keys == s.counted.Keys
  {
    hide Count, Proper, Txids, DistinctIds;
    assert OnPair(s.counted, s.call.pair) == OnPair(s.open, s.call.pair);
  }

  lemma ExactCancel(s: State, e: Event)
    requires Exact(s) && Enabled(s, e) && (e.CancelAct? || e.CancelReply?)
    ensures Exact(Step(s, e))
  {
    hide Txids, Uncount, Total;
  }

  lemma ExactChange(s: State, e: Event)
    requires Tallied(s) && Exact(s) && Enabled(s, e) && (e.EditAct? || e.EditReply? || e.AmendAct?)
    ensures Exact(Step(s, e))
  {
    hide Count, Proper, Txids, DistinctIds, ChargeOne, Local;
  }

  lemma ExactElse(s: State, e: Event)
    requires Exact(s) && Enabled(s, e) && !e.Fill? && !e.List? && !e.ListReply?
    requires !(e.CancelAct? || e.CancelReply? || e.EditAct? || e.EditReply? || e.AmendAct?)
    ensures Exact(Step(s, e))
  {
    hide Stamp, Total, Fits, AddOpen, Cost;
  }

  lemma ExactCounts(s: State)
    requires Tallied(s) && Exact(s) && s.call.Idle?
    ensures forall p :: Local(s.counts, p) == Count(s.open, p)
  {
    forall p ensures OnPair(s.counted, p) == OnPair(s.open, p) {}
  }

  /** Only fills make the count an over-estimate: without one it is exact whenever no call is running. */
  lemma {:induction false} OnlyFillsLoosen(tier: Tier, states: seq<State>, events: seq<Event>, i: nat)
    requires IsRun(tier, states, events) && CancelsCounted(states, events) && i < |states|
    requires forall j :: 0 <= j < |events| ==> !events[j].Fill?
    ensures Exact(states[i])
    ensures states[i].call.Idle? ==> forall p :: Local(states[i].counts, p) == Count(states[i].open, p)
  {
    hide Tallied, Capped, Timed, Priced, AllCovered, Exact, Proper, Count, Step;
    RunKeeps(tier, states, events, i);
    if i == 0 {
      StartExact(tier);
    } else {
      OnlyFillsLoosen(tier, states, events, i - 1);
      RunKeeps(tier, states, events, i - 1);
      ExactKept(states[i - 1], events[i - 1]);
    }
    if states[i].call.Idle? { ExactCounts(states[i]); }
  }

  lemma StartExact(tier: Tier)
    ensures Exact(Start(tier))
  {
  }

  // ---- how tight the charges are ---------------------------------------------------------------

  /** Whether the reply that will record this order's time is still outstanding. */
  predicate Unrecorded(call: Call, txid: string) {
    match call
    case Added(_, txids) => txid in txids
    case Amended(t) => t == txid
    case Edited(_, t) => t == txid
    case _ => false
  }

  /** Every open order's recorded time is the moment its age started, or will be if the reply comes now. */
  ghost predicate Recorded(s: State) {
    && (forall t :: t in s.open ==>
          if Unrecorded(s.call, t) then s.open[t].since == s.now
          else t in s.placedAt && s.placedAt[t] == s.open[t].since)
    && (s.call.Edited? ==> s.call.was !in s.open && s.call.was != s.call.added)
    && (s.call.Cancelled? ==> s.open.Keys !! Txids(s.call.orders))
  }

  /** The running call's units were computed just now. */
  ghost predicate PricedNow(s: State) {
    && (s.call.Cancelling? ==> s.call.units == Total(s.call.orders, LocalCost(Cancel, s.placedAt, s.now)))
    && (s.call.Changing? ==> s.call.cost == LocalCost(s.call.op, s.placedAt, s.now)(s.call.order.txid))
  }

  ghost predicate ExactCharges(charges: seq<Charge>) {
    forall k :: 0 <= k < |charges| ==> charges[k].charged == charges[k].due
  }

  /**
    Time passes only while no request is at Kraken and no reply outstanding; an order is cancelled while
    open, and amended under its own pair.
  */
  ghost predicate Promptly(s: State, e: Event) {
    && (e.Tick? ==> s.call.Idle? || s.call.Listing? || s.call.Listed? || s.call.Adding?)
    && (e.AmendAct? ==> AmendsOwn(s))
    && (e.CancelAct? && s.call.Cancelling? ==> Proper(s.call.orders, s.open))
  }

  lemma RecordedKept(s: State, e: Event)
    requires Timed(s) && Recorded(s) && Enabled(s, e) && Promptly(s, e)
    ensures Recorded(Step(s, e))
  {
    hide Step, Timed, Recorded;
    if e.Add? || e.AddReply? || e.CancelAct? || e.CancelReply? { OrdersRecorded(s, e); } else { OthersRecorded(s, e); }
  }

  lemma OrdersRecorded(s: State, e: Event)
    requires Timed(s) && Recorded(s) && Enabled(s, e) && (e.Add? || e.AddReply? || e.CancelAct? || e.CancelReply?)
    ensures Recorded(Step(s, e))
  {
    hide Total, Cost, Age, Count, Uncount, AddOpen, LocalCost, TrueCost, DistinctIds, Txids;
  }

  lemma OthersRecorded(s: State, e: Event)
    requires Timed(s) && Recorded(s) && Enabled(s, e) && Promptly(s, e)
    requires !(e.Add? || e.AddReply? || e.CancelAct? || e.CancelReply?)
    ensures Recorded(Step(s, e))
  {
    hide Total, Cost, Age, Count, Fits, ChargeOne, LocalCost, TrueCost, Txids, Proper, Relisted, ShownOn, Swapped;
  }

  lemma {:induction false} SameTotal(orders: seq<Named>, open: map<string, Order>, a: string -> int, b: string -> int)
    requires forall k :: 0 <= k < |orders| ==> orders[k].txid in open && open[orders[k].txid].pair == orders[k].pair
    requires forall k :: 0 <= k < |orders| ==> a(orders[k].txid) == b(orders[k].txid)
    ensures Total(orders, a) == Owed(orders, open, b)
  {
    if orders != [] {
      var t := orders[..|orders| - 1];
      assert forall k :: 0 <= k < |t| ==> t[k] == orders[k];
      SameTotal(t, open, a, b);
    }
  }

  lemma PricedNowKept(s: State, e: Event)
    requires PricedNow(s) && Enabled(s, e) && Promptly(s, e)
    ensures PricedNow(Step(s, e))
  {
    hide Total, Cost, Age, Count, Stamp, Opened, Uncount, Fits, AddOpen, ChargeOne, Proper;
  }

  lemma CostAgrees(s: State, op: Op, txid: string)
    requires Recorded(s) && (s.call.Cancelling? || s.call.Changing?) && txid in s.open
    ensures LocalCost(op, s.placedAt, s.now)(txid) == TrueCost(op, s.open, s.now)(txid)
  {
    hide Cost;
  }

  lemma ExactChargesKept(s: State, e: Event)
    requires Recorded(s) && PricedNow(s) && ExactCharges(s.charges) && Enabled(s, e) && Promptly(s, e)
    ensures ExactCharges(Step(s, e).charges)
  {
    hide LocalCost, TrueCost, Total, Recorded, Count, Stamp, Opened, Uncount, Fits, AddOpen;
    if e.CancelAct? {
      var orders := s.call.orders;
      forall k | 0 <= k < |orders|
        ensures LocalCost(Cancel, s.placedAt, s.now)(orders[k].txid) == TrueCost(Cancel, s.open, s.now)(orders[k].txid)
      {
        CostAgrees(s, Cancel, orders[k].txid);
      }
      SameTotal(orders, s.open, LocalCost(Cancel, s.placedAt, s.now), TrueCost(Cancel, s.open, s.now));
    } else if e.AmendAct? || e.EditAct? {
      CostAgrees(s, s.call.op, s.call.order.txid);
      OwedOne(s, s.call.order, s.call.op);
    }
  }

  /**
    The charges are no more cautious than they must be: when no time passes between computing the
    units, Kraken's acting and the reply, every call is charged exactly what Kraken counts. So only
    delays, and orders this process did not place, are overcharged.
  */
  lemma {:induction false} PromptRunsChargeExactly(tier: Tier, states: seq<State>, events: seq<Event>, i: nat)
    requires IsRun(tier, states, events) && i < |states|
    requires forall j :: 0 <= j < |events| ==> Promptly(states[j], events[j])
    ensures Timed(states[i]) && Recorded(states[i]) && PricedNow(states[i]) && ExactCharges(states[i].charges)
  {
    hide Timed, Recorded, PricedNow, ExactCharges, Step, Enabled, Promptly;
    if i == 0 {
      StartRecorded(tier);
    } else {
      PromptRunsChargeExactly(tier, states, events, i - 1);
      TimedKept(states[i - 1], events[i - 1]);
      RecordedKept(states[i - 1], events[i - 1]);
      PricedNowKept(states[i - 1], events[i - 1]);
      ExactChargesKept(states[i - 1], events[i - 1]);
    }
  }

  lemma StartRecorded(tier: Tier)
    ensures Timed(Start(tier)) && Recorded(Start(tier)) && PricedNow(Start(tier)) && ExactCharges(Start(tier).charges)
  {
  }

  /** A call goes out without a listing exactly when the local count leaves room below the tier's cap of 60, 80 or 225. */
  lemma PlacedAtOnceExactly(s: State, pair: string, n: nat)
    requires s.call.Idle?
    ensures Step(s, Place(pair, n)).call == Adding(pair, n) <==>
      Local(s.counts, pair) + n <= match s.tier case Starter => 60 case Intermediate => 80 case Pro => 225
    ensures Step(s, Place(pair, n)).call != Adding(pair, n) ==> Step(s, Place(pair, n)).call == Listing(pair, n)
  {
  }

  /** The reply of the running call records this order's time. */
  predicate Stamps(s: State, e: Event, t: string) {
    match e
    case AddReply => s.call.Added? && t in s.call.txids
    case AmendReply => s.call.Amended? && t == s.call.txid
    case EditReply => s.call.Edited? && t == s.call.added
    case _ => false
  }

  /** The reply of the running call makes this order's time forgotten. */
  predicate ForgetsTime(s: State, e: Event, t: string) {
    match e
    case CancelReply => s.call.Cancelled? && t in Txids(s.call.orders)
    case EditReply => s.call.Edited? && t == s.call.was && t != s.call.added
    case _ => false
  }

  /** Times are recorded at the reply, for what it placed, amended or put in, and forgotten for what it cancelled or replaced. */
  lemma RecordedTimesExactly(s: State, e: Event, t: string)
    requires Enabled(s, e)
    ensures var v := Step(s, e);
      && (t in v.placedAt <==> Stamps(s, e, t) || (t in s.placedAt && !ForgetsTime(s, e, t)))
      && (t in v.placedAt ==> v.placedAt[t] == if Stamps(s, e, t) then s.now else s.placedAt[t])
  {
    hide Txids, Total, Owed, Uncount, Count, Relisted, ShownOn, Swapped, Opened, Cost, DistinctIds, Fits, AddOpen;
  }

  /** A listing is refused exactly when the pair was too full at the moment Kraken listed it. */
  lemma {:induction false} RefusedExactlyWhenFull(tier: Tier, states: seq<State>, events: seq<Event>, i: nat, j: nat)
    requires IsRun(tier, states, events) && i < j < |events| && events[i].List? && events[j].ListReply?
    requires forall k :: i < k < j ==> events[k].Tick? || events[k].Fill?
    ensures states[i].call.Listing?
    ensures var pair, n := states[i].call.pair, states[i].call.n;
      if Count(states[i].open, pair) + n > Cap(states[i].tier)
      then states[j + 1].call == Idle
      else states[j + 1].call == Adding(pair, n)
  {
    hide Count;
    StillListed(tier, states, events, i, j);
  }

  lemma {:induction false} StillListed(tier: Tier, states: seq<State>, events: seq<Event>, i: nat, j: nat)
    requires IsRun(tier, states, events) && i < j < |events| && events[i].List?
    requires forall k :: i < k < j ==> events[k].Tick? || events[k].Fill?
    ensures Enabled(states[i], List) && states[j].call == Step(states[i], List).call && states[j].tier == states[i].tier
    decreases j
  {
    hide Count, Opened, Stamp, Uncount, Total;
    if j > i + 1 {
      StillListed(tier, states, events, i, j - 1);
      assert events[j - 1].Tick? || events[j - 1].Fill?;
    }
    assert states[j] == Step(states[j - 1], events[j - 1]);
  }

  // ---- a bound lost ---------------------------------------------------------------------------

  ghost predicate Reachable(tier: Tier, s: State) {
    exists states, events :: IsRun(tier, states, events) && states[|events|] == s
  }

  lemma StartIsReachable(tier: Tier)
    ensures Reachable(tier, Start(tier))
  {
    assert IsRun(tier, [Start(tier)], []);
  }

  lemma StepIsReachable(tier: Tier, s: State, e: Event)
    requires Reachable(tier, s) && Enabled(s, e)
    ensures Reachable(tier, Step(s, e))
  {
    hide Step, Enabled;
    var states, events :| IsRun(tier, states, events) && states[|events|] == s;
    assert IsRun(tier, states + [Step(s, e)], events + [e]);
  }

  /** Two orders are placed together on a pair. */
  lemma TwoPlaced(tier: Tier, p: string, a: string, b: string) returns (s: State)
    requires a != b
    ensures Reachable(tier, s) && s.call == Idle && Local(s.counts, p) == 2
    ensures s.open == map[a := Order(p, 0.0), b := Order(p, 0.0)] && s.now == 0.0 && s.charges == []
  {
    hide Reachable, Stamp, Cap;
    StartIsReachable(tier);
    var s0 := Start(tier);
    StepIsReachable(tier, s0, Place(p, 2));
    var s1 := s0.(call := Adding(p, 2));
    StepIsReachable(tier, s1, Add([a, b]));
    var s2 := Step(s1, Add([a, b]));
    assert s2.open == map[a := Order(p, 0.0), b := Order(p, 0.0)];
    StepIsReachable(tier, s2, AddReply);
    s := Step(s2, AddReply);
  }

  /** Cancelling one order brings the count down by one, whether or not it was still open. */
  lemma CancelOnce(tier: Tier, s: State, p: string, a: string) returns (s': State)
    requires Reachable(tier, s) && s.call == Idle && Local(s.counts, p) >= 1
    ensures Reachable(tier, s') && s'.call == Idle && s'.open == s.open - {a}
    ensures Local(s'.counts, p) == Local(s.counts, p) - 1
  {
    hide Reachable, Total, Cost;
    var orders := [Named(p, a)];
    assert Txids(orders) == {a} by { TxidsAppended([], Named(p, a)); assert [] + [Named(p, a)] == orders; }
    assert Mentions(orders, p) == 1;
    UncountIs(s.counts, orders, p);
    StepIsReachable(tier, s, CancelAll(orders));
    var s1 := Step(s, CancelAll(orders));
    StepIsReachable(tier, s1, CancelAct);
    var s2 := Step(s1, CancelAct);
    StepIsReachable(tier, s2, CancelReply);
    s' := Step(s2, CancelReply);
  }

  /**
    Without the hypothesis the bound is lost: of two orders a fills; cancelling a once uses up the slack
    of the fill, cancelling it again leaves a count of 0 while b is open.
  */
  lemma CancellingTwiceLosesTheBound(tier: Tier, p: string, a: string, b: string) returns (s: State)
    requires a != b
    ensures Reachable(tier, s) && s.call == Idle && Local(s.counts, p) == 0 && Count(s.open, p) == 1
  {
    hide Reachable, Local;
    var placed := TwoPlaced(tier, p, a, b);
    StepIsReachable(tier, placed, Fill({a}));
    var filled := Step(placed, Fill({a}));
    assert filled.open == map[b := Order(p, 0.0)];
    var once := CancelOnce(tier, filled, p, a);
    s := CancelOnce(tier, once, p, a);
    assert s.open == map[b := Order(p, 0.0)];
    assert OnPair(s.open, p) == {b};
  }

  // ---- the program's object -------------------------------------------------------------------

  function Listings(pairs: seq<string>, pair: string): nat {
    if pairs == [] then 0
    else Listings(pairs[..|pairs| - 1], pair) + if pairs[|pairs| - 1] == pair then 1 else 0
  }

  lemma StampNone(placedAt: map<string, real>, t: real)
    ensures Stamp(placedAt, [], t) == placedAt
  {
  }

  lemma StampOne(placedAt: map<string, real>, txids: seq<string>, txid: string, t: real)
    ensures Stamp(placedAt, txids + [txid], t) == Stamp(placedAt, txids, t)[txid := t]
  {
  }

  lemma TotalNone(cost: string -> int)
    ensures Total([], cost) == map[]
  {
  }

  lemma TotalOne(orders: seq<Named>, o: Named, cost: string -> int)
    ensures Total(orders + [o], cost) == Total(orders, cost)[o.pair := Local(Total(orders, cost), o.pair) + cost(o.txid)]
  {
    assert (orders + [o])[..|orders|] == orders;
  }

  /** The order methods' state on a gateway; `world` is the state machine the run theorems speak of. */
  class OrdersMixin {
    const tier: Tier
    var openOrderCounts: map<string, int>
    var orderPlacedAt: map<string, real>
    ghost var world: State

    ghost predicate Valid()
      reads this
    {
      world.tier == tier && world.counts == openOrderCounts && world.placedAt == orderPlacedAt
    }

    constructor (tier: Tier)
      ensures Valid() && world == Start(tier) && this.tier == tier
    {
      this.tier := tier;
      openOrderCounts, orderPlacedAt, world := map[], map[], Start(tier);
    }

    /** _ensure_room up to the listing: true when the call may be sent at once. */
    method EnsureRoom(pair: string, n: nat) returns (room: bool)
      requires Valid() && world.call.Idle?
      modifies this`world
      ensures Valid() && world == Step(old(world), Place(pair, n))
      ensures room <==> world.call == Adding(pair, n)
    {
      var count := if pair in openOrderCounts then openOrderCounts[pair] else 0;
      room := count + n <= SMALLEST_CAP;
      if !room {
        room := count + n <= Cap(tier);
      }
      world := Step(world, Place(pair, n));
    }

    /** _ensure_room behind the listing; `pairs` are the pairs of the orders it showed. */
    method OpenOrdersListed(pair: string, n: nat, pairs: seq<string>) returns (room: bool)
      requires Valid() && world.call == Listed(pair, n, Listings(pairs, pair))
      modifies this`world, this`openOrderCounts
      ensures Valid() && world == Step(old(world), ListReply)
      ensures room <==> world.call == Adding(pair, n)
    {
      var count := 0;
      for k := 0 to |pairs|
        invariant count == Listings(pairs[..k], pair)
      {
        assert pairs[..k + 1][..k] == pairs[..k];
        if pairs[k] == pair { count := count + 1; }
      }
      assert pairs[..|pairs|] == pairs;
      openOrderCounts := openOrderCounts[pair := count];
      room := count + n <= Cap(tier);
      world := Step(world, ListReply);
    }

    method AddOpenCount(pair: string, delta: int)
      modifies this`openOrderCounts
      ensures openOrderCounts == AddOpen(old(openOrderCounts), pair, delta)
    {
      var moved := (if pair in openOrderCounts then openOrderCounts[pair] else 0) + delta;
      openOrderCounts := openOrderCounts[pair := if moved > 0 then moved else 0];
    }

    /** place_order and place_orders_batch behind the reply. */
    method OrdersPlaced(pair: string, txids: seq<string>, clock: real)
      requires Valid() && world.call == Added(pair, txids) && clock == world.now
      modifies this
      ensures Valid() && world == Step(old(world), AddReply)
    {
      hide Count, Total, Uncount, Fits, Cost, Opened, ChargeOne, LocalCost, TrueCost;
      StampAll(txids, clock);
      AddOpenCount(pair, |txids|);
      world := Step(world, AddReply);
    }

    method StampAll(txids: seq<string>, clock: real)
      modifies this`orderPlacedAt
      ensures orderPlacedAt == Stamp(old(orderPlacedAt), txids, clock)
    {
      hide Stamp;
      StampNone(orderPlacedAt, clock);
      for k := 0 to |txids|
        invariant orderPlacedAt == Stamp(old(orderPlacedAt), txids[..k], clock)
      {
        assert txids[..k + 1] == txids[..k] + [txids[k]];
        StampOne(old(orderPlacedAt), txids[..k], txids[k], clock);
        orderPlacedAt := orderPlacedAt[txids[k] := clock];
      }
      assert txids[..|txids|] == txids;
    }

    function AgeOf(txid: string, clock: real): real
      reads this
    {
      if txid in orderPlacedAt then clock - orderPlacedAt[txid] else 0.0
    }

    /** The units of cancel_order and cancel_orders_batch, pair by pair, before the request. */
    method CancelUnits(orders: seq<Named>, clock: real) returns (units: map<string, int>)
      requires Valid() && world.call.Idle? && clock == world.now
      modifies this`world
      ensures Valid() && world == Step(old(world), CancelAll(orders))
      ensures world.call == Cancelling(orders, units, clock)
    {
      hide Cost, Count, Stamp, Uncount, Fits, Opened, ChargeOne, TrueCost, Total;
      units := map[];
      ghost var cost := LocalCost(Cancel, orderPlacedAt, clock);
      TotalNone(cost);
      for k := 0 to |orders|
        invariant Valid() && world == old(world)
        invariant units == Total(orders[..k], cost)
      {
        assert orders[..k + 1] == orders[..k] + [orders[k]];
        TotalOne(orders[..k], orders[k], cost);
        var pair := orders[k].pair;
        units := units[pair := (if pair in units then units[pair] else 0) + Cost(Cancel, AgeOf(orders[k].txid, clock))];
      }
      assert orders[..|orders|] == orders;
      world := Step(world, CancelAll(orders));
    }

    /** cancel_order and cancel_orders_batch behind the reply. */
    method OrdersCancelled(orders: seq<Named>)
      requires Valid() && world.call == Cancelled(orders)
      modifies this
      ensures Valid() && world == Step(old(world), CancelReply)
    {
      for k := 0 to |orders|
        invariant world == old(world)
        invariant orderPlacedAt == old(orderPlacedAt) - Txids(orders[..k])
        invariant openOrderCounts == Uncount(old(openOrderCounts), orders[..k])
      {
        assert orders[..k + 1][..k] == orders[..k] && orders[..k + 1] == orders[..k] + [orders[k]];
        TxidsAppended(orders[..k], orders[k]);
        orderPlacedAt := orderPlacedAt - {orders[k].txid};
        AddOpenCount(orders[k].pair, -1);
      }
      assert orders[..|orders|] == orders;
      world := Step(world, CancelReply);
    }

    /** The units of amend_order and edit_order, before the request. */
    method ChangeUnits(op: Op, order: Named, clock: real) returns (units: int)
      requires Valid() && world.call.Idle? && op != Cancel && clock == world.now
      modifies this`world
      ensures Valid() && world == Step(old(world), Change(op, order))
      ensures world.call == Changing(op, order, units, clock)
    {
      hide Cost;
      units := Cost(op, AgeOf(order.txid, clock));
      world := Step(world, Change(op, order));
    }

    method OrderAmended(txid: string, clock: real)
      requires Valid() && world.call == Amended(txid) && clock == world.now
      modifies this
      ensures Valid() && world == Step(old(world), AmendReply)
    {
      orderPlacedAt := orderPlacedAt[txid := clock];
      world := Step(world, AmendReply);
    }

    method OrderEdited(txid: string, newTxid: string, clock: real)
      requires Valid() && world.call == Edited(txid, newTxid) && clock == world.now
      modifies this
      ensures Valid() && world == Step(old(world), EditReply)
    {
      orderPlacedAt := orderPlacedAt - {txid};
      orderPlacedAt := orderPlacedAt[newTxid := clock];
      world := Step(world, EditReply);
    }
  }
}
