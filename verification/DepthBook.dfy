/** The own depth book of a stream: IB's row inserts, updates and deletes, cut off at ten rows a side. */
module DepthBook {
  const DEPTH_ROWS: nat := 10

  datatype Row = Row(price: real, size: real)

  /** One element of domTicks; `side` 1 is the bid side, `operation` 0, 1, 2 is insert, update, delete. */
  datatype Tick = Tick(side: int, operation: int, position: int, row: Row)

  /** The row edit with no limit on the number of rows. */
  function Edit(book: seq<Row>, t: Tick): seq<Row> {
    var pos := t.position;
    if t.operation == 0 && 0 <= pos <= |book| then book[..pos] + [t.row] + book[pos..]
    else if t.operation == 1 && 0 <= pos < |book| then book[pos := t.row]
    else if t.operation == 2 && 0 <= pos < |book| then book[..pos] + book[pos + 1..]
    else book
  }

  /** IB's shifting rules, row by row: what lies in front of the position stays, what lies behind moves by one or stays. */
  lemma EditShifts(book: seq<Row>, t: Tick, k: nat)
    ensures var r, pos := Edit(book, t), t.position;
      if t.operation == 0 && 0 <= pos <= |book| then
        |r| == |book| + 1 && r[pos] == t.row && (k < pos ==> r[k] == book[k]) && (pos <= k < |book| ==> r[k + 1] == book[k])
      else if t.operation == 1 && 0 <= pos < |book| then
        |r| == |book| && r[pos] == t.row && (k < |book| && k != pos ==> r[k] == book[k])
      else if t.operation == 2 && 0 <= pos < |book| then
        |r| == |book| - 1 && (k < pos ==> r[k] == book[k]) && (pos < k < |book| ==> r[k - 1] == book[k])
      else r == book
  {
  }

  function Cut(book: seq<Row>): seq<Row> { if |book| <= DEPTH_ROWS then book else book[..DEPTH_ROWS] }

  /** _apply_depth_tick on one side. */
  function Apply(book: seq<Row>, t: Tick): seq<Row> {
    if t.operation == 0 && 0 <= t.position <= |book| then Cut(Edit(book, t)) else Edit(book, t)
  }

  datatype Book = Book(bids: seq<Row>, asks: seq<Row>)

  const EMPTY := Book([], [])

  datatype Event = Update(tick: Tick) | Reset

  function Handle(b: Book, e: Event): Book {
    match e
    case Reset => EMPTY
    case Update(t) => if t.side == 1 then b.(bids := Apply(b.bids, t)) else b.(asks := Apply(b.asks, t))
  }

  /** The book as it would be without the limit. */
  function HandleAll(b: Book, e: Event): Book {
    match e
    case Reset => EMPTY
    case Update(t) => if t.side == 1 then b.(bids := Edit(b.bids, t)) else b.(asks := Edit(b.asks, t))
  }

  function Own(events: seq<Event>): Book {
    if events == [] then EMPTY else Handle(Own(events[..|events| - 1]), events[|events| - 1])
  }

  function Full(events: seq<Event>): Book {
    if events == [] then EMPTY else HandleAll(Full(events[..|events| - 1]), events[|events| - 1])
  }

  ghost predicate Shows(own: seq<Row>, full: seq<Row>) { |own| <= DEPTH_ROWS && own <= full }

  /** Any tick, in range or not, keeps the cut-off side a prefix of the whole one. */
  lemma ApplyShows(own: seq<Row>, full: seq<Row>, t: Tick)
    requires Shows(own, full)
    ensures Shows(Apply(own, t), Edit(full, t))
  {
    var pos := t.position;
    if 0 <= pos <= |own| {
      assert full == own + full[|own|..];
    }
  }

  /** For every sequence of ticks and resets, the own book shows at most ten rows a side, all of them the top rows. */
  lemma {:induction false} OwnBookIsTopOfFullBook(events: seq<Event>)
    ensures Shows(Own(events).bids, Full(events).bids) && Shows(Own(events).asks, Full(events).asks)
  {
    hide Apply, Edit, Shows;
    if events == [] {
      EmptyShows();
    } else {
      var before, last := events[..|events| - 1], events[|events| - 1];
      OwnBookIsTopOfFullBook(before);
      EmptyShows();
      if last.Update? {
        ApplyShows(Own(before).bids, Full(before).bids, last.tick);
        ApplyShows(Own(before).asks, Full(before).asks, last.tick);
      }
    }
  }

  lemma EmptyShows()
    ensures Shows([], [])
  {
  }

  /** As long as no side of the whole book ever passed ten rows since the last reset, nothing is missing. */
  lemma {:induction false} NothingMissingBelowTheCut(events: seq<Event>)
    requires forall k :: 0 <= k <= |events| ==>
      |Full(events[..k]).bids| <= 10 && |Full(events[..k]).asks| <= 10
    ensures Own(events) == Full(events)
  {
    hide Edit;
    if events != [] {
      var before, last := events[..|events| - 1], events[|events| - 1];
      forall k | 0 <= k <= |before| ensures before[..k] == events[..k] {}
      NothingMissingBelowTheCut(before);
      assert events[..|events|] == events;
    }
  }

  predicate BidTick(e: Event) { e.Update? && e.tick.side == 1 }

  /** The ticks of one side, and the resets. */
  function Of(events: seq<Event>, bids: bool): seq<Event> {
    if events == [] then []
    else
      var rest, last := Of(events[..|events| - 1], bids), events[|events| - 1];
      if last.Reset? || BidTick(last) == bids then rest + [last] else rest
  }

  /** The bid side is made by the ticks with side 1 alone, the ask side by all others; neither sees the other. */
  lemma {:induction false} SidesApart(events: seq<Event>)
    ensures Own(events).bids == Own(Of(events, true)).bids && Own(Of(events, true)).asks == []
    ensures Own(events).asks == Own(Of(events, false)).asks && Own(Of(events, false)).bids == []
  {
    hide Own, Handle;
    if events == [] {
      assert Own([]) == EMPTY by { OwnNothing(); }
    } else {
      var rest, last := events[..|events| - 1], events[|events| - 1];
      SidesApart(rest);
      assert events == rest + [last];
      OwnNext(rest, last);
      OwnNext(Of(rest, true), last);
      OwnNext(Of(rest, false), last);
      HandleSide(Own(rest), Own(Of(rest, true)), Own(Of(rest, false)), last);
    }
  }

  lemma OwnNothing()
    ensures Own([]) == EMPTY
  {
  }

  lemma OwnNext(events: seq<Event>, e: Event)
    ensures Own(events + [e]) == Handle(Own(events), e)
  {
    hide Handle;
    assert (events + [e])[..|events|] == events;
  }

  lemma HandleSide(b: Book, onBids: Book, onAsks: Book, e: Event)
    requires b.bids == onBids.bids && onBids.asks == [] && b.asks == onAsks.asks && onAsks.bids == []
    ensures if e.Reset? then Handle(b, e) == EMPTY
            else if BidTick(e) then Handle(b, e).asks == b.asks && Handle(b, e).bids == Handle(onBids, e).bids
            else Handle(b, e).bids == b.bids && Handle(b, e).asks == Handle(onAsks, e).asks
    ensures e.Reset? || BidTick(e) ==> Handle(onBids, e).asks == []
    ensures e.Reset? || !BidTick(e) ==> Handle(onAsks, e).bids == []
    ensures e.Reset? ==> Handle(onBids, e) == EMPTY == Handle(onAsks, e)
  {
    hide Apply;
  }

  /** What was before a reset leaves no trace. */
  lemma {:induction false} ResetForgets(before: seq<Event>, after: seq<Event>)
    ensures Own(before + [Reset] + after) == Own(after)
  {
    hide Handle;
    var all := before + [Reset] + after;
    if after == [] {
      assert all[..|all| - 1] == before && all[|all| - 1] == Reset;
      HandledReset(Own(before));
    } else {
      assert all[..|all| - 1] == before + [Reset] + after[..|after| - 1];
      ResetForgets(before, after[..|after| - 1]);
    }
  }

  lemma HandledReset(b: Book)
    ensures Handle(b, Reset) == EMPTY
  {
  }

  /** Deleting the row just inserted restores the side, unless the insert pushed the last row off a full side. */
  lemma DeleteUndoesInsertExactly(book: seq<Row>, side: int, pos: int, row: Row)
    requires |book| <= 10 && 0 <= pos <= |book|
    ensures Apply(Apply(book, Tick(side, 0, pos, row)), Tick(side, 2, pos, row)) == book <==>
      |book| < 10 || pos == 10
  {
    var inserted := Apply(book, Tick(side, 0, pos, row));
    if |book| < DEPTH_ROWS {
      assert Apply(inserted, Tick(side, 2, pos, row)) == book;
    } else if pos == DEPTH_ROWS {
      assert inserted == book;
    } else {
      assert |Apply(inserted, Tick(side, 2, pos, row))| == DEPTH_ROWS - 1;
    }
  }

  /** The book fields of a stream. */
  class StreamBook {
    var bids: seq<Row>
    var asks: seq<Row>
    ghost var seen: seq<Event>

    ghost predicate Valid()
      reads this
    {
      Book(bids, asks) == Own(seen)
    }

    constructor ()
      ensures Valid() && seen == []
    {
      bids, asks, seen := [], [], [];
    }

    method ApplyDepthTick(t: Tick)
      requires Valid()
      modifies this
      ensures Valid() && seen == old(seen) + [Update(t)]
    {
      var book := if t.side == 1 then bids else asks;
      var pos := t.position;
      if t.operation == 0 {
        if 0 <= pos <= |book| {
          book := book[..pos] + [t.row] + book[pos..];
          if |book| > DEPTH_ROWS { book := book[..DEPTH_ROWS]; }
        }
      } else if 0 <= pos < |book| {
        if t.operation == 1 {
          book := book[pos := t.row];
        } else if t.operation == 2 {
          book := book[..pos] + book[pos + 1..];
        }
      }
      assert book == Apply(if t.side == 1 then bids else asks, t);
      assert (seen + [Update(t)])[..|seen|] == seen;
      seen := seen + [Update(t)];
      if t.side == 1 { bids := book; } else { asks := book; }
    }

    /** _on_depth_update up to the wake: all raw ticks of one update, in order. */
    method ApplyUpdate(ticks: seq<Tick>)
      requires Valid()
      modifies this
      ensures Valid() && |seen| == |old(seen)| + |ticks|
      ensures seen[..|old(seen)|] == old(seen)
      ensures forall k :: 0 <= k < |ticks| ==> seen[|old(seen)| + k] == Update(ticks[k])
    {
      for k := 0 to |ticks|
        invariant Valid() && |seen| == |old(seen)| + k && seen[..|old(seen)|] == old(seen)
        invariant forall j :: 0 <= j < k ==> seen[|old(seen)| + j] == Update(ticks[j])
      {
        ApplyDepthTick(ticks[k]);
      }
    }

    /** The stream's share of _clear_depth_books. */
    method Clear()
      requires Valid()
      modifies this
      ensures Valid() && seen == old(seen) + [Reset] && bids == [] && asks == []
    {
      seen := seen + [Reset];
      bids, asks := [], [];
    }
  }
}
