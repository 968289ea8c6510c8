/** Synthetic trade ids: `conId:tickNs:count`, with a counter per contract and second that old seconds leave. */
module TradeIds {
  import opened Prelude
  import M = SymbolMapper

  const NANOS: int := 1_000_000_000

  datatype Tick = Tick(conId: int, ns: int)

  /** Floor division: the divisor is positive. */
  function Second(t: Tick): int { t.ns / NANOS }

  type Counter = map<(int, int), nat>

  function Counted(counter: Counter, t: Tick): nat {
    if (t.conId, Second(t)) in counter then counter[(t.conId, Second(t))] else 0
  }

  function Without(counter: Counter, second: int): Counter {
    map k | k in counter && k.1 >= second :: counter[k]
  }

  /** _synthetic_trade_id's effect on the counter. */
  function Next(counter: Counter, t: Tick): Counter {
    Without(counter[(t.conId, Second(t)) := Counted(counter, t) + 1], Second(t))
  }

  /** The parts of an id; `Render` prints them. */
  datatype Id = Id(conId: int, ns: int, count: nat)

  function After(ticks: seq<Tick>): Counter {
    if ticks == [] then map[] else Next(After(ticks[..|ticks| - 1]), ticks[|ticks| - 1])
  }

  /** The id given to the tick that comes after `ticks`. */
  function IdOf(ticks: seq<Tick>, t: Tick): Id { Id(t.conId, t.ns, Counted(After(ticks), t)) }

  // ---- what the counter counts ----------------------------------------------------------------

  /** Ticks of a contract and second since the last tick of a later second. */
  function CountSince(ticks: seq<Tick>, conId: int, second: int): nat {
    if ticks == [] then 0
    else
      var last := ticks[|ticks| - 1];
      if Second(last) > second then 0
      else CountSince(ticks[..|ticks| - 1], conId, second) + if last.conId == conId && Second(last) == second then 1 else 0
  }

  /** For every sequence of ticks, in order or not: the counter holds exactly the non-zero counts. */
  lemma {:induction false} CounterCountsSince(ticks: seq<Tick>, conId: int, second: int)
    ensures if (conId, second) in After(ticks)
      then After(ticks)[(conId, second)] == CountSince(ticks, conId, second) > 0
      else CountSince(ticks, conId, second) == 0
  {
    if ticks != [] {
      var before, last := ticks[..|ticks| - 1], ticks[|ticks| - 1];
      CounterCountsSince(before, conId, second);
      CounterCountsSince(before, last.conId, Second(last));
    }
  }

  // ---- uniqueness -----------------------------------------------------------------------------

  ghost predicate SecondsRise(ticks: seq<Tick>) {
    forall i, j :: 0 <= i < j < |ticks| ==> Second(ticks[i]) <= Second(ticks[j])
  }

  /** While no later second came in between, the count only grows past each tick of the key. */
  lemma {:induction false} CountGrows(ticks: seq<Tick>, i: nat, j: nat)
    requires i < j <= |ticks|
    requires forall k :: i < k < j ==> Second(ticks[k]) <= Second(ticks[i])
    ensures CountSince(ticks[..j], ticks[i].conId, Second(ticks[i]))
      >= CountSince(ticks[..i], ticks[i].conId, Second(ticks[i])) + 1
    decreases j
  {
    assert ticks[..j][..j - 1] == ticks[..j - 1];
    if i < j - 1 { CountGrows(ticks, i, j - 1); }
  }

  /**
    When two ticks get the same id, exactly, in any order of arrival: they are the same tick of the same
    contract, and as many ticks of its second came before the later one since the last tick of a later
    second as had come before the earlier one.
  */
  lemma SameIdExactly(ticks: seq<Tick>, i: nat, j: nat)
    requires i < j < |ticks|
    ensures Render(IdOf(ticks[..i], ticks[i])) == Render(IdOf(ticks[..j], ticks[j])) <==>
      && ticks[i] == ticks[j]
      && CountSince(ticks[..i], ticks[i].conId, Second(ticks[i])) == CountSince(ticks[..j], ticks[j].conId, Second(ticks[j]))
  {
    hide Render;
    RenderInjective(IdOf(ticks[..i], ticks[i]), IdOf(ticks[..j], ticks[j]));
    CounterCountsSince(ticks[..i], ticks[i].conId, Second(ticks[i]));
    CounterCountsSince(ticks[..j], ticks[j].conId, Second(ticks[j]));
  }

  /** Two ticks get the same id only when a tick of a later second came between them. */
  lemma SameIdNeedsLaterSecond(ticks: seq<Tick>, i: nat, j: nat)
    requires i < j < |ticks| && IdOf(ticks[..i], ticks[i]) == IdOf(ticks[..j], ticks[j])
    ensures exists k :: i < k < j && Second(ticks[k]) > Second(ticks[i])
  {
    CounterCountsSince(ticks[..i], ticks[i].conId, Second(ticks[i]));
    CounterCountsSince(ticks[..j], ticks[j].conId, Second(ticks[j]));
    if forall k :: i < k < j ==> Second(ticks[k]) <= Second(ticks[i]) {
      CountGrows(ticks, i, j);
    }
  }

  /** In any run whose seconds never go back, across all contracts, no two printed ids are equal. */
  lemma IdsAreUnique(ticks: seq<Tick>, i: nat, j: nat)
    requires SecondsRise(ticks) && i < j < |ticks|
    ensures Render(IdOf(ticks[..i], ticks[i])) != Render(IdOf(ticks[..j], ticks[j]))
  {
    hide Render, IdOf, Second;
    var a, b := IdOf(ticks[..i], ticks[i]), IdOf(ticks[..j], ticks[j]);
    RenderInjective(a, b);
    SameTick(ticks[..i], ticks[i]);
    SameTick(ticks[..j], ticks[j]);
    SecondOf(ticks[i], ticks[j]);
    assert forall k :: i < k < j ==> Second(ticks[k]) <= Second(ticks[j]);
    if a == b { SameIdNeedsLaterSecond(ticks, i, j); }
  }

  lemma SameTick(ticks: seq<Tick>, t: Tick)
    ensures IdOf(ticks, t).conId == t.conId && IdOf(ticks, t).ns == t.ns
  {
  }

  lemma SecondOf(a: Tick, b: Tick)
    ensures a.ns == b.ns ==> Second(a) == Second(b)
  {
  }

  /** Earlier ticks of the contract in the second that starts at the given number of seconds. */
  function InSecond(ticks: seq<Tick>, conId: int, second: int): nat {
    if ticks == [] then 0
    else
      var last := ticks[|ticks| - 1];
      InSecond(ticks[..|ticks| - 1], conId, second)
        + if last.conId == conId && second * 1_000_000_000 <= last.ns < (second + 1) * 1_000_000_000 then 1 else 0
  }

  /** Where time does not go back, the number behind an id counts the contract's earlier ticks in its second. */
  lemma {:induction false} NumberedWithinTheSecond(ticks: seq<Tick>, t: Tick, second: int)
    requires second * 1_000_000_000 <= t.ns < (second + 1) * 1_000_000_000
    requires forall i :: 0 <= i < |ticks| ==> ticks[i].ns <= t.ns
    ensures IdOf(ticks, t) == Id(t.conId, t.ns, InSecond(ticks, t.conId, second))
  {
    hide Second;
    SecondIs(t, second);
    CounterCountsSince(ticks, t.conId, second);
    SinceIsInSecond(ticks, t.conId, second);
  }

  lemma SecondIs(t: Tick, second: int)
    ensures Second(t) == second <==> second * 1_000_000_000 <= t.ns < (second + 1) * 1_000_000_000
    ensures Second(t) > second <==> t.ns >= (second + 1) * 1_000_000_000
  {
  }

  lemma {:induction false} SinceIsInSecond(ticks: seq<Tick>, conId: int, second: int)
    requires forall i :: 0 <= i < |ticks| ==> ticks[i].ns < (second + 1) * 1_000_000_000
    ensures CountSince(ticks, conId, second) == InSecond(ticks, conId, second)
  {
    hide Second;
    if ticks != [] {
      SinceIsInSecond(ticks[..|ticks| - 1], conId, second);
      SecondIs(ticks[|ticks| - 1], second);
    }
  }

  /** Without that the claim is false: a tick that comes late, after a newer second, repeats an id. */
  lemma LateTickRepeatsAnId()
    ensures var ticks := [Tick(1, 0), Tick(1, NANOS), Tick(1, 0)];
      IdOf(ticks[..0], ticks[0]) == IdOf(ticks[..2], ticks[2])
  {
    var ticks := [Tick(1, 0), Tick(1, NANOS), Tick(1, 0)];
    CounterCountsSince(ticks[..2], 1, 0);
    CounterCountsSince(ticks[..0], 1, 0);
    assert ticks[..2][1] == Tick(1, NANOS);
    assert Second(Tick(1, NANOS)) == 1 && Second(Tick(1, 0)) == 0;
  }

  /** After every tick of such a run the counter holds only keys of that tick's second. */
  lemma {:induction false} OnlyNewestSecond(ticks: seq<Tick>)
    requires SecondsRise(ticks) && ticks != []
    ensures forall k :: k in After(ticks) ==> k.1 == Second(ticks[|ticks| - 1])
  {
    hide Second;
    var before := ticks[..|ticks| - 1];
    if before != [] {
      forall i, j | 0 <= i < j < |before| ensures Second(before[i]) <= Second(before[j]) {
        assert before[i] == ticks[i] && before[j] == ticks[j];
      }
      OnlyNewestSecond(before);
    }
  }

  // ---- printing -------------------------------------------------------------------------------

  function Digit(d: nat): char
    requires d < 10
  {
    ['0', '1', '2', '3', '4', '5', '6', '7', '8', '9'][d]
  }

  function Digits(n: nat): string {
    if n < 10 then [Digit(n)] else Digits(n / 10) + [Digit(n % 10)]
  }

  function Decimal(n: int): string { if n < 0 then "-" + Digits(-n) else Digits(n) }

  function Render(id: Id): string { Decimal(id.conId) + ":" + (Decimal(id.ns) + ":" + Decimal(id.count)) }

  lemma DigitInjective(a: nat, b: nat)
    requires a < 10 && b < 10 && Digit(a) == Digit(b)
    ensures a == b
  {
  }

  lemma {:induction false} DigitsPlain(n: nat)
    ensures Digits(n) != "" && forall i :: 0 <= i < |Digits(n)| ==> Digits(n)[i] != ':' && Digits(n)[i] != '-'
  {
    if n >= 10 { DigitsPlain(n / 10); }
  }

  lemma {:induction false} DigitsInjective(a: nat, b: nat)
    requires Digits(a) == Digits(b)
    ensures a == b
    decreases a
  {
    hide Digit;
    DigitsPlain(a / 10);
    DigitsPlain(b / 10);
    var s, t := Digits(a), Digits(b);
    assert s[|s| - 1] == Digit(a % 10) && t[|t| - 1] == Digit(b % 10);
    DigitInjective(a % 10, b % 10);
    if a >= 10 && b >= 10 {
      assert s[..|s| - 1] == Digits(a / 10) && t[..|t| - 1] == Digits(b / 10);
      DigitsInjective(a / 10, b / 10);
    }
  }

  lemma DecimalInjective(a: int, b: int)
    requires Decimal(a) == Decimal(b)
    ensures a == b
  {
    hide Digits;
    var m, n: nat := if a < 0 then -a else a, if b < 0 then -b else b;
    DigitsPlain(m);
    DigitsPlain(n);
    assert a < 0 <==> Decimal(a)[0] == '-';
    assert b < 0 <==> Decimal(b)[0] == '-';
    assert Digits(m) == if a < 0 then Decimal(a)[1..] else Decimal(a);
    assert Digits(n) == if b < 0 then Decimal(b)[1..] else Decimal(b);
    DigitsInjective(m, n);
  }

  lemma DecimalPlain(n: int)
    ensures ':' !in Decimal(n)
  {
    DigitsPlain(if n < 0 then -n else n);
  }

  /** Equal strings come from equal ids. */
  lemma RenderInjective(a: Id, b: Id)
    ensures Render(a) == Render(b) <==> a == b
  {
    hide Decimal;
    if Render(a) == Render(b) {
      DecimalPlain(a.conId);
      DecimalPlain(b.conId);
      DecimalPlain(a.ns);
      DecimalPlain(b.ns);
      FirstOccurrence(':', Decimal(a.conId), Decimal(a.ns) + ":" + Decimal(a.count),
                      Decimal(b.conId), Decimal(b.ns) + ":" + Decimal(b.count));
      FirstOccurrence(':', Decimal(a.ns), Decimal(a.count), Decimal(b.ns), Decimal(b.count));
      DecimalInjective(a.conId, b.conId);
      DecimalInjective(a.ns, b.ns);
      DecimalInjective(a.count, b.count);
    }
  }

  /** The number a string of decimal digits stands for. */
  function Value(s: string): int {
    if s == "" then 0 else 10 * Value(s[..|s| - 1]) + (s[|s| - 1] as int - '0' as int)
  }

  lemma DigitValue(d: nat)
    requires d < 10
    ensures Digit(d) as int - '0' as int == d
  {
  }

  lemma {:induction false} DigitsValue(n: nat)
    ensures Value(Digits(n)) == n
  {
    hide Digit;
    assert Digit(n % 10) as int - '0' as int == n % 10 by { DigitValue(n % 10); }
    if n >= 10 {
      DigitsValue(n / 10);
      assert Digits(n)[..|Digits(n)| - 1] == Digits(n / 10);
    } else {
      assert [Digit(n)][..0] == "" && Value("") == 0;
    }
  }

  /** Printed numbers are decimal, with a minus sign in front of negative ones. */
  lemma DecimalValue(n: int)
    ensures var s := Decimal(n); s != "" && n == if s[0] == '-' then -Value(s[1..]) else Value(s)
  {
    hide Digits, Value;
    var m: nat := if n < 0 then -n else n;
    DigitsValue(m);
    DigitsPlain(m);
    if n < 0 { assert ("-" + Digits(m))[1..] == Digits(m); }
  }

  /** An id falls apart at its colons into the contract, the time and the number, in this order. */
  lemma RenderSplits(id: Id)
    ensures M.Split(Render(id), ":") == [Decimal(id.conId), Decimal(id.ns), Decimal(id.count)]
  {
    hide Decimal, M.Split;
    DecimalPlain(id.conId);
    DecimalPlain(id.ns);
    DecimalPlain(id.count);
    var rest := Decimal(id.ns) + ":" + Decimal(id.count);
    M.SplitOnChar(Decimal(id.ns), Decimal(id.count), ':');
    var s := Decimal(id.conId) + ":" + rest;
    M.NoneBeforeChar(s, ':', |Decimal(id.conId)|);
    assert s[..|Decimal(id.conId)|] == Decimal(id.conId);
    M.SplitFirst(Decimal(id.conId), rest, ":");
    assert Render(id) == s;
  }

  // ---- the program's object -------------------------------------------------------------------

  /** The shared tick counter. */
  class TickCounter {
    var counts: Counter
    ghost var seen: seq<Tick>

    ghost predicate Valid()
      reads this
    {
      counts == After(seen)
    }

    constructor ()
      ensures Valid() && seen == []
    {
      counts, seen := map[], [];
    }

    method SyntheticTradeId(t: Tick) returns (id: string)
      requires Valid()
      modifies this
      ensures Valid() && seen == old(seen) + [t]
      ensures id == Render(IdOf(old(seen), t))
    {
      hide Render, Second, Without;
      var key := (t.conId, Second(t));
      var count := if key in counts then counts[key] else 0;
      counts := counts[key := count + 1];
      DropStale(Second(t));
      assert (seen + [t])[..|seen|] == seen;
      seen := seen + [t];
      id := Render(Id(t.conId, t.ns, count));
    }

    method DropStale(second: int)
      modifies this`counts
      ensures counts == Without(old(counts), second)
    {
      var stale := set k | k in counts && k.1 < second;
      while stale != {}
        invariant forall k :: k in stale ==> k in counts && k.1 < second
        invariant forall k :: k in counts ==> k in old(counts) && counts[k] == old(counts)[k]
        invariant forall k :: k in old(counts) && k.1 >= second ==> k in counts
        invariant forall k :: k in counts && k.1 < second ==> k in stale
        decreases |stale|
      {
        var k :| k in stale;
        counts := counts - {k};
        stale := stale - {k};
      }
    }
  }
}
