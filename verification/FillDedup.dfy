/**
  De-duplication of executions: what the bounded memory of IbGatewayTransport holds, and what it
  therefore publishes, for every sequence of live and reconciled fills.
*/
module FillDedup {
  import opened Prelude

  const MAX_TRACKED_EXECUTIONS: nat := 10_000

  // ---- recency ------------------------------------------------------------------------------

  /** The distinct elements of s in the order of their last occurrence. */
  function Recent<T(==)>(s: seq<T>): seq<T> {
    if s == [] then [] else Remove(Recent(s[..|s| - 1]), s[|s| - 1]) + [s[|s| - 1]]
  }

  function TakeLast<T>(s: seq<T>, n: nat): seq<T> {
    if |s| <= n then s else s[|s| - n..]
  }

  /** Where x occurs last in s. */
  function LastIndex<T(==)>(s: seq<T>, x: T): (k: nat)
    requires x in s
    ensures k < |s| && s[k] == x && x !in s[k + 1..]
  {
    if s[|s| - 1] == x then |s| - 1
    else
      assert s == s[..|s| - 1] + [s[|s| - 1]];
      var k := LastIndex(s[..|s| - 1], x);
      assert s[k + 1..] == s[..|s| - 1][k + 1..] + [s[|s| - 1]];
      k
  }

  lemma {:induction false} RecentElems<T>(s: seq<T>)
    ensures NoDup(Recent(s)) && forall x :: x in Recent(s) <==> x in s
  {
    if s != [] {
      var t, x := s[..|s| - 1], s[|s| - 1];
      RecentElems(t);
      RemoveOne(Recent(t), x);
      assert s == t + [x];
    }
  }

  /** What follows the first occurrence of x in r. */
  function After<T(==)>(r: seq<T>, x: T): seq<T>
    requires x in r
  {
    if r[0] == x then r[1..] else After(r[1..], x)
  }

  lemma {:induction false} AfterMoved<T>(r: seq<T>, x: T, y: T)
    requires NoDup(r) && x in r && x != y
    ensures x in Remove(r, y) + [y]
    ensures After(Remove(r, y) + [y], x) == Remove(After(r, x), y) + [y]
  {
    RemoveOne(r, y);
    if r[0] == y {
      assert Remove(r, y) == r[1..];
      assert y !in r[1..] by { forall k | 0 <= k < |r[1..]| ensures r[1..][k] != y { assert r[1..][k] == r[k + 1]; } }
      AfterAppend(r[1..], x, y);
      assert After(r, x) == After(r[1..], x);
      AfterIn(r[1..], x);
      RemoveNone(After(r[1..], x), y);
    } else if r[0] == x {
      assert Remove(r, y) + [y] == [x] + (Remove(r[1..], y) + [y]);
    } else {
      assert Remove(r, y) + [y] == [r[0]] + (Remove(r[1..], y) + [y]);
      AfterMoved(r[1..], x, y);
    }
  }

  lemma {:induction false} AfterAppend<T>(r: seq<T>, x: T, y: T)
    requires x in r
    ensures After(r + [y], x) == After(r, x) + [y]
  {
    if r[0] == x {
      assert (r + [y])[1..] == r[1..] + [y];
    } else {
      assert (r + [y])[1..] == r[1..] + [y];
      AfterAppend(r[1..], x, y);
    }
  }

  lemma {:induction false} AfterIn<T>(r: seq<T>, x: T)
    requires x in r
    ensures forall z :: z in After(r, x) ==> z in r
  {
    if r[0] != x { AfterIn(r[1..], x); }
  }

  lemma {:induction false} RemoveNone<T>(s: seq<T>, x: T)
    requires x !in s
    ensures Remove(s, x) == s
  {
    if s != [] { RemoveNone(s[1..], x); }
  }

  /** What follows x in the recency order is what was published since its last occurrence. */
  lemma {:induction false} AfterIsSince<T>(s: seq<T>, x: T)
    requires x in s
    ensures x in Recent(s) && Elems(After(Recent(s), x)) == Elems(s[LastIndex(s, x) + 1..])
  {
    RecentElems(s);
    var t, y := s[..|s| - 1], s[|s| - 1];
    RecentElems(t);
    RemoveOne(Recent(t), y);
    assert s == t + [y];
    if x == y {
      AfterLast(Remove(Recent(t), y), y);
      assert s[LastIndex(s, x) + 1..] == [];
    } else {
      AfterIsSince(t, x);
      AfterMoved(Recent(t), x, y);
      assert LastIndex(s, x) == LastIndex(t, x);
      assert s[LastIndex(s, x) + 1..] == t[LastIndex(t, x) + 1..] + [y];
      SameElemsMoved(After(Recent(t), x), t[LastIndex(t, x) + 1..], y);
    }
  }

  lemma SameElemsMoved<T>(a: seq<T>, b: seq<T>, y: T)
    requires Elems(a) == Elems(b)
    ensures Elems(Remove(a, y) + [y]) == Elems(b + [y])
  {
    hide Remove;
    RemoveElems(a, y);
    forall z ensures z in Remove(a, y) + [y] <==> z in b + [y] {
      assert z in Elems(a) <==> z in Elems(b);
    }
  }

  lemma {:induction false} RemoveElems<T>(s: seq<T>, x: T)
    ensures forall z :: z in s ==> z == x || z in Remove(s, x)
  {
    if s != [] { RemoveElems(s[1..], x); }
  }

  lemma {:induction false} AfterLast<T>(r: seq<T>, x: T)
    requires x !in r
    ensures After(r + [x], x) == []
  {
    if r != [] {
      assert (r + [x])[1..] == r[1..] + [x];
      AfterLast(r[1..], x);
    }
  }

  lemma {:induction false} TakeLastMember<T>(r: seq<T>, x: T, n: nat)
    requires NoDup(r)
    ensures x in TakeLast(r, n) <==> x in r && |After(r, x)| < n
  {
    if x in r {
      AfterShort(r, x);
      if |r| > n {
        if r[0] == x {
          assert x !in r[1..] by { forall k | 0 <= k < |r[1..]| ensures r[1..][k] != x { assert r[1..][k] == r[k + 1]; } }
          assert forall k :: 0 <= k < n ==> TakeLast(r, n)[k] == r[1..][|r| - n + k - 1];
        } else {
          TakeLastMember(r[1..], x, n);
          assert TakeLast(r, n) == TakeLast(r[1..], n);
        }
      }
    }
  }

  lemma {:induction false} AfterShort<T>(r: seq<T>, x: T)
    requires x in r
    ensures |After(r, x)| < |r|
  {
    if r[0] != x { AfterShort(r[1..], x); }
  }

  lemma {:induction false} AfterNoDup<T>(r: seq<T>, x: T)
    requires x in r && NoDup(r)
    ensures NoDup(After(r, x))
  {
    if r[0] != x { AfterNoDup(r[1..], x); }
  }

  /** Among the n most recent is exactly what has been followed by fewer than n other elements. */
  lemma RecentIsFewSince<T>(s: seq<T>, x: T, n: nat)
    ensures x in TakeLast(Recent(s), n) <==> x in s && |Elems(s[LastIndex(s, x) + 1..])| < n
  {
    RecentElems(s);
    TakeLastMember(Recent(s), x, n);
    if x in s {
      AfterIsSince(s, x);
      AfterNoDup(Recent(s), x);
      NoDupSize(After(Recent(s), x));
    }
  }

  /** Moving x to the end of a truncated recency list truncates moving it to the end of the whole. */
  lemma TakeLastMoved<T>(r: seq<T>, x: T, n: nat)
    requires NoDup(r) && n > 0
    ensures TakeLast(Remove(r, x) + [x], n) == TakeLast(Remove(TakeLast(r, n), x) + [x], n)
  {
    hide Remove, NoDup;
    if |r| > n {
      var a, b := r[..|r| - n], r[|r| - n..];
      assert r == a + b && |b| == n;
      MovedBehind(a, b, x);
      assert TakeLast(r, n) == b;
    }
  }

  lemma MovedBehind<T>(a: seq<T>, b: seq<T>, x: T)
    requires NoDup(a + b)
    ensures TakeLast(Remove(a + b, x) + [x], |b|) == TakeLast(Remove(b, x) + [x], |b|)
  {
    hide Remove, TakeLast;
    RemoveSplit(a, b, x);
    if x in a {
      forall j | 0 <= j < |b| ensures b[j] != x {
        var i :| 0 <= i < |a| && a[i] == x;
        assert (a + b)[i] == x && (a + b)[|a| + j] == b[j];
      }
      RemoveNone(b, x);
      assert Remove(a + b, x) + [x] == Remove(a, x) + (b + [x]);
      TakeLastOfSum(Remove(a, x), b + [x], |b|);
    } else {
      assert NoDup(b) by { assert (a + b)[|a|..] == b; }
      RemoveOne(b, x);
      assert Remove(a + b, x) + [x] == a + (Remove(b, x) + [x]);
      TakeLastOfSum(a, Remove(b, x) + [x], |b|);
    }
  }

  lemma TakeLastOfSum<T>(a: seq<T>, b: seq<T>, n: nat)
    requires |b| >= n
    ensures TakeLast(a + b, n) == TakeLast(b, n)
  {
  }

  lemma {:induction false} RemoveSplit<T>(a: seq<T>, b: seq<T>, x: T)
    ensures Remove(a + b, x) == if x in a then Remove(a, x) + b else a + Remove(b, x)
  {
    if a == [] {
      assert a + b == b;
    } else {
      var rest := a[1..];
      assert (a + b)[1..] == rest + b && a == [a[0]] + rest;
      if a[0] != x {
        RemoveSplit(rest, b, x);
        assert Remove(a, x) + b == [a[0]] + (Remove(rest, x) + b);
        assert a + Remove(b, x) == [a[0]] + (rest + Remove(b, x));
      }
    }
  }

  // ---- execution ids ------------------------------------------------------------------------

  /** Where the last dot is, or -1. */
  function LastDot(s: string): (k: int)
    ensures -1 <= k < |s| && (k >= 0 ==> s[k] == '.') && forall j :: k < j < |s| ==> s[j] != '.'
  {
    if s == "" then -1
    else if s[|s| - 1] == '.' then |s| - 1
    else
      LastDot(s[..|s| - 1])
  }

  /** `exec_id.rpartition(".")[0] or exec_id`. */
  function Base(execId: string): string {
    if LastDot(execId) <= 0 then execId else execId[..LastDot(execId)]
  }

  /** int(...) of the text behind the last dot, -1 when that is empty or no number. */
  function Suffix(parse: string -> Option<int>, execId: string): int {
    var text := execId[LastDot(execId) + 1..];
    if text == "" then -1
    else match parse(text) case Some(n) => n case None => -1
  }

  /** A dotless id is read as a whole, so its suffix is -1 only if it is empty, no number, or the number -1. */
  lemma DotlessSuffixExactly(parse: string -> Option<int>, execId: string)
    requires LastDot(execId) == -1
    ensures Suffix(parse, execId) == -1 <==> execId == "" || parse(execId) == None || parse(execId) == Some(-1)
  {
    assert execId[0..] == execId;
  }

  /** A dotless id that has a suffix. */
  lemma DotlessIdWithSuffix()
    ensures LastDot("7") == -1 && Suffix((text: string) => if text == "7" then Some(7) else None, "7") == 7
  {
    assert "7"[0..] == "7";
  }

  /** The last dot of p.q, when q has none. */
  lemma {:induction false} LastDotOfDotted(p: string, q: string)
    requires '.' !in q
    ensures LastDot(p + "." + q) == |p|
  {
    var s := p + "." + q;
    assert s[|p|] == '.';
    forall j | |p| < j < |s| ensures s[j] != '.' { assert s[j] == q[j - |p| - 1]; }
  }

  /** The base of p.q is p. */
  lemma BaseOfDotted(p: string, q: string)
    requires p != "" && '.' !in q
    ensures Base(p + "." + q) == p
  {
    LastDotOfDotted(p, q);
    assert (p + "." + q)[..|p|] == p;
  }

  /** An id without a dot, or with its only dot in front, is its own base. */
  lemma BaseOfPlain(q: string)
    requires '.' !in q
    ensures Base(q) == q && Base("." + q) == "." + q
  {
    LastDotOfDotted("", q);
    assert "" + "." + q == "." + q;
  }

  /** The suffix of p.q is the number q, or -1 when q is empty or no number. */
  lemma SuffixOfDotted(parse: string -> Option<int>, p: string, q: string)
    requires '.' !in q
    ensures Suffix(parse, p + "." + q) == if q == "" || parse(q).None? then -1 else parse(q).value
  {
    LastDotOfDotted(p, q);
    assert (p + "." + q)[|p| + 1..] == q;
  }

  // ---- what is published --------------------------------------------------------------------

  datatype FillEvent = FillEvent(execId: string, isCorrection: bool, reconciled: bool)

  function Bases(log: seq<FillEvent>): seq<string> {
    if log == [] then [] else Bases(log[..|log| - 1]) + [Base(log[|log| - 1].execId)]
  }

  lemma {:induction false} BasesAt(log: seq<FillEvent>)
    ensures |Bases(log)| == |log| && forall k :: 0 <= k < |log| ==> Bases(log)[k] == Base(log[k].execId)
  {
    hide Base, LastDot;
    if log != [] {
      var t, last := log[..|log| - 1], Base(log[|log| - 1].execId);
      BasesAt(t);
      assert Bases(log) == Bases(t) + [last];
      forall k | 0 <= k < |log| ensures Bases(log)[k] == Base(log[k].execId) {
        if k < |t| { assert log[k] == t[k]; }
      }
    }
  }

  /** The bases the memory holds after these publications. */
  function Remembered(log: seq<FillEvent>): seq<string> {
    TakeLast(Recent(Bases(log)), MAX_TRACKED_EXECUTIONS)
  }

  /** The last execution id published for a base. */
  function Latest(log: seq<FillEvent>, base: string): string
    requires base in Bases(log)
  {
    BasesAt(log);
    log[LastIndex(Bases(log), base)].execId
  }

  lemma RememberedWasPublished(log: seq<FillEvent>, base: string)
    requires base in Remembered(log)
    ensures base in Bases(log)
  {
    RecentElems(Bases(log));
  }

  /** Whether a fill is published, given all that was published before. */
  predicate Publishes(parse: string -> Option<int>, log: seq<FillEvent>, execId: string) {
    var base := Base(execId);
    if base in Remembered(log) then
      RememberedWasPublished(log, base);
      Suffix(parse, execId) > Suffix(parse, Latest(log, base))
    else true
  }

  function Publish(parse: string -> Option<int>, log: seq<FillEvent>, execId: string, reconciled: bool): seq<FillEvent> {
    if Publishes(parse, log, execId)
    then log + [FillEvent(execId, Base(execId) in Remembered(log), reconciled)]
    else log
  }

  /** Everything published for a sequence of (execId, reconciled) arrivals. */
  function Published(parse: string -> Option<int>, arrivals: seq<(string, bool)>): seq<FillEvent> {
    if arrivals == [] then []
    else
      var n := |arrivals| - 1;
      Publish(parse, Published(parse, arrivals[..n]), arrivals[n].0, arrivals[n].1)
  }

  lemma MovedToEnd<T>(s: seq<T>, x: T)
    requires NoDup(s)
    ensures NoDup(Remove(s, x) + [x]) && Elems(Remove(s, x) + [x]) == Elems(s) + {x}
  {
    RemoveOne(s, x);
  }

  lemma OldestOut<T>(s: seq<T>)
    requires NoDup(s) && s != []
    ensures NoDup(s[1..]) && Elems(s[1..]) == Elems(s) - {s[0]}
  {
    assert s == [s[0]] + s[1..];
    forall k | 0 <= k < |s[1..]| ensures s[1..][k] != s[0] { assert s[1..][k] == s[k + 1]; }
  }

  // ---- the program's table ------------------------------------------------------------------

  /** The fill table (an OrderedDict: `order` lists its keys, oldest first) and the fills it let through. */
  class FillTable {
    const parse: string -> Option<int>
    var seen: map<string, string>
    var order: seq<string>
    ghost var log: seq<FillEvent>

    ghost predicate Valid()
      reads this
    {
      && order == Remembered(log)
      && seen.Keys == Elems(order)
      && forall base :: base in seen ==> base in Bases(log) && seen[base] == Latest(log, base)
    }

    constructor (parse: string -> Option<int>)
      ensures Valid() && log == [] && this.parse == parse
    {
      this.parse := parse;
      seen, order, log := map[], [], [];
    }

    /** _remember: insert or move to the end, then evict the oldest beyond the cap. */
    method Remember(key: string, value: string)
      requires NoDup(order) && seen.Keys == Elems(order)
      modifies this`seen, this`order
      ensures order == TakeLast(Remove(old(order), key) + [key], MAX_TRACKED_EXECUTIONS)
      ensures NoDup(order) && seen.Keys == Elems(order)
      ensures forall k :: k in seen ==> seen[k] == if k == key then value else old(seen)[k]
      ensures forall k :: k in seen && k != key ==> k in old(seen)
    {
      hide Remove, NoDup, Elems;
      MovedToEnd(order, key);
      seen := seen[key := value];
      order := Remove(order, key) + [key];
      ghost var full := order;
      ghost var table := seen;
      ghost var dropped: nat := 0;
      while |order| > MAX_TRACKED_EXECUTIONS
        invariant dropped <= |full| && order == full[dropped..]
        invariant dropped == 0 || |order| >= MAX_TRACKED_EXECUTIONS
        invariant NoDup(order) && seen.Keys == Elems(order)
        invariant forall k :: k in seen ==> k in table && seen[k] == table[k]
      {
        OldestOut(order);
        seen := seen - {order[0]};
        order := order[1..];
        dropped := dropped + 1;
      }
    }

    /** _ingest_fill: true when the fill was published. */
    method IngestFill(execId: string, reconciled: bool) returns (published: bool)
      requires Valid()
      modifies this
      ensures Valid() && log == Publish(parse, old(log), execId, reconciled)
      ensures published <==> Publishes(parse, old(log), execId)
      ensures |seen| == |order| <= MAX_TRACKED_EXECUTIONS
    {
      hide Base, LastDot, Suffix, Recent, Bases, Remembered, TakeLast, Latest;
      var base := Base(execId);
      MemoryBounded(log);
      NoDupSize(order);
      if base in seen && Suffix(parse, execId) <= Suffix(parse, seen[base]) { return false; }
      ghost var event := FillEvent(execId, base in seen, reconciled);
      Remember(base, execId);
      log := log + [event];
      PublishedNext(old(log), event);
      MemoryBounded(log);
      NoDupSize(order);
      return true;
    }
  }

  lemma MemoryBounded(log: seq<FillEvent>)
    ensures NoDup(Remembered(log)) && |Remembered(log)| <= MAX_TRACKED_EXECUTIONS
  {
    RecentElems(Bases(log));
    NoDupTail(Recent(Bases(log)), MAX_TRACKED_EXECUTIONS);
  }

  lemma NoDupTail<T>(s: seq<T>, n: nat)
    requires NoDup(s)
    ensures NoDup(TakeLast(s, n)) && |TakeLast(s, n)| <= n
  {
  }

  /** What one more publication does to the memory. */
  lemma PublishedNext(log: seq<FillEvent>, event: FillEvent)
    ensures var base := Base(event.execId); var log' := log + [event];
      && Bases(log') == Bases(log) + [base]
      && Remembered(log') == TakeLast(Remove(Remembered(log), base) + [base], MAX_TRACKED_EXECUTIONS)
      && base in Bases(log') && Latest(log', base) == event.execId
      && forall b :: b in Bases(log) && b != base ==> b in Bases(log') && Latest(log', b) == Latest(log, b)
  {
    var log' := log + [event];
    var base := Base(event.execId);
    assert log'[..|log|] == log;
    RecentElems(Bases(log));
    TakeLastMoved(Recent(Bases(log)), base, MAX_TRACKED_EXECUTIONS);
    BasesAt(log);
    BasesAt(log');
    assert Bases(log')[..|log|] == Bases(log);
  }

  // ---- whole runs ---------------------------------------------------------------------------

  /** How many distinct bases were published from position i up to, not including, position j. */
  ghost function Spread(log: seq<FillEvent>, i: nat, j: nat): nat
    requires i <= j <= |log|
  {
    BasesAt(log);
    |Elems(Bases(log)[i..j])|
  }

  ghost predicate WellPublished(parse: string -> Option<int>, log: seq<FillEvent>) {
    forall j :: 0 <= j < |log| ==>
      && Publishes(parse, log[..j], log[j].execId)
      && log[j].isCorrection == (Base(log[j].execId) in Remembered(log[..j]))
  }

  lemma {:induction false} RunWellPublished(parse: string -> Option<int>, arrivals: seq<(string, bool)>)
    ensures WellPublished(parse, Published(parse, arrivals))
  {
    hide Publishes, Remembered, Base;
    if arrivals != [] {
      var n := |arrivals| - 1;
      RunWellPublished(parse, arrivals[..n]);
      var log, log' := Published(parse, arrivals[..n]), Published(parse, arrivals);
      forall j | 0 <= j < |log'|
        ensures Publishes(parse, log'[..j], log'[j].execId)
        ensures log'[j].isCorrection == (Base(log'[j].execId) in Remembered(log'[..j]))
      {
        if j < |log| { assert log'[..j] == log[..j]; } else { assert log'[..j] == log; }
      }
    }
  }

  lemma BasesPrefix(log: seq<FillEvent>, j: nat)
    requires j <= |log|
    ensures |Bases(log)| == |log| && Bases(log[..j]) == Bases(log)[..j]
  {
    hide Bases, Base;
    BasesAt(log);
    BasesAt(log[..j]);
  }

  lemma ElemsFewer(s: seq<string>, t: seq<string>, x: string)
    requires x in s && x !in t && forall y :: y in t ==> y in s
    ensures |Elems(t)| < |Elems(s)|
  {
    SubsetSize(Elems(t) + {x}, Elems(s));
  }

  lemma {:induction false} SubsetSize<T>(a: set<T>, b: set<T>)
    requires a <= b
    ensures |a| <= |b|
  {
    if a != {} {
      var x :| x in a;
      SubsetSize(a - {x}, b - {x});
    }
  }

  lemma LastFrom(s: seq<string>, i: nat, x: string) returns (k: nat)
    requires i < |s| && s[i] == x
    ensures x in s && k == LastIndex(s, x) && i <= k < |s| && s[k] == x
    ensures |Elems(s[k + 1..])| < |Elems(s[i..])|
  {
    hide LastIndex;
    k := LastIndex(s, x);
    var since, window := s[k + 1..], s[i..];
    forall m | k < m < |s| ensures s[m] != x { assert s[m] == since[m - k - 1]; }
    assert window[0] == x;
    forall y | y in since ensures y in window {
      var m :| 0 <= m < |since| && since[m] == y;
      assert window[k + 1 + m - i] == y;
    }
    ElemsFewer(window, since, x);
  }

  /** The last publication of a base before j, when the base was already published at i < j. */
  lemma LastBefore(log: seq<FillEvent>, i: nat, j: nat) returns (k: nat)
    requires i < j <= |log|
    ensures i <= k < j && Base(log[k].execId) == Base(log[i].execId)
    ensures var base := Base(log[i].execId); base in Bases(log[..j]) && Latest(log[..j], base) == log[k].execId
    ensures Spread(log, i, j) <= MAX_TRACKED_EXECUTIONS ==> Base(log[i].execId) in Remembered(log[..j])
  {
    hide Base, Bases, Recent, LastIndex;
    var base, t := Base(log[i].execId), log[..j];
    BasesPrefix(log, j);
    BasesAt(log);
    k := LastFrom(Bases(t), i, base);
    assert log[..j][k] == log[k];
    assert Bases(t)[i..] == Bases(log)[i..j];
    RecentIsFewSince(Bases(t), base, MAX_TRACKED_EXECUTIONS);
  }

  /**
    Two publications of one base: as long as no more than MAX_TRACKED_EXECUTIONS distinct bases
    were published from the first up to the second, the second is a correction and strictly newer;
    so its execution id differs.
  */
  lemma {:induction false} LaterIsNewerCorrection(parse: string -> Option<int>, log: seq<FillEvent>, i: nat, j: nat)
    requires WellPublished(parse, log)
    requires i < j < |log| && Base(log[i].execId) == Base(log[j].execId)
    requires Spread(log, i, j) <= 10_000
    ensures log[j].isCorrection && Suffix(parse, log[j].execId) > Suffix(parse, log[i].execId)
    ensures log[j].execId != log[i].execId
    decreases j
  {
    hide Base, Suffix, Bases, Remembered, Latest, Spread;
    var k := LastBefore(log, i, j);
    assert Suffix(parse, log[j].execId) > Suffix(parse, log[k].execId);
    if k > i {
      SpreadShrinks(log, i, k, j);
      LaterIsNewerCorrection(parse, log, i, k);
    }
  }

  lemma SpreadShrinks(log: seq<FillEvent>, i: nat, k: nat, j: nat)
    requires i <= k <= j <= |log|
    ensures Spread(log, i, k) <= Spread(log, i, j)
    ensures Spread(log, k, j) <= Spread(log, i, j)
  {
    hide Base, Bases;
    BasesAt(log);
    var a, b, c := Bases(log)[i..k], Bases(log)[k..j], Bases(log)[i..j];
    assert c == a + b;
    SubsetSize(Elems(a), Elems(c));
    SubsetSize(Elems(b), Elems(c));
  }

  /** A publication is marked a correction only if its base was published before. */
  lemma FirstIsNoCorrection(parse: string -> Option<int>, log: seq<FillEvent>, j: nat)
    requires WellPublished(parse, log) && j < |log| && log[j].isCorrection
    ensures exists i :: 0 <= i < j && Base(log[i].execId) == Base(log[j].execId)
  {
    hide Base, Bases, Remembered, Publishes;
    var base := Base(log[j].execId);
    RememberedWasPublished(log[..j], base);
    BasesAt(log[..j]);
    var i :| 0 <= i < |Bases(log[..j])| && Bases(log[..j])[i] == base;
    assert log[..j][i] == log[i];
  }

  lemma WholeSpread(log: seq<FillEvent>)
    ensures Spread(log, 0, |log|) == |Elems(Bases(log))|
  {
    hide Base, Bases;
    BasesAt(log);
    assert Bases(log)[0..|log|] == Bases(log);
  }

  /**
    Exactly when an arriving execution of a base published before is dropped: it is no newer than the
    base's last publication, and fewer than MAX_TRACKED_EXECUTIONS distinct bases were published since.
    Behind more than that a re-send is published again, and not even marked a correction.
  */
  lemma ResendDroppedExactly(parse: string -> Option<int>, log: seq<FillEvent>, execId: string)
    requires Base(execId) in Bases(log)
    ensures var base := Base(execId);
      && (!Publishes(parse, log, execId) <==>
            && Suffix(parse, execId) <= Suffix(parse, Latest(log, base))
            && |Elems(Bases(log)[LastIndex(Bases(log), base) + 1..])| < 10_000)
      && Base(Latest(log, base)) == base
  {
    hide Base, Bases, Suffix, Recent;
    BasesAt(log);
    RecentIsFewSince(Bases(log), Base(execId), MAX_TRACKED_EXECUTIONS);
  }

  /** While a base stays remembered, the suffix of its last publication never falls. */
  lemma {:induction false} LatestOnlyRises(parse: string -> Option<int>, log: seq<FillEvent>, n: nat, base: string)
    requires WellPublished(parse, log) && n <= |log|
    requires forall m :: n <= m <= |log| ==> base in Remembered(log[..m])
    ensures base in Bases(log[..n]) && base in Bases(log)
    ensures Suffix(parse, Latest(log[..n], base)) <= Suffix(parse, Latest(log, base))
    decreases |log|
  {
    hide Base, Bases, Suffix, Remembered, Latest;
    assert log[..|log|] == log;
    RememberedWasPublished(log, base);
    RememberedWasPublished(log[..n], base);
    if n < |log| {
      var t, event := log[..|log| - 1], log[|log| - 1];
      assert log == t + [event];
      forall m | n <= m <= |t| ensures t[..m] == log[..m] {}
      forall j | 0 <= j < |t| ensures t[..j] == log[..j] {}
      LatestOnlyRises(parse, t, n, base);
      assert t[..n] == log[..n];
      PublishedNext(t, event);
    }
  }

  /**
    Replay: an arrival that was ingested as number k publishes nothing when it comes again, provided
    its base was remembered ever since.
  */
  lemma ReplayPublishesNothing(parse: string -> Option<int>, arrivals: seq<(string, bool)>, k: nat)
    requires k < |arrivals|
    requires var log := Published(parse, arrivals);
      forall m :: |Published(parse, arrivals[..k + 1])| <= m <= |log| ==> Base(arrivals[k].0) in Remembered(log[..m])
    ensures !Publishes(parse, Published(parse, arrivals), arrivals[k].0)
  {
    hide Base, Bases, Suffix, Remembered, Latest, Published, WellPublished;
    var log, first := Published(parse, arrivals), Published(parse, arrivals[..k + 1]);
    var base := Base(arrivals[k].0);
    PublishedGrows(parse, arrivals, k + 1);
    RunWellPublished(parse, arrivals);
    LatestOnlyRises(parse, log, |first|, base);
    IngestedIsCovered(parse, arrivals[..k + 1]);
    assert arrivals[..k + 1][k] == arrivals[k];
    assert log[..|first|] == first && log[..|log|] == log;
  }

  /** The published events only ever grow at the end. */
  lemma {:induction false} PublishedGrows(parse: string -> Option<int>, arrivals: seq<(string, bool)>, k: nat)
    requires k <= |arrivals|
    ensures Published(parse, arrivals[..k]) <= Published(parse, arrivals)
    decreases |arrivals|
  {
    hide Publishes;
    if k == |arrivals| {
      assert arrivals[..k] == arrivals;
    } else {
      var t := arrivals[..|arrivals| - 1];
      assert t[..k] == arrivals[..k];
      PublishedGrows(parse, t, k);
    }
  }

  /** Right after an arrival, the last published suffix of its base is at least its own. */
  lemma IngestedIsCovered(parse: string -> Option<int>, arrivals: seq<(string, bool)>)
    requires arrivals != []
    ensures var log, id := Published(parse, arrivals), arrivals[|arrivals| - 1].0;
      Base(id) in Bases(log) && Suffix(parse, id) <= Suffix(parse, Latest(log, Base(id)))
  {
    hide Base, Bases, Suffix, Remembered, Latest;
    var n := |arrivals| - 1;
    var before, id := Published(parse, arrivals[..n]), arrivals[n].0;
    if Publishes(parse, before, id) {
      PublishedNext(before, FillEvent(id, Base(id) in Remembered(before), arrivals[n].1));
    } else {
      RememberedWasPublished(before, Base(id));
    }
  }

  /** Below the cap nothing is ever forgotten. */
  lemma NothingForgotten(log: seq<FillEvent>, m: nat, base: string)
    requires |Elems(Bases(log))| <= MAX_TRACKED_EXECUTIONS
    requires m <= |log| && base in Bases(log[..m])
    ensures base in Remembered(log[..m])
  {
    hide Base, Bases, Recent;
    BasesPrefix(log, m);
    SubsetSize(Elems(Bases(log[..m])), Elems(Bases(log)));
    RecentElems(Bases(log[..m]));
    NoDupSize(Recent(Bases(log[..m])));
    assert Elems(Recent(Bases(log[..m]))) == Elems(Bases(log[..m]));
  }

  lemma SeenIsDropped(parse: string -> Option<int>, arrivals: seq<(string, bool)>, k: nat)
    requires |Elems(Bases(Published(parse, arrivals)))| <= MAX_TRACKED_EXECUTIONS && k < |arrivals|
    ensures !Publishes(parse, Published(parse, arrivals), arrivals[k].0)
  {
    hide Base, Bases, Remembered, Publishes, Published;
    var log, first := Published(parse, arrivals), Published(parse, arrivals[..k + 1]);
    PublishedGrows(parse, arrivals, k + 1);
    IngestedIsCovered(parse, arrivals[..k + 1]);
    assert arrivals[..k + 1][k] == arrivals[k];
    forall m | |first| <= m <= |log| ensures Base(arrivals[k].0) in Remembered(log[..m]) {
      BasesPrefix(log[..m], |first|);
      assert log[..m][..|first|] == first;
      NothingForgotten(log, m, Base(arrivals[k].0));
    }
    ReplayPublishesNothing(parse, arrivals, k);
  }
  /** The bases that arrive. */
  function ArrivalBases(arrivals: seq<(string, bool)>): set<string> {
    set k | 0 <= k < |arrivals| :: Base(arrivals[k].0)
  }

  /** Each base that arrives is published at least once, and no other is. */
  lemma {:induction false} PublishedBases(parse: string -> Option<int>, arrivals: seq<(string, bool)>)
    ensures Elems(Bases(Published(parse, arrivals))) == ArrivalBases(arrivals)
  {
    hide Base, Publish, Bases, Suffix, Latest, ArrivalBases;
    if arrivals == [] {
      BasesAt([]);
      NoArrivals();
    } else {
      var n := |arrivals| - 1;
      var before, last := arrivals[..n], arrivals[n];
      PublishedBases(parse, before);
      IngestedIsCovered(parse, arrivals);
      PublishedMore(parse, arrivals);
      ArrivalsMore(before, last);
      assert arrivals == before + [last];
    }
  }

  lemma NoArrivals()
    ensures ArrivalBases([]) == {}
  {
  }

  lemma ArrivalsMore(before: seq<(string, bool)>, last: (string, bool))
    ensures ArrivalBases(before + [last]) == ArrivalBases(before) + {Base(last.0)}
  {
    hide Base;
    var all := before + [last];
    forall b ensures b in ArrivalBases(all) <==> b in ArrivalBases(before) || b == Base(last.0) {
      if b in ArrivalBases(before) {
        var k :| 0 <= k < |before| && Base(before[k].0) == b;
        assert all[k] == before[k];
      }
      if b == Base(last.0) { assert all[|before|] == last; }
      if b in ArrivalBases(all) {
        var k :| 0 <= k < |all| && Base(all[k].0) == b;
        if k < |before| { assert all[k] == before[k]; }
      }
    }
  }

  /** One more arrival publishes at most its own base. */
  lemma PublishedMore(parse: string -> Option<int>, arrivals: seq<(string, bool)>)
    requires arrivals != []
    ensures var n := |arrivals| - 1; var was := Elems(Bases(Published(parse, arrivals[..n])));
      was <= Elems(Bases(Published(parse, arrivals))) <= was + {Base(arrivals[n].0)}
  {
    hide Base, Bases, Suffix, Remembered, Latest, Publishes;
    var n := |arrivals| - 1;
    var before, id := Published(parse, arrivals[..n]), arrivals[n].0;
    if Publishes(parse, before, id) {
      PublishedNext(before, FillEvent(id, Base(id) in Remembered(before), arrivals[n].1));
    }
  }

  /**
    The law of the de-duplication over any interleaving of live and reconciled fills: with at most
    MAX_TRACKED_EXECUTIONS distinct bases, no execution id is published twice, the suffixes of each
    base strictly increase, and exactly the publications that are not a base's first are corrections.
  */
  lemma NothingPublishedTwice(parse: string -> Option<int>, arrivals: seq<(string, bool)>)
    requires |ArrivalBases(arrivals)| <= 10_000
    ensures var log := Published(parse, arrivals);
      && (forall i, j :: 0 <= i < j < |log| ==> log[i].execId != log[j].execId)
      && (forall i, j :: 0 <= i < j < |log| && Base(log[i].execId) == Base(log[j].execId) ==>
            Suffix(parse, log[i].execId) < Suffix(parse, log[j].execId))
      && (forall j :: 0 <= j < |log| ==>
            (log[j].isCorrection <==> exists i :: 0 <= i < j && Base(log[i].execId) == Base(log[j].execId)))
  {
    hide Base, Bases, Suffix, Published, WellPublished, Spread, ArrivalBases;
    var log := Published(parse, arrivals);
    RunWellPublished(parse, arrivals);
    PublishedBases(parse, arrivals);
    WholeSpread(log);
    forall i, j | 0 <= i < j < |log| && Base(log[i].execId) == Base(log[j].execId)
      ensures Suffix(parse, log[i].execId) < Suffix(parse, log[j].execId)
      ensures log[j].isCorrection && log[i].execId != log[j].execId
    {
      SpreadShrinks(log, 0, i, |log|);
      SpreadShrinks(log, i, j, |log|);
      LaterIsNewerCorrection(parse, log, i, j);
    }
    forall j | 0 <= j < |log| && log[j].isCorrection
      ensures exists i :: 0 <= i < j && Base(log[i].execId) == Base(log[j].execId)
    {
      FirstIsNoCorrection(parse, log, j);
    }
  }

  ghost predicate Arrived(arrivals: seq<(string, bool)>, execId: string) {
    exists k :: 0 <= k < |arrivals| && arrivals[k].0 == execId
  }

  /**
    A reconciliation that only brings executions already ingested, in any order and any number of
    times, publishes nothing, as long as at most MAX_TRACKED_EXECUTIONS bases were seen.
  */
  lemma {:induction false} ReconcileSeenPublishesNothing(
      parse: string -> Option<int>, arrivals: seq<(string, bool)>, replay: seq<(string, bool)>)
    requires |ArrivalBases(arrivals)| <= 10_000
    requires forall r :: 0 <= r < |replay| ==> Arrived(arrivals, replay[r].0)
    ensures Published(parse, arrivals + replay) == Published(parse, arrivals)
    decreases |replay|
  {
    hide Base, Bases, Remembered, Publishes, ArrivalBases;
    if replay == [] {
      assert arrivals + replay == arrivals;
    } else {
      var n := |replay| - 1;
      forall r | 0 <= r < n ensures Arrived(arrivals, replay[..n][r].0) { assert replay[..n][r] == replay[r]; }
      ReconcileSeenPublishesNothing(parse, arrivals, replay[..n]);
      var so := arrivals + replay[..n];
      assert arrivals + replay == so + [replay[n]];
      assert (arrivals + replay)[..|so|] == so;
      assert Arrived(arrivals, replay[n].0);
      var k :| 0 <= k < |arrivals| && arrivals[k].0 == replay[n].0;
      assert so[k] == arrivals[k];
      PublishedBases(parse, arrivals);
      SeenIsDropped(parse, so, k);
    }
  }


  // ---- on the ids themselves ------------------------------------------------------------------

  /** The ids of one trade: the text p before the last dot, and a number behind it. */
  predicate OfTrade(parse: string -> Option<int>, p: string, q: string, n: int) {
    p != "" && q != "" && '.' !in q && parse(q) == Some(n)
  }

  lemma TradeId(parse: string -> Option<int>, p: string, q: string, n: int)
    requires OfTrade(parse, p, q, n)
    ensures Base(p + "." + q) == p && Suffix(parse, p + "." + q) == n
  {
    BaseOfDotted(p, q);
    SuffixOfDotted(parse, p, q);
  }

  /** p.q is the last id of its trade published, and fewer than MAX_TRACKED_EXECUTIONS other trades have been since. */
  ghost predicate LastOfTrade(log: seq<FillEvent>, p: string, q: string, k: nat) {
    && k < |log| && log[k].execId == p + "." + q
    && (forall j :: k < j < |log| ==> Base(log[j].execId) != p)
    && Others(log, k) < MAX_TRACKED_EXECUTIONS
  }

  /** How many different trades were published behind position k. */
  ghost function Others(log: seq<FillEvent>, k: nat): nat
    requires k < |log|
  {
    BasesAt(log);
    |Elems(Bases(log)[k + 1..])|
  }

  lemma LastIsLatest(log: seq<FillEvent>, p: string, q: string, k: nat)
    requires p != "" && '.' !in q && LastOfTrade(log, p, q, k)
    ensures p in Remembered(log) && p in Bases(log) && Latest(log, p) == p + "." + q
  {
    hide Base, Bases, Recent, TakeLast, LastIndex;
    BaseOfDotted(p, q);
    BasesAt(log);
    var bases := Bases(log);
    assert bases[k] == p;
    var m := LastFrom(bases, k, p);
    assert bases[m] == p && m <= k;
    assert m == k;
    RecentIsFewSince(bases, p, MAX_TRACKED_EXECUTIONS);
  }

  /**
    Behind p.q, the next id of the same trade is published if and only if its number is greater, and then
    as a correction, with the mark of the stream it came from.
  */
  lemma NewerIdIsACorrectionExactly(parse: string -> Option<int>, log: seq<FillEvent>, k: nat,
                                    p: string, q: string, n: int, q': string, n': int, reconciled: bool)
    requires OfTrade(parse, p, q, n) && OfTrade(parse, p, q', n') && LastOfTrade(log, p, q, k)
    ensures Publish(parse, log, p + "." + q', reconciled) ==
      if n' > n then log + [FillEvent(p + "." + q', true, reconciled)] else log
  {
    hide Base, Bases, Suffix, Remembered, Latest, LastOfTrade;
    TradeId(parse, p, q, n);
    TradeId(parse, p, q', n');
    LastIsLatest(log, p, q, k);
  }

  /** No id of the trade p arrived. */
  ghost predicate NoneOfTrade(arrivals: seq<(string, bool)>, p: string) {
    forall k :: 0 <= k < |arrivals| ==> Base(arrivals[k].0) != p
  }

  /** A trade's first id is published as new, each later greater one as its correction, and a smaller or equal one not at all. */
  lemma TwoIdsOfATrade(parse: string -> Option<int>, arrivals: seq<(string, bool)>,
                       p: string, q: string, n: int, a: bool, q': string, n': int, b: bool)
    requires OfTrade(parse, p, q, n) && OfTrade(parse, p, q', n') && NoneOfTrade(arrivals, p)
    ensures var log := Published(parse, arrivals) + [FillEvent(p + "." + q, false, a)];
      Published(parse, arrivals + [(p + "." + q, a), (p + "." + q', b)]) ==
        if n' > n then log + [FillEvent(p + "." + q', true, b)] else log
  {
    hide Base, Bases, Suffix, Remembered, Latest, Publish, LastOfTrade;
    var log := Published(parse, arrivals);
    var one := arrivals + [(p + "." + q, a)];
    var two := arrivals + [(p + "." + q, a), (p + "." + q', b)];
    assert one[..|arrivals|] == arrivals && two[..|one|] == one;
    FirstOfTrade(parse, arrivals, p, q, n, a);
    assert Published(parse, one) == log + [FillEvent(p + "." + q, false, a)];
    JustPublished(log, p, q, FillEvent(p + "." + q, false, a));
    NewerIdIsACorrectionExactly(parse, Published(parse, one), |log|, p, q, n, q', n', b);
  }

  lemma JustPublished(log: seq<FillEvent>, p: string, q: string, e: FillEvent)
    requires e.execId == p + "." + q
    ensures LastOfTrade(log + [e], p, q, |log|)
  {
    hide Base, Bases;
    BasesAt(log + [e]);
  }

  lemma FirstOfTrade(parse: string -> Option<int>, arrivals: seq<(string, bool)>, p: string, q: string, n: int, a: bool)
    requires OfTrade(parse, p, q, n) && NoneOfTrade(arrivals, p)
    ensures var log := Published(parse, arrivals);
      Publish(parse, log, p + "." + q, a) == log + [FillEvent(p + "." + q, false, a)]
  {
    hide Base, Bases, Suffix, Latest, Remembered, Published;
    var log := Published(parse, arrivals);
    TradeId(parse, p, q, n);
    PublishedBases(parse, arrivals);
    assert p !in Bases(log) by { assert p !in ArrivalBases(arrivals) && (p in Bases(log) <==> p in Elems(Bases(log))); }
    NewBaseIsPublished(parse, log, p + "." + q);
  }

  /** Publications of other trades never change what becomes of an id, as long as none is forgotten. */
  lemma OtherTradesDoNotMatter(parse: string -> Option<int>, log: seq<FillEvent>, e: FillEvent, id: string, reconciled: bool)
    requires Base(e.execId) != Base(id) && |Elems(Bases(log + [e]))| <= MAX_TRACKED_EXECUTIONS
    ensures Publishes(parse, log + [e], id) <==> Publishes(parse, log, id)
    ensures Base(id) in Remembered(log + [e]) <==> Base(id) in Remembered(log)
  {
    hide Base, Bases, Suffix, Recent, Latest;
    PublishedNext(log, e);
    BasesPrefix(log + [e], |log|);
    assert (log + [e])[..|log|] == log;
    SubsetSize(Elems(Bases(log)), Elems(Bases(log + [e])));
    AllRemembered(log, Base(id));
    AllRemembered(log + [e], Base(id));
  }

  lemma AllRemembered(log: seq<FillEvent>, base: string)
    requires |Elems(Bases(log))| <= MAX_TRACKED_EXECUTIONS
    ensures base in Remembered(log) <==> base in Bases(log)
  {
    hide Bases, LastIndex, Recent, TakeLast;
    var bases := Bases(log);
    RecentIsFewSince(bases, base, MAX_TRACKED_EXECUTIONS);
    if base in bases {
      var k := LastIndex(bases, base);
      assert bases[k] == base && base !in bases[k + 1..];
      ElemsFewer(bases, bases[k + 1..], base);
    }
  }

  // ---- a fill published twice -----------------------------------------------------------------

  function Repeat(k: nat): (s: string)
    ensures |s| == k && forall i :: 0 <= i < k ==> s[i] == 'a'
  {
    seq(k, _ => 'a')
  }

  /** One fill with id "b", then n fills of n other bases. */
  function Flood(n: nat): seq<(string, bool)> {
    [("b", false)] + seq(n, k requires 0 <= k < n => (Repeat(k + 1), false))
  }

  /** The id of each of these publications. */
  function FloodId(k: nat): string { if k == 0 then "b" else Repeat(k) }

  lemma FloodIdsApart(j: nat, k: nat)
    ensures Base(FloodId(k)) == FloodId(k)
    ensures FloodId(j) == FloodId(k) <==> j == k
  {
    assert FloodId(j) == "b" ==> FloodId(j)[0] == 'b';
    assert forall i :: 0 <= i < |FloodId(k)| ==> FloodId(k)[i] != '.';
  }

  lemma {:induction false} FloodIsPublished(parse: string -> Option<int>, n: nat)
    ensures var log := Published(parse, Flood(n));
      |log| == n + 1 && forall k :: 0 <= k <= n ==> log[k].execId == FloodId(k)
  {
    hide Base, LastDot, Suffix, Repeat, FloodId, Publishes, Remembered;
    if n == 0 {
      assert Flood(0)[..0] == [] && Published(parse, []) == [];
      FloodHead();
      NewBaseIsPublished(parse, [], FloodId(0));
    } else {
      FloodIsPublished(parse, n - 1);
      FloodNext(n);
      var log := Published(parse, Flood(n - 1));
      BasesAt(log);
      FloodIdsApart(0, n);
      forall k | 0 <= k < n ensures Bases(log)[k] != FloodId(n) { FloodIdsApart(k, n); FloodIdsApart(n, k); }
      NewBaseIsPublished(parse, log, FloodId(n));
    }
  }

  lemma FloodHead()
    ensures Flood(0) == [(FloodId(0), false)]
  {
  }

  lemma FloodNext(n: nat)
    requires n > 0
    ensures |Flood(n)| == n + 1 && Flood(n)[..n] == Flood(n - 1) && Flood(n)[n] == (FloodId(n), false)
  {
  }

  lemma NewBaseIsPublished(parse: string -> Option<int>, log: seq<FillEvent>, execId: string)
    requires Base(execId) !in Bases(log)
    ensures Publishes(parse, log, execId) && Base(execId) !in Remembered(log)
  {
    hide Base, Bases, Suffix;
    if Base(execId) in Remembered(log) { RememberedWasPublished(log, Base(execId)); }
  }

  /** The re-send of a fill behind that many others is published again, and as a new fill. */
  lemma ForgottenFillIsPublishedAgain(parse: string -> Option<int>)
    ensures var log := Published(parse, Flood(10_000));
      && log[0].execId == "b"
      && Published(parse, Flood(10_000) + [("b", true)]) == log + [FillEvent("b", false, true)]
  {
    hide LastDot, Base, Suffix, Repeat, Flood, Recent, Bases, Latest, FloodId;
    var n := MAX_TRACKED_EXECUTIONS;
    var log := Published(parse, Flood(n));
    FloodIsPublished(parse, n);
    FloodBases(parse, n);
    RecentIsFewSince(Bases(log), FloodId(0), n);
    FloodIdsApart(0, 0);
    FirstFloodId();
    var all := Flood(n) + [("b", true)];
    assert all[..|all| - 1] == Flood(n);
  }

  lemma FirstFloodId()
    ensures FloodId(0) == "b"
  {
  }

  /** Behind the first publication there are n distinct other bases. */
  lemma FloodBases(parse: string -> Option<int>, n: nat)
    ensures var bases := Bases(Published(parse, Flood(n)));
      FloodId(0) in bases && LastIndex(bases, FloodId(0)) == 0 && |Elems(bases[1..])| == n
  {
    hide LastDot, Base, Suffix, Repeat, Flood, Bases, FloodId, Publishes, Published;
    var log := Published(parse, Flood(n));
    FloodIsPublished(parse, n);
    BasesAt(log);
    var bases := Bases(log);
    forall k | 0 <= k <= n ensures bases[k] == FloodId(k) { FloodIdsApart(k, k); }
    forall j, k | 0 <= j < k <= n ensures bases[j] != bases[k] { FloodIdsApart(j, k); }
    assert bases[0] in bases;
    NoDupSize(bases[1..]);
  }

  // ---- fees -----------------------------------------------------------------------------------

  /** A commission report: its execution id, and whether a fee event can be built from it. */
  datatype Report = Report(execId: string, hasFee: bool)

  /** _ingest_fee: the fees' memory is keyed by the whole id, and only what is published enters it. */
  predicate PublishesFee(log: seq<string>, r: Report) {
    r.execId != "" && r.execId !in TakeLast(Recent(log), MAX_TRACKED_EXECUTIONS) && r.hasFee
  }

  /** The ids of the fees published for a sequence of reports. */
  function Fees(reports: seq<Report>): seq<string> {
    if reports == [] then []
    else
      var log, last := Fees(reports[..|reports| - 1]), reports[|reports| - 1];
      if PublishesFee(log, last) then log + [last.execId] else log
  }

  /** A fee is published twice only with at least MAX_TRACKED_EXECUTIONS distinct others in between. */
  lemma {:induction false} FeeRepeatsOnlyWhenForgotten(reports: seq<Report>, i: nat, j: nat)
    requires i < j < |Fees(reports)| && Fees(reports)[i] == Fees(reports)[j]
    ensures |Elems(Fees(reports)[i..j])| > 10_000
    decreases |reports|
  {
    hide Recent, TakeLast;
    var before, last := reports[..|reports| - 1], reports[|reports| - 1];
    var log, all := Fees(before), Fees(reports);
    if j < |log| {
      FeeRepeatsOnlyWhenForgotten(before, i, j);
      assert all[i..j] == log[i..j];
    } else {
      var k := LastFrom(log, i, last.execId);
      RecentIsFewSince(log, last.execId, MAX_TRACKED_EXECUTIONS);
      assert all[i..j] == log[i..];
    }
  }

  /** A fee published before is published again exactly when at least MAX_TRACKED_EXECUTIONS others were since. */
  lemma FeeRepeatsExactly(reports: seq<Report>, id: string)
    requires id in Fees(reports)
    ensures var log := Fees(reports);
      Fees(reports + [Report(id, true)]) == log + [id] <==>
        |Elems(log[LastIndex(log, id) + 1..])| >= 10_000
  {
    hide Recent, TakeLast;
    EveryFeeIsPublished(reports, id);
    RecentIsFewSince(Fees(reports), id, MAX_TRACKED_EXECUTIONS);
    assert (reports + [Report(id, true)])[..|reports|] == reports;
  }

  /** A fee for the id "b", then n fees for n other ids. */
  function FeeFlood(n: nat): seq<Report> { seq(n + 1, k requires 0 <= k <= n => Report(FloodId(k), true)) }

  lemma {:induction false} FeeFloodIsPublished(n: nat)
    ensures |Fees(FeeFlood(n))| == n + 1 && forall k :: 0 <= k <= n ==> Fees(FeeFlood(n))[k] == FloodId(k)
  {
    hide Recent, TakeLast, FloodId, Repeat;
    FloodIdsApart(n, n);
    if n == 0 {
      assert FeeFlood(0)[..0] == [];
      FirstFloodId();
      FeeIsNew([], FloodId(0));
    } else {
      FeeFloodIsPublished(n - 1);
      var log := Fees(FeeFlood(n - 1));
      assert FeeFlood(n)[..n] == FeeFlood(n - 1);
      forall k | 0 <= k < n ensures log[k] != FloodId(n) { FloodIdsApart(k, n); }
      assert FloodId(n) != "" by { FloodIdIsNotEmpty(n); }
      FeeIsNew(log, FloodId(n));
    }
  }

  lemma FloodIdIsNotEmpty(k: nat)
    ensures FloodId(k) != ""
  {
  }

  lemma FeeIsNew(log: seq<string>, id: string)
    requires id !in log && id != ""
    ensures PublishesFee(log, Report(id, true))
  {
    hide Recent, TakeLast;
    RecentIsFewSince(log, id, MAX_TRACKED_EXECUTIONS);
  }

  /** It happens: a fee, that many other fees, and the first one again. */
  lemma ForgottenFeeIsPublishedAgain()
    ensures var n := 10_000; var log := Fees(FeeFlood(n));
      |log| == n + 1 && log[0] == "b" && Fees(FeeFlood(n) + [Report("b", true)]) == log + ["b"]
  {
    hide Recent, TakeLast, FloodId, Repeat, FeeFlood;
    var n := MAX_TRACKED_EXECUTIONS;
    var log := Fees(FeeFlood(n));
    FeeFloodIsPublished(n);
    FirstFloodId();
    forall j, k | 0 <= j < k <= n ensures log[j] != log[k] { FloodIdsApart(j, k); }
    NoDupSize(log[1..]);
    FeeRepeatsExactly(FeeFlood(n), "b");
  }

  /** So with at most that many distinct fees none is published twice. */
  lemma FeesPublishedOnce(reports: seq<Report>)
    requires |Elems(Fees(reports))| <= 10_000
    ensures NoDup(Fees(reports))
  {
    var all := Fees(reports);
    forall i, j | 0 <= i < j < |all| ensures all[i] != all[j] {
      SubsetSize(Elems(all[i..j]), Elems(all));
      if all[i] == all[j] { FeeRepeatsOnlyWhenForgotten(reports, i, j); }
    }
  }

  /** Every fee that arrives is published, and nothing else. */
  lemma {:induction false} EveryFeeIsPublished(reports: seq<Report>, id: string)
    ensures id in Fees(reports) <==> id != "" && Report(id, true) in reports
  {
    hide TakeLast, Recent;
    if reports != [] {
      var before, last := reports[..|reports| - 1], reports[|reports| - 1];
      assert reports == before + [last];
      EveryFeeIsPublished(before, id);
      EveryFeeIsPublished(before, last.execId);
      RecentIsFewSince(Fees(before), last.execId, MAX_TRACKED_EXECUTIONS);
    }
  }
}
