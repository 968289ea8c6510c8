/**
  The contract cache of IbContractResolver: a FIFO-bounded cache with a conId index beside it, and
  the double-checked locking of `resolve` as a state machine over concurrent tasks.
*/
module ContractResolver {
  import opened Prelude

  const MAX_CACHE: nat := 1024

  /** A reference as the cache sees it; `name` stands for every field but con_id. */
  datatype Ref = Ref(name: nat, conId: Option<int>)

  /** A cached contract; `serial` counts the successful fetches, so equal serials mean one object. */
  datatype Resolved = Resolved(ref: Ref, conId: int, serial: nat)

  /** `entries` is the OrderedDict, oldest first; `index` the conId index. */
  datatype Cache = Cache(entries: seq<Resolved>, index: map<int, Resolved>)

  const EMPTY := Cache([], map[])

  function Get(entries: seq<Resolved>, ref: Ref): (r: Option<Resolved>)
    ensures r.Some? ==> r.value in entries && r.value.ref == ref
    ensures r.None? <==> forall k :: 0 <= k < |entries| ==> entries[k].ref != ref
  {
    if entries == [] then None
    else if entries[0].ref == ref then Some(entries[0])
    else
      assert forall k :: 1 <= k < |entries| ==> entries[k] == entries[1..][k - 1];
      Get(entries[1..], ref)
  }

  /** OrderedDict.pop(ref). */
  function Without(entries: seq<Resolved>, ref: Ref): seq<Resolved> {
    if entries == [] then []
    else if entries[0].ref == ref then entries[1..]
    else [entries[0]] + Without(entries[1..], ref)
  }

  /** _lookup: by reference first, then by the reference's conId. */
  function Lookup(c: Cache, ref: Ref): Option<Resolved> {
    if Get(c.entries, ref).Some? then Get(c.entries, ref)
    else if ref.conId.Some? && ref.conId.value in c.index then Some(c.index[ref.conId.value])
    else None
  }

  predicate Shares(entries: seq<Resolved>, conId: int) {
    exists k :: 0 <= k < |entries| && entries[k].conId == conId
  }

  /** _drop_con_id. */
  function DropConId(c: Cache, e: Resolved): Cache {
    if Shares(c.entries, e.conId) then c else c.(index := c.index - {e.conId})
  }

  function MakeRoom(c: Cache): Cache {
    if |c.entries| >= MAX_CACHE then DropConId(c.(entries := c.entries[1..]), c.entries[0]) else c
  }

  /** What a successful fetch does to the cache. */
  function Insert(c: Cache, e: Resolved): Cache {
    var d := MakeRoom(c);
    Cache(d.entries + [e], d.index[e.conId := e])
  }

  /** invalidate(ref). */
  function Invalidate(c: Cache, ref: Ref): Cache {
    match Get(c.entries, ref)
    case None => c
    case Some(e) => Cache(Without(c.entries, ref), c.index - {e.conId})
  }

  // ---- the cache invariant ------------------------------------------------------------------

  /** The entries carry distinct references and stand in the order in which they were fetched. */
  ghost predicate InFetchOrder(entries: seq<Resolved>, n: nat) {
    && (forall j, k :: 0 <= j < k < |entries| ==> entries[j].ref != entries[k].ref)
    && (forall j, k :: 0 <= j < k < |entries| ==> entries[j].serial < entries[k].serial)
    && (forall k :: 0 <= k < |entries| ==> entries[k].serial < n)
  }

  /** e is the youngest cached entry with its conId. */
  ghost predicate Youngest(entries: seq<Resolved>, e: Resolved) {
    e in entries && forall k :: 0 <= k < |entries| && entries[k].conId == e.conId ==> entries[k].serial <= e.serial
  }

  ghost predicate IndexSound(c: Cache) {
    forall id :: id in c.index ==> c.index[id].conId == id && Youngest(c.entries, c.index[id])
  }

  ghost predicate CacheOk(c: Cache, n: nat) {
    |c.entries| <= MAX_CACHE && InFetchOrder(c.entries, n) && IndexSound(c)
  }

  /** Every cached contract can be found by its conId. */
  ghost predicate IndexComplete(c: Cache) {
    forall k :: 0 <= k < |c.entries| ==> c.entries[k].conId in c.index
  }

  /** Evicting the oldest entry never leaves its conId dangling, and never hides a younger sharer. */
  lemma MakeRoomKeeps(c: Cache, n: nat)
    requires CacheOk(c, n)
    ensures CacheOk(MakeRoom(c), n) && |MakeRoom(c).entries| < MAX_CACHE
    ensures IndexComplete(c) ==> IndexComplete(MakeRoom(c))
    ensures MakeRoom(c).entries == if |c.entries| >= MAX_CACHE then c.entries[1..] else c.entries
  {
    hide Youngest;
    if |c.entries| >= MAX_CACHE {
      forall id | id in MakeRoom(c).index ensures Youngest(c.entries[1..], c.index[id]) {
        StillYoungest(c.entries, c.index[id], n);
      }
    }
  }

  /** The youngest sharer survives the eviction of the oldest entry, unless it is that entry and shares nothing. */
  lemma StillYoungest(entries: seq<Resolved>, e: Resolved, n: nat)
    requires InFetchOrder(entries, n) && Youngest(entries, e) && entries != []
    requires Shares(entries[1..], e.conId) || e.conId != entries[0].conId
    ensures Youngest(entries[1..], e)
  {
    var rest := entries[1..];
    assert entries == [entries[0]] + rest;
    assert forall k :: 0 <= k < |rest| ==> rest[k] == entries[k + 1];
    if Shares(rest, e.conId) {
      var k :| 0 <= k < |rest| && rest[k].conId == e.conId;
      assert entries[k + 1].serial <= e.serial;
    }
  }

  lemma AppendKeepsOrder(entries: seq<Resolved>, e: Resolved, n: nat)
    requires InFetchOrder(entries, n) && Get(entries, e.ref).None? && e.serial == n
    ensures InFetchOrder(entries + [e], n + 1)
  {
    hide Get;
  }

  lemma AppendKeepsYoungest(entries: seq<Resolved>, e: Resolved, y: Resolved)
    requires Youngest(entries, y) && y.conId != e.conId
    ensures Youngest(entries + [e], y)
  {
    assert forall k :: 0 <= k < |entries| ==> (entries + [e])[k] == entries[k];
  }

  lemma LastIsYoungest(entries: seq<Resolved>, n: nat)
    requires InFetchOrder(entries, n) && entries != []
    ensures Youngest(entries, entries[|entries| - 1])
  {
  }

  lemma InsertKeeps(c: Cache, e: Resolved, n: nat)
    requires CacheOk(c, n) && Get(c.entries, e.ref).None? && e.serial == n
    ensures CacheOk(Insert(c, e), n + 1)
    ensures Get(Insert(c, e).entries, e.ref) == Some(e)
    ensures IndexComplete(c) ==> IndexComplete(Insert(c, e))
  {
    hide MakeRoom, Get, InFetchOrder, Youngest;
    MakeRoomKeeps(c, n);
    var d := MakeRoom(c);
    assert forall k :: 0 <= k < |d.entries| ==> d.entries[k] in c.entries;
    AppendKeepsOrder(d.entries, e, n);
    GetAppended(d.entries, e);
    LastIsYoungest(d.entries + [e], n + 1);
    forall id | id in d.index && id != e.conId ensures Youngest(d.entries + [e], d.index[id]) {
      AppendKeepsYoungest(d.entries, e, d.index[id]);
    }
  }

  lemma {:induction false} GetAppended(entries: seq<Resolved>, e: Resolved)
    requires Get(entries, e.ref).None?
    ensures Get(entries + [e], e.ref) == Some(e)
  {
    if entries != [] {
      assert (entries + [e])[1..] == entries[1..] + [e];
      GetAppended(entries[1..], e);
    }
  }

  lemma {:induction false} WithoutAt(entries: seq<Resolved>, ref: Ref) returns (k: nat)
    requires Get(entries, ref).Some?
    ensures k < |entries| && entries[k] == Get(entries, ref).value && entries[k].ref == ref
    ensures Without(entries, ref) == entries[..k] + entries[k + 1..]
  {
    if entries[0].ref == ref {
      k := 0;
    } else {
      k := WithoutAt(entries[1..], ref);
      k := k + 1;
    }
  }

  lemma WithoutIs(entries: seq<Resolved>, ref: Ref, n: nat)
    requires InFetchOrder(entries, n) && Get(entries, ref).Some?
    ensures InFetchOrder(Without(entries, ref), n) && |Without(entries, ref)| < |entries|
    ensures forall e :: e in Without(entries, ref) <==> e in entries && e.ref != ref
  {
    hide Without, Get;
    var k := WithoutAt(entries, ref);
    var a, b := entries[..k], entries[k + 1..];
    assert entries == a + [entries[k]] + b;
  }

  lemma InvalidateKeeps(c: Cache, ref: Ref, n: nat)
    requires CacheOk(c, n)
    ensures CacheOk(Invalidate(c, ref), n)
    ensures Get(Invalidate(c, ref).entries, ref).None?
    ensures forall e :: e in Invalidate(c, ref).entries <==> e in c.entries && e.ref != ref
  {
    hide Without, Get;
    var c' := Invalidate(c, ref);
    if Get(c.entries, ref).Some? {
      WithoutIs(c.entries, ref, n);
      var e := Get(c.entries, ref).value;
      forall id | id in c'.index ensures c'.index[id].conId == id && Youngest(c'.entries, c'.index[id]) {
        var y := c.index[id];
        UniqueRef(c.entries, n, y, e);
        forall k | 0 <= k < |c'.entries| && c'.entries[k].conId == id ensures c'.entries[k].serial <= y.serial {
          assert c'.entries[k] in c.entries;
        }
      }
    }
  }

  lemma UniqueRef(entries: seq<Resolved>, n: nat, a: Resolved, b: Resolved)
    requires InFetchOrder(entries, n) && a in entries && b in entries
    ensures a.ref == b.ref ==> a == b
  {
  }

  // ---- what invalidate(ref) does to lookups ---------------------------------------------------

  /**
    invalidate(ref) pops the conId even when another cached entry carries it. So it keeps every
    cached contract findable by conId exactly when no other entry shares the removed one's conId.
  */
  lemma InvalidateCompleteExactly(c: Cache, ref: Ref, n: nat)
    requires CacheOk(c, n) && IndexComplete(c)
    ensures IndexComplete(Invalidate(c, ref)) <==>
      (Get(c.entries, ref).None? || !Shares(Without(c.entries, ref), Get(c.entries, ref).value.conId))
  {
    hide Without, Get;
    if Get(c.entries, ref).Some? {
      WithoutIs(c.entries, ref, n);
      var e, rest := Get(c.entries, ref).value, Without(c.entries, ref);
      assert forall k :: 0 <= k < |rest| ==> rest[k] in c.entries;
      if Shares(rest, e.conId) {
        var k :| 0 <= k < |rest| && rest[k].conId == e.conId;
        assert Invalidate(c, ref).entries[k].conId !in Invalidate(c, ref).index;
      }
    }
  }

  /** Two references of one contract: invalidating one makes the other unreachable by conId. */
  lemma SharedIdIsForgotten()
    ensures var a, b := Resolved(Ref(0, None), 7, 0), Resolved(Ref(1, None), 7, 1);
      var c := Invalidate(Insert(Insert(EMPTY, a), b), a.ref);
      b in c.entries && Lookup(c, Ref(2, Some(7))).None?
  {
    var a, b := Resolved(Ref(0, None), 7, 0), Resolved(Ref(1, None), 7, 1);
    assert Insert(EMPTY, a).entries == [a];
    assert Insert(Insert(EMPTY, a), b).entries == [a, b];
    assert Get([a, b], a.ref) == Some(a);
    assert Invalidate(Insert(Insert(EMPTY, a), b), a.ref).entries == [b];
    assert Get([b], Ref(2, Some(7))).None?;
  }

  /**
    Nothing in the cache serves ref once it is invalidated: ref has no conId, or its conId is not
    indexed, or the removed entry carries it.
  */
  predicate Forgets(c: Cache, ref: Ref) {
    || ref.conId.None? || ref.conId.value !in c.index
    || (Get(c.entries, ref).Some? && Get(c.entries, ref).value.conId == ref.conId.value)
  }

  /**
    After invalidate(ref) the cache misses ref, unless ref carries a conId that the index still
    serves from another entry: a reference that was itself served by the index is not touched at all.
  */
  lemma InvalidateForgetsExactly(c: Cache, ref: Ref, n: nat)
    requires CacheOk(c, n)
    ensures Lookup(Invalidate(c, ref), ref).None? <==> Forgets(c, ref)
  {
    hide Without, Get;
    InvalidateKeeps(c, ref, n);
  }

  /** A reference that the index serves from another entry stays served, whatever is invalidated under its name. */
  lemma IndexServedIsKept()
    ensures var a, ref := Resolved(Ref(0, None), 7, 0), Ref(1, Some(7));
      var c := Insert(EMPTY, a);
      CacheOk(c, 1) && Lookup(c, ref) == Some(a) && Lookup(Invalidate(c, ref), ref) == Some(a)
  {
    var a, ref := Resolved(Ref(0, None), 7, 0), Ref(1, Some(7));
    EmptyOk(0);
    InsertKeeps(EMPTY, a, 0);
    assert Insert(EMPTY, a).entries == [a];
    assert Get([a], ref).None?;
  }

  // ---- concurrent resolves --------------------------------------------------------------------

  /** Where a task stands in `resolve`: before the lock, at IB with the lock held, or finished. */
  datatype Phase = Waiting(ref: Ref) | Fetching(ref: Ref) | Got(ref: Ref, entry: Resolved) | Raised(ref: Ref)

  /** What reqContractDetails brings: an exception or cancellation, or a list of matches. */
  datatype Answer = Failed | Matches(conIds: seq<int>)

  datatype Event =
    | Call(task: nat, ref: Ref)
    | Acquire(task: nat)
    | Abandon(task: nat)
    | Reply(task: nat, answer: Answer)
    | Drop(ref: Ref)
    | DropAll

  /** `fetches` lists the requests sent to IB, `failures` those that cached nothing, `found` the rest. */
  datatype State = State(
    cache: Cache,
    holder: Option<nat>,
    tasks: map<nat, Phase>,
    fetches: seq<Ref>,
    failures: seq<Ref>,
    found: seq<Resolved>)

  const START := State(EMPTY, None, map[], [], [], [])

  predicate Enabled(s: State, e: Event) {
    match e
    case Call(t, _) => t !in s.tasks
    case Acquire(t) => t in s.tasks && s.tasks[t].Waiting? && s.holder.None?
    case Abandon(t) => t in s.tasks && s.tasks[t].Waiting?
    case Reply(t, _) => t in s.tasks && s.tasks[t].Fetching?
    case Drop(_) => true
    case DropAll => true
  }

  /** The stretch of `resolve` behind `async with self._lock`, up to the request. */
  function Acquired(s: State, t: nat, ref: Ref): State {
    match Lookup(s.cache, ref)
    case Some(e) => s.(tasks := s.tasks[t := Got(ref, e)])
    case None => s.(holder := Some(t), tasks := s.tasks[t := Fetching(ref)], fetches := s.fetches + [ref])
  }

  /** The stretch behind the request; only a single match is cached. */
  function Replied(s: State, t: nat, ref: Ref, answer: Answer): State {
    if answer.Matches? && |answer.conIds| == 1 then
      var e := Resolved(ref, answer.conIds[0], |s.found|);
      s.(cache := Insert(s.cache, e), holder := None, tasks := s.tasks[t := Got(ref, e)], found := s.found + [e])
    else
      s.(holder := None, tasks := s.tasks[t := Raised(ref)], failures := s.failures + [ref])
  }

  function Step(s: State, e: Event): State
    requires Enabled(s, e)
  {
    match e
    case Call(t, ref) =>
      s.(tasks := s.tasks[t := if Lookup(s.cache, ref).Some? then Got(ref, Lookup(s.cache, ref).value) else Waiting(ref)])
    case Acquire(t) => Acquired(s, t, s.tasks[t].ref)
    case Abandon(t) => s.(tasks := s.tasks[t := Raised(s.tasks[t].ref)])
    case Reply(t, answer) => Replied(s, t, s.tasks[t].ref, answer)
    case Drop(ref) => s.(cache := Invalidate(s.cache, ref))
    case DropAll => s.(cache := EMPTY)
  }

  ghost predicate IsRun(states: seq<State>, events: seq<Event>) {
    && |states| == |events| + 1
    && states[0] == START
    && forall i :: 0 <= i < |events| ==> Enabled(states[i], events[i]) && states[i + 1] == Step(states[i], events[i])
  }

  /** The lock: the one task that is fetching holds it, and its reference is not cached. */
  ghost predicate LockOk(s: State) {
    && (forall t :: t in s.tasks && s.tasks[t].Fetching? ==> s.holder == Some(t))
    && (s.holder.Some? ==>
          && s.holder.value in s.tasks && s.tasks[s.holder.value].Fetching?
          && Get(s.cache.entries, s.tasks[s.holder.value].ref).None?)
  }

  ghost predicate Inv(s: State) {
    CacheOk(s.cache, |s.found|) && LockOk(s)
  }

  lemma ReplyKeeps(s: State, t: nat, answer: Answer)
    requires Inv(s) && t in s.tasks && s.tasks[t].Fetching?
    ensures Inv(Replied(s, t, s.tasks[t].ref, answer))
    ensures IndexComplete(s.cache) ==> IndexComplete(Replied(s, t, s.tasks[t].ref, answer).cache)
  {
    hide CacheOk, Insert, Get, IndexComplete;
    if answer.Matches? && |answer.conIds| == 1 {
      InsertKeeps(s.cache, Resolved(s.tasks[t].ref, answer.conIds[0], |s.found|), |s.found|);
    }
  }

  lemma StepKeeps(s: State, e: Event)
    requires Inv(s) && Enabled(s, e)
    ensures Inv(Step(s, e))
    ensures !e.Drop? && IndexComplete(s.cache) ==> IndexComplete(Step(s, e).cache)
  {
    hide Insert, Get, Invalidate, InFetchOrder, IndexSound;
    match e
    case Reply(t, answer) => ReplyKeeps(s, t, answer);
    case Drop(ref) =>
      InvalidateKeeps(s.cache, ref, |s.found|);
      if s.holder.Some? { StillMissing(s.cache, s.tasks[s.holder.value].ref, ref, |s.found|); }
    case DropAll => EmptyOk(|s.found|);
      if s.holder.Some? { EmptyMisses(s.tasks[s.holder.value].ref); }
    case _ =>
  }

  lemma EmptyOk(n: nat)
    ensures CacheOk(EMPTY, n) && IndexComplete(EMPTY)
  {
  }

  lemma EmptyMisses(ref: Ref)
    ensures Get(EMPTY.entries, ref).None?
  {
  }

  lemma StillMissing(c: Cache, ref: Ref, dropped: Ref, n: nat)
    requires CacheOk(c, n) && Get(c.entries, ref).None?
    ensures Get(Invalidate(c, dropped).entries, ref).None?
  {
    hide Invalidate;
    InvalidateKeeps(c, dropped, n);
    var entries := Invalidate(c, dropped).entries;
    forall k | 0 <= k < |entries| ensures entries[k].ref != ref { assert entries[k] in c.entries; }
  }

  /**
    Every run: at most 1024 entries; every index entry is the most recently fetched cached entry
    with its conId; at most one request is at IB; and without a single invalidate(ref), every
    cached contract is found by its conId.
  */
  lemma {:induction false} EveryRunKeepsCache(states: seq<State>, events: seq<Event>, i: nat)
    requires IsRun(states, events) && i < |states|
    ensures Inv(states[i]) && |states[i].cache.entries| <= 1024
    ensures (forall j :: 0 <= j < |events| ==> !events[j].Drop?) ==> IndexComplete(states[i].cache)
  {
    hide Inv, Step, Enabled, IndexComplete;
    if i == 0 {
      StartOk();
    } else {
      EveryRunKeepsCache(states, events, i - 1);
      StepKeeps(states[i - 1], events[i - 1]);
    }
    assert |states[i].cache.entries| <= 1024 by { InvBounded(states[i]); }
  }

  lemma InvBounded(s: State)
    requires Inv(s)
    ensures |s.cache.entries| <= 1024
  {
  }

  lemma StartOk()
    ensures Inv(START) && IndexComplete(START.cache) && Tidy(START) && Shared(START) && Counted(START) && Spaced(START.found)
  {
  }

  // ---- runs without invalidation --------------------------------------------------------------

  function Newest(s: seq<Resolved>): seq<Resolved> {
    if |s| <= MAX_CACHE then s else s[|s| - MAX_CACHE..]
  }

  /** Without invalidation the cache is exactly the last 1024 successful fetches, in order. */
  ghost predicate Tidy(s: State) { s.cache.entries == Newest(s.found) }

  /** Every cached contract was fetched; every finished resolve got one fetched for its reference or conId. */
  ghost predicate Shared(s: State) {
    && (forall k :: 0 <= k < |s.cache.entries| ==> s.cache.entries[k] in s.found)
    && (forall t :: t in s.tasks && s.tasks[t].Got? ==>
          && s.tasks[t].entry in s.found
          && (s.tasks[t].entry.ref == s.tasks[t].ref || s.tasks[t].ref.conId == Some(s.tasks[t].entry.conId)))
  }

  function Refs(found: seq<Resolved>): (r: seq<Ref>)
    ensures |r| == |found|
  {
    seq(|found|, k requires 0 <= k < |found| => found[k].ref)
  }

  ghost function InFlight(s: State): multiset<Ref> {
    if s.holder.Some? && s.holder.value in s.tasks then multiset{s.tasks[s.holder.value].ref} else multiset{}
  }

  /** Requests sent are requests answered, plus the one in flight. */
  ghost predicate Counted(s: State) {
    multiset(s.fetches) == multiset(s.failures) + multiset(Refs(s.found)) + InFlight(s)
  }

  lemma TidyKept(s: State, e: Event)
    requires Tidy(s) && Enabled(s, e) && !e.Drop? && !e.DropAll?
    ensures Tidy(Step(s, e))
  {
    hide Get;
  }

  /** Serials number the fetches, and fetches of one reference lie more than a whole cache apart. */
  ghost predicate Spaced(found: seq<Resolved>) {
    && (forall k :: 0 <= k < |found| ==> found[k].serial == k)
    && (forall j, k :: 0 <= j < k < |found| && found[j].ref == found[k].ref ==> k - j > MAX_CACHE)
  }

  /** A reference that misses the full cache was fetched, if at all, before the last 1024 fetches. */
  lemma MissIsFarBack(s: State, ref: Ref, j: nat)
    requires Tidy(s) && Get(s.cache.entries, ref).None? && j < |s.found| && s.found[j].ref == ref
    ensures |s.found| - j > MAX_CACHE
  {
    hide Get;
    var start := if |s.found| <= MAX_CACHE then 0 else |s.found| - MAX_CACHE;
    forall m | start <= m < |s.found| ensures s.found[m].ref != ref { assert s.found[m] == s.cache.entries[m - start]; }
  }

  lemma SpacedKept(s: State, e: Event)
    requires Inv(s) && Tidy(s) && Spaced(s.found) && Enabled(s, e)
    ensures Spaced(Step(s, e).found)
  {
    hide CacheOk, Tidy, Insert, Invalidate, Lookup, Get;
    if e.Reply? {
      var ref := s.tasks[e.task].ref;
      forall j: nat | j < |s.found| && s.found[j].ref == ref ensures |s.found| - j > MAX_CACHE { MissIsFarBack(s, ref, j); }
    }
  }

  lemma LookupFound(s: State, ref: Ref)
    requires Inv(s) && Shared(s) && Lookup(s.cache, ref).Some?
    ensures var e := Lookup(s.cache, ref).value;
      e in s.found && (e.ref == ref || ref.conId == Some(e.conId))
  {
    hide InFetchOrder, LockOk, Get;
    var e := Lookup(s.cache, ref).value;
    if Get(s.cache.entries, ref).None? {
      var id := ref.conId.value;
      assert e == s.cache.index[id] && e.conId == id && Youngest(s.cache.entries, e);
    }
    assert e in s.cache.entries;
  }

  lemma SharedKept(s: State, e: Event)
    requires Inv(s) && Shared(s) && Enabled(s, e)
    ensures Shared(Step(s, e))
  {
    hide Inv, Lookup, Get, Invalidate, Insert;
    match e
    case Call(_, ref) => if Lookup(s.cache, ref).Some? { LookupFound(s, ref); }
    case Acquire(t) => if Lookup(s.cache, s.tasks[t].ref).Some? { LookupFound(s, s.tasks[t].ref); }
    case Reply(t, answer) =>
      if answer.Matches? && |answer.conIds| == 1 {
        var e' := Resolved(s.tasks[t].ref, answer.conIds[0], |s.found|);
        InsertedFrom(s.cache, e');
        var s' := Step(s, e);
        assert s'.found == s.found + [e'];
        forall k | 0 <= k < |s'.cache.entries| ensures s'.cache.entries[k] in s'.found {
          assert s'.cache.entries[k] == e' || s'.cache.entries[k] in s.cache.entries;
        }
      }
    case Drop(ref) =>
      InvInvalidates(s, ref);
      forall k | 0 <= k < |Step(s, e).cache.entries| ensures Step(s, e).cache.entries[k] in s.found {
        assert Step(s, e).cache.entries[k] in s.cache.entries;
      }
    case _ =>
  }

  lemma InvInvalidates(s: State, ref: Ref)
    requires Inv(s)
    ensures forall e :: e in Invalidate(s.cache, ref).entries ==> e in s.cache.entries
  {
    hide CacheOk, Invalidate, Get;
    InvalidateKeeps(s.cache, ref, |s.found|);
  }

  lemma InsertedFrom(c: Cache, e: Resolved)
    ensures forall x :: x in Insert(c, e).entries ==> x == e || x in c.entries
  {
  }

  lemma CountedKept(s: State, e: Event)
    requires Inv(s) && Counted(s) && Enabled(s, e)
    ensures Counted(Step(s, e))
  {
    hide CacheOk, Lookup, Get, Invalidate, Insert, Refs, Acquired, Replied;
    match e
    case Acquire(t) => AcquiredCounted(s, t);
    case Reply(t, answer) => RepliedCounted(s, t, answer);
    case _ =>
  }

  lemma AcquiredCounted(s: State, t: nat)
    requires Counted(s) && Enabled(s, Acquire(t))
    ensures Counted(Acquired(s, t, s.tasks[t].ref))
  {
    hide Lookup, Refs;
  }

  lemma RepliedCounted(s: State, t: nat, answer: Answer)
    requires Inv(s) && Counted(s) && t in s.tasks && s.tasks[t].Fetching?
    ensures Counted(Replied(s, t, s.tasks[t].ref, answer))
  {
    hide CacheOk, Get, Insert, Refs;
    if answer.Matches? && |answer.conIds| == 1 {
      RefsAppended(s.found, Resolved(s.tasks[t].ref, answer.conIds[0], |s.found|));
    }
  }

  lemma RefsAppended(found: seq<Resolved>, e: Resolved)
    ensures Refs(found + [e]) == Refs(found) + [e.ref]
  {
  }

  lemma {:induction false} EveryRunShares(states: seq<State>, events: seq<Event>, i: nat)
    requires IsRun(states, events) && i < |states|
    ensures Inv(states[i]) && Shared(states[i]) && Counted(states[i])
    ensures (forall j :: 0 <= j < |events| ==> !events[j].Drop? && !events[j].DropAll?) ==>
      Tidy(states[i]) && Spaced(states[i].found)
  {
    hide Inv, Step, Enabled, Shared, Counted, Tidy, Spaced;
    if i == 0 {
      StartOk();
    } else {
      EveryRunShares(states, events, i - 1);
      StepKeeps(states[i - 1], events[i - 1]);
      SharedKept(states[i - 1], events[i - 1]);
      CountedKept(states[i - 1], events[i - 1]);
      if forall j :: 0 <= j < |events| ==> !events[j].Drop? && !events[j].DropAll? {
        TidyKept(states[i - 1], events[i - 1]);
        SpacedKept(states[i - 1], events[i - 1]);
      }
    }
  }

  /** How often a reference can have been fetched among n fetches, when its fetches lie that far apart. */
  function Windows(n: nat): nat { (n + MAX_CACHE) / (MAX_CACHE + 1) }

  lemma {:induction false} FetchedOncePerWindow(found: seq<Resolved>, ref: Ref)
    requires Spaced(found)
    ensures multiset(Refs(found))[ref] <= Windows(|found|)
    decreases |found|
  {
    hide Refs, Windows;
    if found != [] {
      var n := |found| - 1;
      var rest, last := found[..n], found[n];
      assert found == rest + [last];
      RefsAppended(rest, last);
      var far := if last.ref != ref then n else if n < MAX_CACHE then 0 else n - MAX_CACHE;
      NoneLater(rest, far, ref);
      assert rest[..far] == found[..far];
      FetchedOncePerWindow(found[..far], ref);
      WindowsNext(n, far);
    } else {
      NotAmong(found, ref);
    }
  }

  lemma NoneLater(found: seq<Resolved>, far: nat, ref: Ref)
    requires far <= |found| && forall k :: far <= k < |found| ==> found[k].ref != ref
    ensures multiset(Refs(found))[ref] == multiset(Refs(found[..far]))[ref]
  {
    hide Refs;
    NotAmong(found[far..], ref);
    RefsJoined(found[..far], found[far..]);
    assert found == found[..far] + found[far..];
  }

  lemma WindowsNext(n: nat, far: nat)
    requires far <= n
    ensures Windows(far) <= Windows(n + 1)
    ensures far == 0 || n - far >= MAX_CACHE ==> Windows(far) + 1 <= Windows(n + 1)
  {
  }

  lemma {:induction false} NotAmong(found: seq<Resolved>, ref: Ref)
    requires forall k :: 0 <= k < |found| ==> found[k].ref != ref
    ensures multiset(Refs(found))[ref] == 0
  {
    if found != [] {
      var rest, last := found[..|found| - 1], found[|found| - 1];
      assert found == rest + [last];
      RefsAppended(rest, last);
      NotAmong(rest, ref);
    }
  }

  lemma RefsJoined(a: seq<Resolved>, b: seq<Resolved>)
    ensures Refs(a + b) == Refs(a) + Refs(b)
  {
  }

  /** Task t resolved ref and got e. */
  ghost predicate Holds(s: State, t: nat, ref: Ref, e: Resolved) { t in s.tasks && s.tasks[t] == Got(ref, e) }

  /**
    Without invalidation, in a run of any length, with evictions, and however many tasks resolve one
    reference concurrently: IB is asked for it at most once per 1025 fetches more than it failed to
    answer, at least once more as soon as a task got a contract fetched for it, and tasks that
    resolved a reference without a conId share one object or hold objects more than 1024 fetches apart.
  */
  lemma ConcurrentResolvesShareOneFetch(states: seq<State>, events: seq<Event>, i: nat, ref: Ref)
    requires IsRun(states, events) && i < |states|
    requires forall j :: 0 <= j < |events| ==> !events[j].Drop? && !events[j].DropAll?
    ensures var s := states[i];
      && multiset(s.fetches)[ref] <= multiset(s.failures)[ref] + Windows(|s.found| + 1)
      && (forall t, e :: Holds(s, t, ref, e) && e.ref == ref ==>
            multiset(s.fetches)[ref] >= multiset(s.failures)[ref] + 1)
      && (ref.conId.None? ==> forall t, u, e, f :: Holds(s, t, ref, e) && Holds(s, u, ref, f) ==>
            e.ref == ref && (e == f || e.serial - f.serial > 1024 || f.serial - e.serial > 1024))
  {
    hide IsRun, Refs, Get, Windows;
    EveryRunShares(states, events, i);
    AskedOncePerWindow(states[i], ref);
    forall e, f | e in states[i].found && f in states[i].found && e.ref == f.ref
      ensures e == f || e.serial - f.serial > MAX_CACHE || f.serial - e.serial > MAX_CACHE
    {
      SameOrFarApart(states[i].found, e, f);
    }
    forall e | e in states[i].found && e.ref == ref ensures multiset(Refs(states[i].found))[ref] >= 1 {
      var k :| 0 <= k < |states[i].found| && states[i].found[k] == e;
      RefIsAmong(states[i].found, k);
    }
  }

  /** In particular, while at most 1024 contracts were fetched, one request serves all tasks, and all share its object. */
  lemma FirstContractsShareOneFetch(states: seq<State>, events: seq<Event>, i: nat, ref: Ref)
    requires IsRun(states, events) && i < |states|
    requires forall j :: 0 <= j < |events| ==> !events[j].Drop? && !events[j].DropAll?
    requires |states[i].found| <= 1024
    ensures var s := states[i];
      && multiset(s.fetches)[ref] <= multiset(s.failures)[ref] + 1
      && (ref.conId.None? ==> forall t, u, e, f :: Holds(s, t, ref, e) && Holds(s, u, ref, f) ==> e == f)
  {
    hide IsRun, Holds, Get;
    ConcurrentResolvesShareOneFetch(states, events, i, ref);
    EveryRunShares(states, events, i);
    var s := states[i];
    forall t, e | Holds(s, t, ref, e) ensures 0 <= e.serial < MAX_CACHE { HeldSerial(s, t, ref, e); }
  }

  lemma HeldSerial(s: State, t: nat, ref: Ref, e: Resolved)
    requires Shared(s) && Spaced(s.found) && Holds(s, t, ref, e)
    ensures e.serial < |s.found|
  {
  }

  lemma AskedOncePerWindow(s: State, ref: Ref)
    requires Inv(s) && Counted(s) && Tidy(s) && Spaced(s.found)
    ensures multiset(s.fetches)[ref] <= multiset(s.failures)[ref] + Windows(|s.found| + 1)
  {
    hide Refs, Get, CacheOk, Tidy, Spaced;
    if s.holder.Some? && s.tasks[s.holder.value].ref == ref {
      MissedBefore(s, ref);
    } else {
      FetchedOncePerWindow(s.found, ref);
    }
  }

  /** While a request for it is at IB, a reference was fetched only before the last 1024 fetches. */
  lemma MissedBefore(s: State, ref: Ref)
    requires Tidy(s) && Spaced(s.found) && Get(s.cache.entries, ref).None?
    ensures multiset(Refs(s.found))[ref] + 1 <= Windows(|s.found| + 1)
  {
    hide Refs, Get, Tidy;
    var n := |s.found|;
    var far := if n < MAX_CACHE then 0 else n - MAX_CACHE;
    forall k | far <= k < n ensures s.found[k].ref != ref {
      if s.found[k].ref == ref { MissIsFarBack(s, ref, k); }
    }
    NoneLater(s.found, far, ref);
    FetchedOncePerWindow(s.found[..far], ref);
    WindowsNext(n, far);
  }

  lemma SameOrFarApart(found: seq<Resolved>, e: Resolved, f: Resolved)
    requires Spaced(found) && e in found && f in found && e.ref == f.ref
    ensures e == f || e.serial - f.serial > MAX_CACHE || f.serial - e.serial > MAX_CACHE
  {
    var j :| 0 <= j < |found| && found[j] == e;
    var k :| 0 <= k < |found| && found[k] == f;
  }

  lemma RefIsAmong(found: seq<Resolved>, k: nat)
    requires k < |found|
    ensures multiset(Refs(found))[found[k].ref] >= 1
  {
    assert Refs(found)[k] in multiset(Refs(found));
  }

  // ---- what a resolve ends with ---------------------------------------------------------------

  /** A look-up prefers what was fetched for the reference itself; only then another contract with its conId serves. */
  lemma LookupPrefersRef(c: Cache, ref: Ref, n: nat)
    requires CacheOk(c, n)
    ensures forall e :: e in c.entries && e.ref == ref ==> Lookup(c, ref) == Some(e)
    ensures Lookup(c, ref).Some? ==>
      Lookup(c, ref).value in c.entries && (Lookup(c, ref).value.ref == ref || ref.conId == Some(Lookup(c, ref).value.conId))
  {
    hide Get, Shares;
    forall e | e in c.entries && e.ref == ref ensures Lookup(c, ref) == Some(e) {
      assert Get(c.entries, ref).Some?;
      UniqueRef(c.entries, n, e, Get(c.entries, ref).value);
    }
    if Get(c.entries, ref).None? && Lookup(c, ref).Some? {
      var id := ref.conId.value;
      assert c.index[id].conId == id && Youngest(c.entries, c.index[id]);
    }
  }

  /**
    How a request ends: with exactly one match the task gets the new contract, which then serves its
    reference and its conId; with an exception, no match or several matches the task fails and the cache is
    as it was. In both cases the lock is free again.
  */
  lemma AnswerExactly(s: State, t: nat, answer: Answer)
    requires Inv(s) && Enabled(s, Reply(t, answer))
    ensures var v, ref := Step(s, Reply(t, answer)), s.tasks[t].ref;
      && v.holder.None? && v.fetches == s.fetches
      && (v.tasks[t].Got? <==> answer.Matches? && |answer.conIds| == 1)
      && (v.tasks[t].Got? ==>
            var e := v.tasks[t].entry;
            && e.ref == ref && e.conId == answer.conIds[0] && v.found == s.found + [e]
            && Lookup(v.cache, ref) == Some(e) && Lookup(v.cache, Ref(ref.name, Some(e.conId))).Some?)
      && (!v.tasks[t].Got? ==> v.tasks[t] == Raised(ref) && v.cache == s.cache && v.failures == s.failures + [ref])
      && forall u :: u in s.tasks && u != t ==> u in v.tasks && v.tasks[u] == s.tasks[u]
  {
    hide Insert, Get, InFetchOrder, IndexSound;
    if answer.Matches? && |answer.conIds| == 1 {
      var e := Resolved(s.tasks[t].ref, answer.conIds[0], |s.found|);
      InsertKeeps(s.cache, e, |s.found|);
      assert e.conId in Insert(s.cache, e).index by { InsertIndexes(s.cache, e); }
    }
  }

  lemma InsertIndexes(c: Cache, e: Resolved)
    ensures e.conId in Insert(c, e).index && Insert(c, e).index[e.conId] == e
  {
  }

  // ---- the first resolve after an invalidation ------------------------------------------------

  /** invalidate(ref), or invalidate() for everything. */
  predicate Invalidates(e: Event, ref: Ref) { e == Drop(ref) || e.DropAll? }

  predicate Invalidation(e: Event) { e.Drop? || e.DropAll? }

  predicate Serves(e: Resolved, ref: Ref) { e.ref == ref || ref.conId == Some(e.conId) }

  /** The cache ends with the newest contracts of those fetched since there were n, all of them indexed; the rest is older. */
  ghost predicate EndsWith(c: Cache, since: seq<Resolved>, n: nat) {
    var q := |c.entries| - |since|;
    && q >= 0 && c.entries[q..] == since
    && (forall k :: 0 <= k < q ==> c.entries[k].serial < n)
    && (forall k :: q <= k < |c.entries| ==> c.entries[k].serial >= n && c.entries[k].conId in c.index)
  }

  /** No contract fetched before there were n serves ref. */
  ghost predicate OldGone(c: Cache, ref: Ref, n: nat) {
    && (forall k :: 0 <= k < |c.entries| && c.entries[k].ref == ref ==> c.entries[k].serial >= n)
    && (ref.conId.Some? && ref.conId.value in c.index ==> c.index[ref.conId.value].serial >= n)
  }

  ghost predicate Renewed(s: State, ref: Ref, n: nat) {
    n <= |s.found| && EndsWith(s.cache, Newest(s.found[n..]), n) && OldGone(s.cache, ref, n)
  }

  lemma InvalidationRenews(s: State, e: Event, ref: Ref)
    requires Inv(s) && Invalidates(e, ref)
    ensures Lookup(Step(s, e).cache, ref).None? <==> e.DropAll? || Forgets(s.cache, ref)
    ensures Lookup(Step(s, e).cache, ref).None? ==> Renewed(Step(s, e), ref, |s.found|)
  {
    hide Invalidate, Forgets, Get;
    if e.Drop? {
      InvalidateKeeps(s.cache, ref, |s.found|);
      InvalidateForgetsExactly(s.cache, ref, |s.found|);
      assert InFetchOrder(Invalidate(s.cache, ref).entries, |s.found|);
    } else {
      EmptyMisses(ref);
    }
  }

  lemma RenewedKept(s: State, e: Event, ref: Ref, n: nat)
    requires Inv(s) && Renewed(s, ref, n) && Enabled(s, e) && !Invalidation(e)
    ensures Renewed(Step(s, e), ref, n)
  {
    hide EndsWith, OldGone, CacheOk, Insert, Lookup, Get;
    if e.Reply? && e.answer.Matches? && |e.answer.conIds| == 1 {
      var fetched := Resolved(s.tasks[e.task].ref, e.answer.conIds[0], |s.found|);
      assert (s.found + [fetched])[n..] == s.found[n..] + [fetched];
      InsertEndsWith(s.cache, fetched, s.found[n..], n);
      InsertKeepsOldGone(s.cache, fetched, ref, n);
    }
  }

  lemma InsertEndsWith(c: Cache, e: Resolved, since: seq<Resolved>, n: nat)
    requires CacheOk(c, e.serial) && e.serial >= n && EndsWith(c, Newest(since), n)
    ensures EndsWith(Insert(c, e), Newest(since + [e]), n)
  {
    hide IndexSound, MakeRoom, EndsWith, CacheOk, InFetchOrder;
    if |c.entries| >= MAX_CACHE {
      EvictEndsWith(c, Newest(since), n, e.serial);
      var kept := if |since| >= MAX_CACHE then Newest(since)[1..] else Newest(since);
      assert Newest(since + [e]) == kept + [e];
      AppendEndsWith(MakeRoom(c), e, kept, n);
    } else {
      assert MakeRoom(c) == c by { NoEviction(c); }
      assert |since| < MAX_CACHE && Newest(since + [e]) == Newest(since) + [e] by { FewSince(c, since, n); }
      AppendEndsWith(c, e, Newest(since), n);
    }
  }

  lemma NoEviction(c: Cache)
    requires |c.entries| < MAX_CACHE
    ensures MakeRoom(c) == c
  {
  }

  lemma FewSince(c: Cache, since: seq<Resolved>, n: nat)
    requires |c.entries| < MAX_CACHE && EndsWith(c, Newest(since), n)
    ensures |since| < MAX_CACHE
  {
  }

  lemma EvictEndsWith(c: Cache, since: seq<Resolved>, n: nat, m: nat)
    requires CacheOk(c, m) && |c.entries| >= MAX_CACHE && |since| <= MAX_CACHE && EndsWith(c, since, n)
    ensures EndsWith(MakeRoom(c), if |since| == MAX_CACHE then since[1..] else since, n)
  {
    hide InFetchOrder, IndexSound;
    var d := MakeRoom(c);
    var q := |c.entries| - |since|;
    assert d.entries == c.entries[1..];
    forall k | 0 <= k < |d.entries| && k + 1 >= q ensures d.entries[k].serial >= n && d.entries[k].conId in d.index {
      assert d.entries[k] == c.entries[k + 1];
      assert Shares(c.entries[1..], d.entries[k].conId);
    }
  }

  lemma AppendEndsWith(d: Cache, e: Resolved, kept: seq<Resolved>, n: nat)
    requires e.serial >= n && EndsWith(d, kept, n)
    ensures EndsWith(Cache(d.entries + [e], d.index[e.conId := e]), kept + [e], n)
  {
    var q := |d.entries| - |kept|;
    assert (d.entries + [e])[q..] == d.entries[q..] + [e];
  }

  lemma InsertKeepsOldGone(c: Cache, e: Resolved, ref: Ref, n: nat)
    requires e.serial >= n && OldGone(c, ref, n)
    ensures OldGone(Insert(c, e), ref, n)
  {
  }

  lemma LookupServes(c: Cache, since: seq<Resolved>, ref: Ref, n: nat)
    requires IndexSound(c) && EndsWith(c, since, n) && OldGone(c, ref, n) && Lookup(c, ref).Some?
    ensures Lookup(c, ref).value in since && Serves(Lookup(c, ref).value, ref)
  {
    hide Get;
    var x, q := Lookup(c, ref).value, |c.entries| - |since|;
    if Get(c.entries, ref).None? {
      var id := ref.conId.value;
      assert x == c.index[id] && x.conId == id && Youngest(c.entries, x);
    }
    var k :| 0 <= k < |c.entries| && c.entries[k] == x;
    assert since[k - q] == x;
  }

  lemma ServedByIndex(c: Cache, since: seq<Resolved>, ref: Ref, n: nat, k: nat)
    requires EndsWith(c, since, n) && k < |since| && Serves(since[k], ref)
    ensures Lookup(c, ref).Some?
  {
    hide Get;
    assert c.entries[|c.entries| - |since| + k] == since[k];
  }

  /** What such a cache serves. */
  lemma RenewedServes(s: State, ref: Ref, n: nat)
    requires Inv(s) && Renewed(s, ref, n)
    ensures Lookup(s.cache, ref).None? <==> forall x :: x in Newest(s.found[n..]) ==> !Serves(x, ref)
  {
    hide Lookup, Newest, InFetchOrder, IndexSound, LockOk, EndsWith, OldGone, Serves;
    var since := Newest(s.found[n..]);
    if Lookup(s.cache, ref).Some? { LookupServes(s.cache, since, ref, n); }
    if x :| x in since && Serves(x, ref) {
      var k :| 0 <= k < |since| && since[k] == x;
      ServedByIndex(s.cache, since, ref, n, k);
    }
  }

  /** A task's reference stays what it was called with. */
  lemma WaitsFor(s: State, e: Event, t: nat)
    requires Enabled(s, e) && t in s.tasks
    ensures t in Step(s, e).tasks && Step(s, e).tasks[t].ref == s.tasks[t].ref
  {
  }

  /** From an invalidation at step i that leaves nothing serving ref, up to step j. */
  lemma {:induction false} RenewedUntil(states: seq<State>, events: seq<Event>, i: nat, j: nat, t: nat, ref: Ref)
    requires IsRun(states, events) && i + 1 < j <= |events|
    requires Invalidates(events[i], ref) && events[i + 1] == Call(t, ref) && Lookup(states[i + 1].cache, ref).None?
    requires forall m :: i < m < j ==> !Invalidation(events[m])
    ensures Inv(states[j]) && Renewed(states[j], ref, |states[i].found|)
    ensures t in states[j].tasks && states[j].tasks[t].ref == ref
    decreases j
  {
    hide Inv, Enabled, Renewed, Lookup;
    EveryRunKeepsCache(states, events, i);
    EveryRunKeepsCache(states, events, j - 1);
    EveryRunKeepsCache(states, events, j);
    if j == i + 2 {
      InvalidationRenews(states[i], events[i], ref);
    } else {
      RenewedUntil(states, events, i, j - 1, t, ref);
      WaitsFor(states[j - 1], events[j - 1], t);
    }
    RenewedKept(states[j - 1], events[j - 1], ref, |states[i].found|);
  }

  /**
    The first resolve behind an invalidation, in every run. It is not served at once exactly when
    nothing in the cache serves ref any more. When it then gets the lock, it asks IB exactly when no
    contract that came in since, of the newest 1024, serves ref; one does if it was fetched for ref,
    even on a request sent before the invalidation, or carries its conId.
  */
  lemma AsksAgainExactly(states: seq<State>, events: seq<Event>, i: nat, j: nat, t: nat, ref: Ref)
    requires IsRun(states, events) && i + 1 < j < |events|
    requires Invalidates(events[i], ref) && events[i + 1] == Call(t, ref) && events[j] == Acquire(t)
    requires forall m :: i < m < j ==> !Invalidation(events[m])
    ensures events[i].DropAll? || Forgets(states[i].cache, ref)
    ensures |states[i].found| <= |states[j].found|
    ensures states[j + 1].fetches == states[j].fetches + [ref] <==>
      forall x :: x in Newest(states[j].found[|states[i].found|..]) ==> !Serves(x, ref)
  {
    hide Inv, Renewed, Forgets, Get, Newest, Serves;
    ServedAtOnceExactly(states, events, i, t, ref);
    if Lookup(states[i + 1].cache, ref).Some? {
      StaysGot(states, events, i + 2, j, t);
      assert false;
    } else {
      RenewedUntil(states, events, i, j, t, ref);
      assert Renewed(states[j], ref, |states[i].found|) ==> |states[i].found| <= |states[j].found| by { FoundGrew(states[j], ref, |states[i].found|); }
      RenewedServes(states[j], ref, |states[i].found|);
    }
  }

  lemma ServedAtOnceExactly(states: seq<State>, events: seq<Event>, i: nat, t: nat, ref: Ref)
    requires IsRun(states, events) && i + 1 < |events| && Invalidates(events[i], ref) && events[i + 1] == Call(t, ref)
    ensures t in states[i + 2].tasks
    ensures states[i + 2].tasks[t] ==
      if Lookup(states[i + 1].cache, ref).None? then Waiting(ref) else Got(ref, Lookup(states[i + 1].cache, ref).value)
    ensures Lookup(states[i + 1].cache, ref).None? <==> events[i].DropAll? || Forgets(states[i].cache, ref)
  {
    hide Inv, Forgets, Get, Lookup, Renewed, Invalidate;
    EveryRunKeepsCache(states, events, i);
    InvalidationRenews(states[i], events[i], ref);
    assert Enabled(states[i], events[i]) && states[i + 1] == Step(states[i], events[i]);
    assert Enabled(states[i + 1], events[i + 1]) && states[i + 2] == Step(states[i + 1], events[i + 1]);
  }

  lemma {:induction false} StaysGot(states: seq<State>, events: seq<Event>, i: nat, j: nat, t: nat)
    requires IsRun(states, events) && i <= j < |states| && t in states[i].tasks && states[i].tasks[t].Got?
    ensures t in states[j].tasks && states[j].tasks[t].Got?
    decreases j
  {
    hide Lookup, Insert, Invalidate;
    if i < j {
      StaysGot(states, events, i, j - 1, t);
      assert Enabled(states[j - 1], events[j - 1]) && states[j] == Step(states[j - 1], events[j - 1]);
    }
  }

  lemma FoundGrew(s: State, ref: Ref, n: nat)
    ensures Renewed(s, ref, n) ==> n <= |s.found|
  {
  }

  /** With no request at IB when ref is invalidated, the next task to get the lock asks IB again, whenever it has to wait at all. */
  lemma IdleInvalidationAsksAgainExactly(states: seq<State>, events: seq<Event>, i: nat, t: nat, ref: Ref)
    requires IsRun(states, events) && i + 1 < |events| && states[i].holder.None?
    requires Invalidates(events[i], ref) && events[i + 1] == Call(t, ref)
    ensures Enabled(states[i + 2], Acquire(t)) <==> events[i].DropAll? || Forgets(states[i].cache, ref)
    ensures Enabled(states[i + 2], Acquire(t)) ==>
      Step(states[i + 2], Acquire(t)).fetches == states[i + 2].fetches + [ref]
  {
    hide Forgets, Get, Lookup, Invalidate;
    ServedAtOnceExactly(states, events, i, t, ref);
    assert Enabled(states[i], events[i]) && states[i + 1] == Step(states[i], events[i]);
    assert Enabled(states[i + 1], events[i + 1]) && states[i + 2] == Step(states[i + 1], events[i + 1]);
  }

  /** With a request at IB, the waiting task asks again exactly when that request's answer does not serve ref. */
  lemma LateAnswerServesExactly(states: seq<State>, events: seq<Event>, i: nat, u: nat, answer: Answer, t: nat, ref: Ref)
    requires IsRun(states, events) && i + 3 < |events| && states[i].holder == Some(u) && u in states[i].tasks
    requires Invalidates(events[i], ref) && events[i + 1] == Call(t, ref)
    requires events[i + 2] == Reply(u, answer) && events[i + 3] == Acquire(t)
    ensures states[i + 4].fetches == states[i + 3].fetches + [ref] <==>
      !(answer.Matches? && |answer.conIds| == 1
        && (states[i].tasks[u].ref == ref || ref.conId == Some(answer.conIds[0])))
  {
    hide Step, Enabled, Forgets, Newest;
    AsksAgainExactly(states, events, i, i + 3, t, ref);
    OneFound(states, events, i, u, answer);
    var n := |states[i].found|;
    var since := states[i + 3].found[n..];
    assert |since| <= 1 && Newest(since) == since by { FewAreNewest(since); }
    if since != [] { assert since[0] in since; }
  }

  lemma FewAreNewest(since: seq<Resolved>)
    ensures |since| <= 1 ==> Newest(since) == since
  {
  }

  lemma OneFound(states: seq<State>, events: seq<Event>, i: nat, u: nat, answer: Answer)
    requires IsRun(states, events) && i + 2 < |events| && u in states[i].tasks
    requires Invalidation(events[i]) && events[i + 1].Call? && events[i + 2] == Reply(u, answer)
    ensures states[i + 3].found == states[i].found + if answer.Matches? && |answer.conIds| == 1
      then [Resolved(states[i].tasks[u].ref, answer.conIds[0], |states[i].found|)] else []
  {
    hide Lookup, Insert, Invalidate;
    assert Enabled(states[i], events[i]) && states[i + 1] == Step(states[i], events[i]);
    assert Enabled(states[i + 1], events[i + 1]) && states[i + 2] == Step(states[i + 1], events[i + 1]);
    assert Enabled(states[i + 2], events[i + 2]) && states[i + 3] == Step(states[i + 2], events[i + 2]);
  }

  lemma OneMoreStep(states: seq<State>, events: seq<Event>, e: Event)
    requires IsRun(states, events) && Enabled(states[|events|], e)
    ensures IsRun(states + [Step(states[|events|], e)], events + [e])
  {
    hide Step, Enabled;
  }

  /** The run up to the reply: a first request for ref is at IB, ref is invalidated, and a second task waits. */
  lemma InvalidatedInFlight(ref: Ref, e: Event) returns (states: seq<State>)
    requires ref.conId.None? && Invalidates(e, ref)
    ensures IsRun(states, [Call(0, ref), Acquire(0), e, Call(1, ref)])
    ensures states[2].cache == EMPTY && states[2].fetches == [ref]
    ensures states[4] == State(EMPTY, Some(0), map[0 := Fetching(ref), 1 := Waiting(ref)], [ref], [], [])
  {
    states := [START];
    OneMoreStep(states, [], Call(0, ref));
    states := states + [START.(tasks := map[0 := Waiting(ref)])];
    OneMoreStep(states, [Call(0, ref)], Acquire(0));
    states := states + [State(EMPTY, Some(0), map[0 := Fetching(ref)], [ref], [], [])];
    OneMoreStep(states, [Call(0, ref), Acquire(0)], e);
    states := states + [states[2]];
    OneMoreStep(states, [Call(0, ref), Acquire(0), e], Call(1, ref));
    states := states + [State(EMPTY, Some(0), map[0 := Fetching(ref), 1 := Waiting(ref)], [ref], [], [])];
  }

  /** It happens: ref is invalidated while its first request is at IB, and the next resolve gets the old answer. */
  lemma OldAnswerIsServed(ref: Ref, e: Event) returns (states: seq<State>, events: seq<Event>)
    requires ref.conId.None? && Invalidates(e, ref)
    ensures IsRun(states, events)
    ensures events == [Call(0, ref), Acquire(0), e, Call(1, ref), Reply(0, Matches([7])), Acquire(1)]
    ensures Forgets(states[2].cache, ref) && states[2].fetches == [ref] == states[6].fetches
    ensures 1 in states[6].tasks && states[6].tasks[1] == Got(ref, Resolved(ref, 7, 0))
  {
    var x := Resolved(ref, 7, 0);
    assert Get([x], ref) == Some(x);
    assert Insert(EMPTY, x) == Cache([x], map[7 := x]);
    states := InvalidatedInFlight(ref, e);
    events := [Call(0, ref), Acquire(0), e, Call(1, ref)];
    OneMoreStep(states, events, Reply(0, Matches([7])));
    states := states + [State(Cache([x], map[7 := x]), None, map[0 := Got(ref, x), 1 := Waiting(ref)], [ref], [], [x])];
    events := events + [Reply(0, Matches([7]))];
    OneMoreStep(states, events, Acquire(1));
    states := states + [Step(states[5], Acquire(1))];
    events := events + [Acquire(1)];
  }

  // ---- the program's object -------------------------------------------------------------------

  /**
    IbContractResolver, one method per stretch between two awaits. `world` is the state machine the
    run theorems speak of; the coupling says the real fields are its cache and its lock.
  */
  class IbContractResolver {
    var cache: seq<Resolved>
    var byConId: map<int, Resolved>
    var locked: bool
    var fetched: nat
    ghost var world: State

    ghost predicate Valid()
      reads this
    {
      && world.cache == Cache(cache, byConId)
      && (locked <==> world.holder.Some?)
      && fetched == |world.found|
      && Inv(world)
    }

    constructor ()
      ensures Valid() && world == START
    {
      cache, byConId, locked, fetched := [], map[], false, 0;
      world := START;
      new;
      StartOk();
    }

    function Cached(ref: Ref): (r: Option<Resolved>)
      reads this
      ensures r == Lookup(Cache(cache, byConId), ref)
    {
      var cached := Get(cache, ref);
      if cached.None? && ref.conId.Some? then
        if ref.conId.value in byConId then Some(byConId[ref.conId.value]) else None
      else cached
    }

    /** resolve, before the lock: a hit returns at once. */
    method Resolve(ghost t: nat, ref: Ref) returns (hit: Option<Resolved>)
      requires Valid() && Enabled(world, Call(t, ref))
      modifies this`world
      ensures Valid() && world == Step(old(world), Call(t, ref))
      ensures hit.Some? <==> world.tasks[t].Got?
    {
      hide Inv, Lookup;
      hit := Cached(ref);
      StepKeeps(world, Call(t, ref));
      world := Step(world, Call(t, ref));
    }

    /** resolve, with the lock just acquired: look again, otherwise ask IB. */
    method Recheck(ghost t: nat, ref: Ref) returns (hit: Option<Resolved>)
      requires Valid() && Enabled(world, Acquire(t)) && world.tasks[t].ref == ref
      modifies this`world, this`locked
      ensures Valid() && world == Step(old(world), Acquire(t))
      ensures if hit.Some? then world.tasks[t] == Got(ref, hit.value) else world.tasks[t] == Fetching(ref)
    {
      hide Inv, Lookup;
      hit := Cached(ref);
      locked := hit.None?;
      StepKeeps(world, Acquire(t));
      world := Step(world, Acquire(t));
    }

    method DropFromIndex(resolved: Resolved)
      modifies this`byConId
      ensures Cache(cache, byConId) == DropConId(old(Cache(cache, byConId)), resolved)
    {
      if !exists k :: 0 <= k < |cache| && cache[k].conId == resolved.conId {
        byConId := byConId - {resolved.conId};
      }
    }

    /** resolve, when reqContractDetails is back (or raised, or was cancelled). */
    method Answered(ghost t: nat, ref: Ref, answer: Answer) returns (found: Option<Resolved>)
      requires Valid() && Enabled(world, Reply(t, answer)) && world.tasks[t].ref == ref
      modifies this
      ensures Valid() && world == Step(old(world), Reply(t, answer))
      ensures if found.Some? then world.tasks[t] == Got(ref, found.value) else world.tasks[t] == Raised(ref)
    {
      hide Inv;
      found := None;
      locked := false;
      ghost var before := world;
      if answer.Matches? && |answer.conIds| == 1 {
        var resolved := Resolved(ref, answer.conIds[0], fetched);
        if |cache| >= MAX_CACHE {
          var evicted := cache[0];
          cache := cache[1..];
          DropFromIndex(evicted);
        }
        cache := cache + [resolved];
        byConId := byConId[resolved.conId := resolved];
        fetched := fetched + 1;
        found := Some(resolved);
      }
      StepKeeps(world, Reply(t, answer));
      world := Step(world, Reply(t, answer));
    }

    method Invalidate(which: Option<Ref>)
      requires Valid()
      modifies this
      ensures Valid()
      ensures world == Step(old(world), if which.None? then DropAll else Drop(which.value))
    {
      hide Inv;
      ghost var event := if which.None? then DropAll else Drop(which.value);
      StepKeeps(world, event);
      world := Step(world, event);
      if which.None? {
        cache, byConId := [], map[];
      } else {
        var removed := Get(cache, which.value);
        if removed.Some? {
          cache := Without(cache, which.value);
          byConId := byConId - {removed.value.conId};
        }
      }
    }
  }
}
