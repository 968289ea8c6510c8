/**
  Shared PnL feeds: reference-counted IB requests that handles and snapshots share by key. The state
  is generic in the identity of a feed object, which is what release checks for.
*/
module PnlFeeds {
  import opened Prelude

  /** (account, "") or (account, "", con_id). */
  datatype Key = Key(account: string, conId: Option<int>)

  datatype Feed = Feed(key: Key, refs: int)

  /** How a cancel at IB ends: quietly, raising with the request gone, or raising with it still live. */
  datatype CancelOutcome = Quiet | RaisedGone | RaisedLive

  /**
    `users` maps every open handle and running snapshot to its feed; `live` holds the keys with a
    request at IB, `orphans` those whose last cancel left the request behind; `dropped` lists the
    dropped feeds, each cancelled at IB as it was dropped.
  */
  datatype State<F(==)> = State(
    registered: map<Key, F>,
    feeds: map<F, Feed>,
    hooked: set<F>,
    users: map<nat, F>,
    live: set<Key>,
    orphans: set<Key>,
    dropped: seq<F>)

  function Start<F>(): State<F> { State(map[], map[], {}, map[], {}, {}, []) }

  datatype Event<F> =
    | Open(user: nat, key: Key, made: F, ok: bool)
    | Close(user: nat, outcome: CancelOutcome)
    | Drop(key: Key, outcome: CancelOutcome)
    | Resubscribe(key: Key, cancelOld: bool, outcome: CancelOutcome, ok: bool)
    | ConnectionReset

  /** Without cancelling, a request is only re-sent when the connection, and so the old one, is gone. */
  predicate Enabled<F>(s: State<F>, e: Event<F>) {
    match e
    case Open(u, k, f, _) => u !in s.users && (f !in s.feeds || k in s.registered)
    case Close(u, _) => u in s.users && s.users[u] in s.feeds
    case Drop(k, _) => k in s.registered && s.registered[k] in s.feeds
    case Resubscribe(k, cancelOld, _, _) => k in s.registered && (cancelOld || k !in s.live)
    case ConnectionReset => true
  }

  function AddRef<F>(s: State<F>, f: F, n: int): State<F>
    requires f in s.feeds
  {
    s.(feeds := s.feeds[f := s.feeds[f].(refs := s.feeds[f].refs + n)])
  }

  /** _acquire_pnl; a refused request leaves nothing behind. */
  function Acquire<F>(s: State<F>, u: nat, k: Key, f: F, ok: bool): State<F> {
    if k in s.registered then
      if s.registered[k] in s.feeds then AddRef(s, s.registered[k], 1).(users := s.users[u := s.registered[k]]) else s
    else if ok then
      s.(registered := s.registered[k := f], feeds := s.feeds[f := Feed(k, 1)], hooked := s.hooked + {f},
         users := s.users[u := f], live := s.live + {k})
    else s
  }

  function CancelAt<F>(s: State<F>, k: Key, outcome: CancelOutcome): State<F> {
    s.(live := if outcome.RaisedLive? then s.live else s.live - {k},
       orphans := if outcome.RaisedLive? && k in s.live then s.orphans + {k} else s.orphans - {k})
  }

  /** _drop_pnl_feed. */
  function DropFeed<F>(s: State<F>, f: F, outcome: CancelOutcome): State<F>
    requires f in s.feeds
  {
    var k := s.feeds[f].key;
    CancelAt(s.(registered := s.registered - {k}, hooked := s.hooked - {f}, dropped := s.dropped + [f]), k, outcome)
  }

  /** _release_pnl. */
  function Release<F>(s: State<F>, u: nat, outcome: CancelOutcome): State<F>
    requires u in s.users && s.users[u] in s.feeds
  {
    var f := s.users[u];
    var t := AddRef(s, f, -1).(users := s.users - {u});
    if t.feeds[f].refs <= 0 && t.feeds[f].key in t.registered && t.registered[t.feeds[f].key] == f
    then DropFeed(t, f, outcome) else t
  }

  /** _resubscribe_pnl: a cancel that raises keeps the request from being sent again. */
  function Resent<F>(s: State<F>, k: Key, cancelOld: bool, outcome: CancelOutcome, ok: bool): State<F> {
    var t := if cancelOld then CancelAt(s, k, outcome) else s;
    t.(live := if ok && (!cancelOld || outcome.Quiet?) then t.live + {k} else t.live)
  }

  function Step<F>(s: State<F>, e: Event<F>): State<F>
    requires Enabled(s, e)
  {
    match e
    case Open(u, k, f, ok) => Acquire(s, u, k, f, ok)
    case Close(u, outcome) => Release(s, u, outcome)
    case Drop(k, outcome) => DropFeed(s, s.registered[k], outcome)
    case Resubscribe(k, cancelOld, outcome, ok) => Resent(s, k, cancelOld, outcome, ok)
    case ConnectionReset => s.(live := {}, orphans := {})
  }

  // ---- invariant ------------------------------------------------------------------------------

  ghost function UsersOf<F>(users: map<nat, F>, f: F): set<nat> { set u | u in users && users[u] == f }

  /** Registered feeds sit under their own key and are in use; exactly they are hooked. */
  ghost predicate RegisteredOk<F>(s: State<F>) {
    && (forall k :: k in s.registered ==>
          s.registered[k] in s.feeds && s.feeds[s.registered[k]].key == k && s.feeds[s.registered[k]].refs > 0)
    && (forall f :: f in s.hooked ==> IsRegistered(s, f))
    && (forall f :: f in s.feeds && IsRegistered(s, f) ==> f in s.hooked)
  }

  ghost predicate IsRegistered<F>(s: State<F>, f: F) {
    f in s.feeds && s.feeds[f].key in s.registered && s.registered[s.feeds[f].key] == f
  }

  /** Every feed ever made, registered or dropped, counts its open handles and running snapshots. */
  ghost predicate RefsOk<F>(feeds: map<F, Feed>, users: map<nat, F>) {
    && (forall u :: u in users ==> users[u] in feeds)
    && (forall f :: f in feeds ==> feeds[f].refs == |UsersOf(users, f)|)
  }

  /** A feed is dropped, and so cancelled at IB, once and exactly when it is no longer registered. */
  ghost predicate DroppedOk<F>(s: State<F>) {
    && NoDup(s.dropped)
    && (forall f :: f in s.dropped ==> f in s.feeds && !IsRegistered(s, f))
    && (forall f :: f in s.feeds && !IsRegistered(s, f) ==> f in s.dropped)
  }

  /** A request at IB belongs to a registered feed, unless a failed cancel left it behind; what was left behind is live. */
  ghost predicate LiveOk<F>(s: State<F>) {
    s.orphans <= s.live <= s.registered.Keys + s.orphans
  }

  ghost predicate Inv<F>(s: State<F>) { RegisteredOk(s) && RefsOk(s.feeds, s.users) && DroppedOk(s) && LiveOk(s) }

  lemma UserCounts<F>(users: map<nat, F>, u: nat, f: F, g: F)
    requires u !in users
    ensures |UsersOf(users[u := f], g)| == |UsersOf(users, g)| + if g == f then 1 else 0
  {
    assert UsersOf(users[u := f], g) == UsersOf(users, g) + if g == f then {u} else {};
  }

  lemma UserAdded<F>(feeds: map<F, Feed>, users: map<nat, F>, u: nat, f: F)
    requires RefsOk(feeds, users) && u !in users && f in feeds
    ensures RefsOk(feeds[f := feeds[f].(refs := feeds[f].refs + 1)], users[u := f])
  {
    hide UsersOf;
    forall g | g in feeds ensures |UsersOf(users[u := f], g)| == |UsersOf(users, g)| + if g == f then 1 else 0 {
      UserCounts(users, u, f, g);
    }
  }

  lemma FeedAdded<F>(feeds: map<F, Feed>, users: map<nat, F>, f: F, k: Key)
    requires RefsOk(feeds, users) && f !in feeds
    ensures RefsOk(feeds[f := Feed(k, 0)], users)
  {
    assert UsersOf(users, f) == {};
  }

  lemma UserRemoved<F>(feeds: map<F, Feed>, users: map<nat, F>, u: nat)
    requires RefsOk(feeds, users) && u in users
    ensures var f := users[u]; RefsOk(feeds[f := feeds[f].(refs := feeds[f].refs - 1)], users - {u})
  {
    hide UsersOf;
    var f := users[u];
    assert users == (users - {u})[u := f];
    forall g | g in feeds ensures |UsersOf(users, g)| == |UsersOf(users - {u}, g)| + if g == f then 1 else 0 {
      UserCounts(users - {u}, u, f, g);
    }
  }

  lemma AcquireKeeps<F>(s: State<F>, u: nat, k: Key, f: F, ok: bool)
    requires Inv(s) && u !in s.users && (f !in s.feeds || k in s.registered)
    ensures Inv(Acquire(s, u, k, f, ok))
  {
    hide RefsOk, UsersOf;
    if k in s.registered {
      UserAdded(s.feeds, s.users, u, s.registered[k]);
      AcquireShared(s, u, k, f, ok);
    } else if ok {
      FeedAdded(s.feeds, s.users, f, k);
      UserAdded(s.feeds[f := Feed(k, 0)], s.users, u, f);
      assert s.feeds[f := Feed(k, 0)][f := Feed(k, 1)] == s.feeds[f := Feed(k, 1)];
      AcquireNew(s, u, k, f);
    }
  }

  lemma AcquireShared<F>(s: State<F>, u: nat, k: Key, f: F, ok: bool)
    requires RegisteredOk(s) && DroppedOk(s) && LiveOk(s) && k in s.registered
    ensures var t := Acquire(s, u, k, f, ok); RegisteredOk(t) && DroppedOk(t) && LiveOk(t)
  {
    var t := Acquire(s, u, k, f, ok);
    forall g | g in s.feeds ensures IsRegistered(t, g) <==> IsRegistered(s, g) {}
  }

  lemma AcquireNew<F>(s: State<F>, u: nat, k: Key, f: F)
    requires RegisteredOk(s) && DroppedOk(s) && LiveOk(s) && k !in s.registered && f !in s.feeds
    ensures var t := Acquire(s, u, k, f, true); RegisteredOk(t) && DroppedOk(t) && LiveOk(t)
  {
    hide NoDup;
    var t := Acquire(s, u, k, f, true);
    forall g | g in s.feeds ensures IsRegistered(t, g) <==> IsRegistered(s, g) {}
    assert IsRegistered(t, f);
  }

  /** Dropping a registered feed that has just lost its last user, or whatever users it still has. */
  lemma DropKeeps<F>(s: State<F>, f: F, outcome: CancelOutcome)
    requires DroppedOk(s) && LiveOk(s) && f in s.feeds && IsRegistered(s, f)
    requires forall k :: k in s.registered ==>
      && s.registered[k] in s.feeds && s.feeds[s.registered[k]].key == k
      && (s.registered[k] != f ==> s.feeds[s.registered[k]].refs > 0)
    requires forall g :: g in s.hooked ==> IsRegistered(s, g)
    requires forall g :: g in s.feeds && IsRegistered(s, g) ==> g in s.hooked
    ensures var t := DropFeed(s, f, outcome);
      && RegisteredOk(t) && DroppedOk(t) && LiveOk(t) && !IsRegistered(t, f)
      && t.feeds == s.feeds && t.users == s.users
  {
    var t := DropFeed(s, f, outcome);
    forall g | g in s.feeds ensures IsRegistered(t, g) <==> IsRegistered(s, g) && g != f {}
  }

  lemma ReleaseKeeps<F>(s: State<F>, u: nat, outcome: CancelOutcome)
    requires Inv(s) && u in s.users && s.users[u] in s.feeds
    ensures Inv(Release(s, u, outcome))
  {
    hide RefsOk, UsersOf, NoDup;
    UserRemoved(s.feeds, s.users, u);
    var f := s.users[u];
    var t := AddRef(s, f, -1).(users := s.users - {u});
    forall g | g in s.feeds ensures IsRegistered(t, g) <==> IsRegistered(s, g) {}
    if t.feeds[f].refs <= 0 && IsRegistered(t, f) { DropKeeps(t, f, outcome); }
  }

  lemma StepKeeps<F>(s: State<F>, e: Event<F>)
    requires Inv(s) && Enabled(s, e)
    ensures Inv(Step(s, e))
  {
    match e
    case Open(u, k, f, ok) => AcquireKeeps(s, u, k, f, ok);
    case Close(u, outcome) => ReleaseKeeps(s, u, outcome);
    case Drop(k, outcome) =>
      DropKeeps(s, s.registered[k], outcome);
    case Resubscribe(k, cancelOld, outcome, ok) =>
      SameDropped(s, Step(s, e));
    case ConnectionReset =>
      SameDropped(s, Step(s, e));
  }

  lemma SameDropped<F>(s: State<F>, t: State<F>)
    requires DroppedOk(s) && t.feeds == s.feeds && t.registered == s.registered && t.dropped == s.dropped
    ensures DroppedOk(t)
  {
    forall f | f in s.feeds ensures IsRegistered(t, f) <==> IsRegistered(s, f) {}
  }

  // ---- runs -----------------------------------------------------------------------------------

  ghost predicate IsRun<F>(states: seq<State<F>>, events: seq<Event<F>>) {
    && |states| == |events| + 1
    && states[0] == Start<F>()
    && forall i :: 0 <= i < |events| ==> Enabled(states[i], events[i]) && states[i + 1] == Step(states[i], events[i])
  }

  /**
    Every run: each feed ever made counts exactly its open handles and running snapshots; a
    registered feed is in use and hooked, every other one is unhooked and was cancelled at IB exactly
    once; and a request at IB belongs to a registered feed or was left behind by a failed cancel.
  */
  lemma {:induction false} EveryRunKeepsFeeds<F>(states: seq<State<F>>, events: seq<Event<F>>, i: nat)
    requires IsRun(states, events) && i < |states|
    ensures Inv(states[i])
  {
    hide Step, Enabled, Inv;
    if i == 0 {
      StartOk<F>();
    } else {
      EveryRunKeepsFeeds(states, events, i - 1);
      StepKeeps(states[i - 1], events[i - 1]);
    }
  }

  lemma StartOk<F>()
    ensures Inv(Start<F>())
  {
  }

  /** The step sends a request for its key while one is live at IB. */
  ghost predicate RequestsTwice<F>(s: State<F>, e: Event<F>) {
    match e
    case Open(_, k, _, _) => k !in s.registered && k in s.live
    case Resubscribe(k, cancelOld, outcome, _) =>
      (!cancelOld && k in s.live) || (cancelOld && outcome.Quiet? && k in CancelAt(s, k, outcome).live)
    case _ => false
  }

  /** The outcome with which the step cancels the key at IB, if it does. */
  ghost function CancelOf<F>(s: State<F>, e: Event<F>, k: Key): Option<CancelOutcome> {
    match e
    case Close(u, outcome) =>
      if && u in s.users && s.users[u] in s.feeds && s.feeds[s.users[u]].key == k
         && s.feeds[s.users[u]].refs <= 1 && k in s.registered && s.registered[k] == s.users[u]
      then Some(outcome) else None
    case Drop(k', outcome) => if k' == k then Some(outcome) else None
    case Resubscribe(k', cancelOld, outcome, _) => if k' == k && cancelOld then Some(outcome) else None
    case _ => None
  }

  /** The step's cancel of the key raises and leaves its request live at IB. */
  ghost predicate CancelFails<F>(s: State<F>, e: Event<F>, k: Key) {
    CancelOf(s, e, k) == Some(RaisedLive) && k in s.live
  }

  /** The step takes back whatever request IB has for the key. */
  ghost predicate Clears<F>(s: State<F>, e: Event<F>, k: Key) {
    e.ConnectionReset? || (CancelOf(s, e, k).Some? && !CancelOf(s, e, k).value.RaisedLive?)
  }

  lemma StepOrphans<F>(s: State<F>, e: Event<F>, k: Key)
    requires Inv(s) && Enabled(s, e)
    ensures k in Step(s, e).orphans <==> CancelFails(s, e, k) || (k in s.orphans && !Clears(s, e, k))
  {
    hide RefsOk, DroppedOk;
  }

  /** A request was left behind exactly when some cancel of its key failed and nothing has cleared it since. */
  ghost predicate LeftBehind<F>(states: seq<State<F>>, events: seq<Event<F>>, i: nat, k: Key)
    requires IsRun(states, events) && i < |states|
  {
    exists j :: 0 <= j < i && CancelFails(states[j], events[j], k)
      && forall m :: j < m < i ==> !Clears(states[m], events[m], k)
  }

  lemma {:induction false} OrphansAreLeftBehind<F>(states: seq<State<F>>, events: seq<Event<F>>, i: nat, k: Key)
    requires IsRun(states, events) && i < |states|
    ensures k in states[i].orphans <==> LeftBehind(states, events, i, k)
  {
    hide Inv, Step, Enabled, CancelFails, Clears;
    if i > 0 {
      OrphansAreLeftBehind(states, events, i - 1, k);
      EveryRunKeepsFeeds(states, events, i - 1);
      StepOrphans(states[i - 1], events[i - 1], k);
      if LeftBehind(states, events, i - 1, k) && !Clears(states[i - 1], events[i - 1], k) {
        assert LeftBehind(states, events, i, k);
      }
    }
  }

  /**
    In every run: a key is requested while its request is live at IB exactly when it is opened anew
    after a cancel of it raised, left the request live, and nothing has taken that request back since.
  */
  lemma RequestsTwiceExactly<F>(states: seq<State<F>>, events: seq<Event<F>>, i: nat)
    requires IsRun(states, events) && i < |events|
    ensures RequestsTwice(states[i], events[i]) <==>
      && events[i].Open? && events[i].key !in states[i].registered
      && LeftBehind(states, events, i, events[i].key)
  {
    hide Step, RegisteredOk, RefsOk, DroppedOk, LeftBehind;
    EveryRunKeepsFeeds(states, events, i);
    if events[i].Open? { OrphansAreLeftBehind(states, events, i, events[i].key); }
  }

  /** It happens: a feed is opened and closed, the cancel raises, and the next opening requests the live key again. */
  lemma FailedCancelIsRequestedTwice<F>(k: Key, f: F, g: F) returns (states: seq<State<F>>, events: seq<Event<F>>)
    requires f != g
    ensures IsRun(states, events) && |events| == 3 && RequestsTwice(states[2], events[2])
  {
    var s1 := Step(Start<F>(), Open(0, k, f, true));
    var s2 := Step(s1, Close(0, RaisedLive));
    events := [Open(0, k, f, true), Close(0, RaisedLive), Open(1, k, g, true)];
    states := [Start<F>(), s1, s2, Step(s2, events[2])];
  }

  /** The step asks IB for the key, and IB takes the request. */
  ghost predicate Asks<F>(s: State<F>, e: Event<F>, k: Key) {
    match e
    case Open(_, k', _, ok) => k' == k && k !in s.registered && ok
    case Resubscribe(k', cancelOld, outcome, ok) => k' == k && ok && (!cancelOld || outcome.Quiet?)
    case _ => false
  }

  /** The step drops the key's feed. */
  ghost predicate Drops<F>(s: State<F>, e: Event<F>, k: Key) { CancelOf(s, e, k).Some? && !e.Resubscribe? }

  /**
    What a step does, key by key: IB streams a key afterwards exactly when the step asked for it, or it did
    before and nothing has taken that back; a key is registered exactly when it was opened now, or it was
    and is not dropped; and users come and go as they open and close, on the registered feed.
  */
  lemma StepByKeys<F>(s: State<F>, e: Event<F>, k: Key)
    requires Inv(s) && Enabled(s, e)
    ensures KeyMoves(s, e, Step(s, e), k)
    ensures Step(s, e).users == match e
      case Open(u, k', f, ok) =>
        if k' in s.registered then s.users[u := s.registered[k']] else if ok then s.users[u := f] else s.users
      case Close(u, _) => s.users - {u}
      case _ => s.users
  {
    hide RefsOk, DroppedOk, LiveOk, KeyMoves;
    match e
    case Open(_, _, _, _) => OpenByKeys(s, e, k);
    case Close(_, _) => CloseByKeys(s, e, k);
    case _ => OtherByKeys(s, e, k);
  }

  ghost predicate KeyMoves<F>(s: State<F>, e: Event<F>, t: State<F>, k: Key) {
    && (k in t.live <==> Asks(s, e, k) || (k in s.live && !Clears(s, e, k)))
    && (k in t.registered <==> (e.Open? && Asks(s, e, k)) || (k in s.registered && !Drops(s, e, k)))
    && (k in t.registered && k in s.registered ==> t.registered[k] == s.registered[k])
  }

  lemma OpenByKeys<F>(s: State<F>, e: Event<F>, k: Key)
    requires RegisteredOk(s) && Enabled(s, e) && e.Open?
    ensures KeyMoves(s, e, Step(s, e), k)
  {
  }

  lemma CloseByKeys<F>(s: State<F>, e: Event<F>, k: Key)
    requires RegisteredOk(s) && Enabled(s, e) && e.Close?
    ensures KeyMoves(s, e, Step(s, e), k)
  {
  }

  lemma OtherByKeys<F>(s: State<F>, e: Event<F>, k: Key)
    requires RegisteredOk(s) && Enabled(s, e) && !e.Open? && !e.Close?
    ensures KeyMoves(s, e, Step(s, e), k)
  {
  }

  /** Closing an old handle of a dropped feed, or ending an old snapshot on it, touches nothing but its own count. */
  lemma StaleReleaseIsHarmless<F>(s: State<F>, u: nat, outcome: CancelOutcome)
    requires Inv(s) && u in s.users && !IsRegistered(s, s.users[u])
    ensures var t := Release(s, u, outcome);
      && t.registered == s.registered && t.hooked == s.hooked && t.live == s.live && t.orphans == s.orphans
      && t.dropped == s.dropped && t.feeds.Keys == s.feeds.Keys
      && forall g :: g in s.feeds && g != s.users[u] ==> t.feeds[g] == s.feeds[g]
  {
  }

  /** Closing drops the feed exactly when the closed user was the registered feed's last one. */
  lemma LastUserDropsTheFeed<F>(s: State<F>, u: nat, outcome: CancelOutcome)
    requires Inv(s) && u in s.users
    ensures s.users[u] in Release(s, u, outcome).dropped <==>
      !IsRegistered(s, s.users[u]) || UsersOf(s.users, s.users[u]) == {u}
  {
    var f := s.users[u];
    ReleaseKeeps(s, u, outcome);
    var t := Release(s, u, outcome);
    assert u in UsersOf(s.users, f);
    if |UsersOf(s.users, f)| == 1 {
      var rest := UsersOf(s.users, f) - {u};
      assert UsersOf(s.users, f) == rest + {u} && |rest| == 0;
    }
    assert IsRegistered(t, f) <==> IsRegistered(s, f) && s.feeds[f].refs > 1;
  }

  // ---- the program's objects --------------------------------------------------------------------

  class PnlFeed {
    const key: Key
    var refs: int
    constructor (key: Key) ensures this.key == key && refs == 0 { this.key := key; refs := 0; }
  }

  ghost function Views(feeds: set<PnlFeed>): map<PnlFeed, Feed>
    reads feeds
  {
    map f | f in feeds :: Feed(f.key, f.refs)
  }

  lemma ViewsKeys(feeds: set<PnlFeed>)
    ensures Views(feeds).Keys == feeds
  {
  }

  lemma RegisteredIsKnown<F>(s: State<F>, k: Key)
    requires Inv(s) && k in s.registered
    ensures s.registered[k] in s.feeds
  {
  }

  /** The transport's PnL part; the ghost fields are what lies outside it: users and IB. */
  class PnlTransport {
    var pnlFeeds: map<Key, PnlFeed>
    /** The feeds whose handler is hooked on pnlEvent or pnlSingleEvent. */
    var handlers: set<PnlFeed>
    ghost var all: set<PnlFeed>
    ghost var users: map<nat, PnlFeed>
    ghost var live: set<Key>
    ghost var orphans: set<Key>
    ghost var dropped: seq<PnlFeed>

    ghost function World(): State<PnlFeed>
      reads this, all
    {
      State(pnlFeeds, Views(all), handlers, users, live, orphans, dropped)
    }

    ghost predicate Valid()
      reads this, all
    {
      Inv(World())
    }

    constructor ()
      ensures Valid() && World() == Start() && all == {}
    {
      pnlFeeds, handlers := map[], {};
      all, users, live, orphans, dropped := {}, map[], {}, {}, [];
      new;
      StartOk<PnlFeed>();
    }

    /** The part of _acquire_pnl that opens a feed; `ok` says whether the request goes through. */
    method OpenFeed(key: Key, ok: bool) returns (made: PnlFeed)
      modifies this
      ensures fresh(made) && made.key == key && made.refs == 0
      ensures World() == if ok
        then old(World()).(registered := old(pnlFeeds)[key := made], feeds := old(Views(all))[made := Feed(key, 0)],
                           hooked := old(handlers) + {made}, live := old(live) + {key})
        else old(World())
      ensures all == if ok then old(all) + {made} else old(all)
    {
      made := new PnlFeed(key);
      handlers := handlers + {made};
      if ok {
        pnlFeeds := pnlFeeds[key := made];
        all := all + {made};
        live := live + {key};
        assert Views(all) == old(Views(all))[made := Feed(key, 0)];
      } else {
        handlers := handlers - {made};
        assert handlers == old(handlers) by {
          assert forall f :: f in old(handlers) ==> f != made;
        }
      }
    }

    /** _acquire_pnl for a handle or a snapshot `u`. */
    method AcquirePnl(ghost u: nat, key: Key, ok: bool) returns (feed: Option<PnlFeed>)
      requires Valid() && u !in users
      modifies this, all
      ensures Valid() && old(all) <= all && fresh(all - old(all))
      ensures exists made: PnlFeed ::
        (made !in old(all) || key in old(pnlFeeds)) && World() == Acquire(old(World()), u, key, made, ok)
      ensures feed.Some? <==> u in users
      ensures feed.Some? ==> users[u] == feed.value
    {
      hide Inv, Views;
      ghost var before := World();
      if key in pnlFeeds {
        RegisteredIsKnown(before, key);
        ViewsKeys(all);
        feed := Some(pnlFeeds[key]);
        AcquireKeeps(before, u, key, feed.value, ok);
        AddUser(u, feed.value);
        assert World() == Acquire(before, u, key, feed.value, ok);
      } else {
        ViewsKeys(all);
        var made := OpenFeed(key, ok);
        AcquireKeeps(before, u, key, made, ok);
        if !ok { return None; }
        feed := Some(made);
        AddUser(u, made);
        assert World() == Acquire(before, u, key, made, ok);
      }
    }

    /** `feed.refs += 1`. */
    method AddUser(ghost u: nat, feed: PnlFeed)
      requires feed in all && u !in users
      modifies this`users, feed`refs
      ensures World() == AddRef(old(World()), feed, 1).(users := old(users)[u := feed])
    {
      feed.refs := feed.refs + 1;
      users := users[u := feed];
      assert Views(all) == AddRef(old(World()), feed, 1).feeds;
    }

    /** _release_pnl. */
    method ReleasePnl(ghost u: nat, feed: PnlFeed, ghost outcome: CancelOutcome)
      requires Valid() && u in users && users[u] == feed
      modifies this, all
      ensures Valid() && all == old(all)
      ensures World() == Release(old(World()), u, outcome)
    {
      hide DroppedOk, LiveOk, UsersOf;
      ghost var before := World();
      ReleaseKeeps(World(), u, outcome);
      feed.refs := feed.refs - 1;
      users := users - {u};
      assert World() == AddRef(before, feed, -1).(users := before.users - {u});
      if feed.refs <= 0 && feed.key in pnlFeeds && pnlFeeds[feed.key] == feed {
        DropPnlFeed(feed, outcome);
      }
    }

    /** _drop_pnl_feed, without the waiters. */
    method DropPnlFeed(feed: PnlFeed, ghost outcome: CancelOutcome)
      requires feed in all
      modifies this
      ensures all == old(all) && World() == DropFeed(old(World()), feed, outcome)
    {
      ghost var after := DropFeed(World(), feed, outcome);
      pnlFeeds := pnlFeeds - {feed.key};
      handlers := handlers - {feed};
      dropped := dropped + [feed];
      live, orphans := after.live, after.orphans;
    }
  }
}
