/** The WS routing table on top of an event bus, as a refinement of a dict with channel-wide fallback. */
module WsRouting {
  import opened Prelude

  /** A (channel, pair) slot; no pair means channel-wide. */
  datatype Slot = Slot(channel: string, pair: Option<string>)

  /** A live subscription on the bus. */
  datatype Live<H> = Live(id: nat, key: string, handler: H)

  function Key(s: Slot): string {
    s.channel + ":" + if s.pair.Some? then s.pair.value else "*"
  }

  /** The handler the dict-based table would pick. */
  function Pick<H>(dict: map<Slot, H>, s: Slot): Option<H> {
    if s.pair.Some? && s in dict then Some(dict[s])
    else if Slot(s.channel, None) in dict then Some(dict[Slot(s.channel, None)])
    else None
  }

  /** The slot whose key a frame is published under, when any. */
  function Target<H>(dict: map<Slot, H>, s: Slot): Option<Slot> {
    if s.pair.Some? && s in dict then Some(s)
    else if Slot(s.channel, None) in dict then Some(Slot(s.channel, None))
    else None
  }

  /** The exact slot has priority, the channel-wide one comes second, and nothing else is ever picked. */
  lemma PickExactly<H>(dict: map<Slot, H>, channel: string, pair: string, h: H)
    ensures Pick(dict, Slot(channel, Some(pair))) == Some(h) <==>
      || (Slot(channel, Some(pair)) in dict && dict[Slot(channel, Some(pair))] == h)
      || (Slot(channel, Some(pair)) !in dict && Slot(channel, None) in dict && dict[Slot(channel, None)] == h)
    ensures Pick(dict, Slot(channel, None)) == Some(h) <==> Slot(channel, None) in dict && dict[Slot(channel, None)] == h
  {
  }

  /** The target is the slot whose handler is picked. */
  lemma TargetIsPicked<H>(dict: map<Slot, H>, s: Slot)
    ensures Target(dict, s).Some? <==> Pick(dict, s).Some?
    ensures Target(dict, s).Some? ==> Target(dict, s).value in dict && dict[Target(dict, s).value] == Pick(dict, s).value
    ensures s.pair.Some? && s in dict ==> Target(dict, s) == Some(s)
    ensures Target(dict, s).Some? ==> Target(dict, s).value.channel == s.channel
  {
  }

  /** publish: every live subscription of that key, in subscription order. */
  function Deliveries<H>(live: seq<Live<H>>, key: string): seq<H> {
    if live == [] then []
    else Deliveries(live[..|live| - 1], key) + if live[|live| - 1].key == key then [live[|live| - 1].handler] else []
  }

  // ---- keys -----------------------------------------------------------------------------------

  predicate PlainSlot(s: Slot) { ':' !in s.channel && s.pair != Some("*") }

  /** Where no channel holds ":" and no pair is "*", distinct slots have distinct keys. */
  lemma PlainKeysDiffer(a: Slot, b: Slot)
    requires PlainSlot(a) && PlainSlot(b)
    ensures Key(a) == Key(b) ==> a == b
  {
    var p, q := if a.pair.Some? then a.pair.value else "*", if b.pair.Some? then b.pair.value else "*";
    assert Key(a) == a.channel + ":" + p && Key(b) == b.channel + ":" + q;
    if Key(a) == Key(b) {
      FirstOccurrence(':', a.channel, p, b.channel, q);
    }
  }

  /** Both conditions are needed: without either, two slots share a key. */
  lemma KeysCollide()
    ensures Key(Slot("book", None)) == Key(Slot("book", Some("*")))
    ensures Key(Slot("book:l2", Some("BTC"))) == Key(Slot("book", Some("l2:BTC")))
  {
    assert Key(Slot("book:l2", Some("BTC"))) == "book:l2:BTC";
    assert Key(Slot("book", Some("l2:BTC"))) == "book:l2:BTC";
  }

  // ---- the bus holds the dict -------------------------------------------------------------------

  /** Subscription ids grow, and all are below the next one. */
  ghost predicate InOrder<H>(live: seq<Live<H>>, next: nat) {
    && (forall i, j :: 0 <= i < j < |live| ==> live[i].id < live[j].id)
    && (forall i :: 0 <= i < |live| ==> live[i].id < next)
  }

  /** Position i of the bus is the subscription of slot s. */
  ghost predicate Holds<H>(live: seq<Live<H>>, subs: map<Slot, nat>, dict: map<Slot, H>, s: Slot, i: nat) {
    && i < |live| && s in subs && s in dict
    && live[i] == Live(subs[s], Key(s), dict[s])
  }

  /** The bus holds one live subscription for each registered slot, with the dict's handler, and nothing else. */
  ghost predicate Refines<H>(live: seq<Live<H>>, subs: map<Slot, nat>, dict: map<Slot, H>, next: nat) {
    && InOrder(live, next)
    && subs.Keys == dict.Keys
    && (forall s, t :: s in subs && t in subs && s != t ==> subs[s] != subs[t])
    && (forall s :: s in subs ==> Served(live, subs, dict, s))
    && (forall i: nat :: i < |live| ==> Wanted(live, subs, dict, i))
  }

  ghost predicate Served<H>(live: seq<Live<H>>, subs: map<Slot, nat>, dict: map<Slot, H>, s: Slot) {
    exists i: nat :: Holds(live, subs, dict, s, i)
  }

  ghost predicate Wanted<H>(live: seq<Live<H>>, subs: map<Slot, nat>, dict: map<Slot, H>, i: nat) {
    exists s :: Holds(live, subs, dict, s, i)
  }

  lemma {:induction false} OneDelivery<H>(live: seq<Live<H>>, i: nat)
    requires i < |live| && forall j :: 0 <= j < |live| && j != i ==> live[j].key != live[i].key
    ensures Deliveries(live, live[i].key) == [live[i].handler]
  {
    var t, n := live[..|live| - 1], |live| - 1;
    if i == n { NoDelivery(t, live[i].key); } else { OneDelivery(t, i); }
  }

  lemma {:induction false} NoDelivery<H>(live: seq<Live<H>>, key: string)
    requires forall j :: 0 <= j < |live| ==> live[j].key != key
    ensures Deliveries(live, key) == []
  {
    if live != [] { NoDelivery(live[..|live| - 1], key); }
  }

  lemma {:induction false} SomeDelivery<H>(live: seq<Live<H>>, i: nat)
    requires i < |live|
    ensures |Deliveries(live, live[i].key)| >= 1
  {
    if i < |live| - 1 { SomeDelivery(live[..|live| - 1], i); }
  }

  lemma {:induction false} TwoDeliveries<H>(live: seq<Live<H>>, i: nat, j: nat)
    requires i < j < |live| && live[i].key == live[j].key
    ensures |Deliveries(live, live[i].key)| >= 2
  {
    var t := live[..|live| - 1];
    if j == |live| - 1 { SomeDelivery(t, i); } else { TwoDeliveries(t, i, j); }
  }

  /** No other registered slot has the slot's key. */
  predicate Unshared<H>(dict: map<Slot, H>, s: Slot) { forall t :: t in dict && t != s ==> Key(t) != Key(s) }

  /**
    A frame reaches exactly the handler the dict would pick, once, if and only if no other registered
    slot shares the picked slot's key; with nothing to pick it reaches nobody.
  */
  lemma RoutesAsDictExactly<H>(live: seq<Live<H>>, subs: map<Slot, nat>, dict: map<Slot, H>, next: nat, s: Slot)
    requires Refines(live, subs, dict, next) && Target(dict, s).Some?
    ensures Deliveries(live, Key(Target(dict, s).value)) == [Pick(dict, s).value] <==> Unshared(dict, Target(dict, s).value)
  {
    hide InOrder, Key, Deliveries;
    var target := Target(dict, s).value;
    var i: nat :| Holds(live, subs, dict, target, i);
    if Unshared(dict, target) {
      forall j: nat | j < |live| && j != i ensures live[j].key != live[i].key {
        assert Wanted(live, subs, dict, j);
        var t :| Holds(live, subs, dict, t, j);
        SameIdSamePlace(live, next, i, j);
      }
      OneDelivery(live, i);
    } else {
      var t :| t in dict && t != target && Key(t) == Key(target);
      var j: nat :| Holds(live, subs, dict, t, j);
      if i < j { TwoDeliveries(live, i, j); } else { TwoDeliveries(live, j, i); }
    }
  }

  lemma SameIdSamePlace<H>(live: seq<Live<H>>, next: nat, i: nat, j: nat)
    requires InOrder(live, next) && i < |live| && j < |live| && i != j
    ensures live[i].id != live[j].id
  {
  }

  /** With plain slots only, every frame goes where the dict would send it. */
  lemma PlainSlotsRouteAsDict<H>(live: seq<Live<H>>, subs: map<Slot, nat>, dict: map<Slot, H>, next: nat, s: Slot)
    requires Refines(live, subs, dict, next) && Target(dict, s).Some? && forall t :: t in dict ==> PlainSlot(t)
    ensures Deliveries(live, Key(Target(dict, s).value)) == [Pick(dict, s).value]
  {
    PlainIsUnshared(dict, Target(dict, s).value);
    RoutesAsDictExactly(live, subs, dict, next, s);
  }

  lemma PlainIsUnshared<H>(dict: map<Slot, H>, s: Slot)
    requires s in dict && forall t :: t in dict ==> PlainSlot(t)
    ensures Unshared(dict, s)
  {
    hide Key, PlainSlot;
    forall t | t in dict && t != s ensures Key(t) != Key(s) { PlainKeysDiffer(t, s); }
  }

  lemma SubscribedRefines<H>(live: seq<Live<H>>, subs: map<Slot, nat>, dict: map<Slot, H>, next: nat, s: Slot, h: H)
    requires Refines(live, subs, dict, next) && s !in dict
    ensures Refines(live + [Live(next, Key(s), h)], subs[s := next], dict[s := h], next + 1)
  {
    hide Key;
    var live', subs', dict' := live + [Live(next, Key(s), h)], subs[s := next], dict[s := h];
    forall t | t in subs ensures subs[t] < next {
      assert Served(live, subs, dict, t);
      var i: nat :| Holds(live, subs, dict, t, i);
    }
    forall t | t in subs' ensures Served(live', subs', dict', t) {
      if t == s {
        assert Holds(live', subs', dict', s, |live|);
      } else {
        assert Served(live, subs, dict, t);
        var i: nat :| Holds(live, subs, dict, t, i);
        assert Holds(live', subs', dict', t, i);
      }
    }
    forall i: nat | i < |live'| ensures Wanted(live', subs', dict', i) {
      if i == |live| {
        assert Holds(live', subs', dict', s, i);
      } else {
        assert Wanted(live, subs, dict, i);
        var t :| Holds(live, subs, dict, t, i);
        assert Holds(live', subs', dict', t, i);
      }
    }
  }

  /** It happens: two subscriptions on an empty table, and a frame for the first reaches both handlers. */
  lemma SharedKeyReachesBoth<H>(h: H, g: H)
    ensures var a, b := Slot("book:l2", Some("BTC")), Slot("book", Some("l2:BTC"));
      var live := [Live(0, Key(a), h), Live(1, Key(b), g)];
      && Refines(live, map[a := 0, b := 1], map[a := h, b := g], 2)
      && Pick(map[a := h, b := g], a) == Some(h) && Deliveries(live, Key(a)) == [h, g]
  {
    hide Refines, Key;
    var a, b := Slot("book:l2", Some("BTC")), Slot("book", Some("l2:BTC"));
    KeysCollide();
    var none: seq<Live<H>> := [];
    assert Refines(none, map[], map[], 0) by { NothingRefines<H>(); }
    SubscribedRefines(none, map[], map[], 0, a, h);
    assert none + [Live(0, Key(a), h)] == [Live(0, Key(a), h)];
    SubscribedRefines([Live(0, Key(a), h)], map[a := 0], map[a := h], 1, b, g);
    var live := [Live(0, Key(a), h), Live(1, Key(b), g)];
    assert [Live(0, Key(a), h)] + [Live(1, Key(b), g)] == live;
    assert live[..1] == [Live(0, Key(a), h)] && live[..1][..0] == none;
    assert Deliveries(live[..1], Key(a)) == [h];
  }

  lemma NothingRefines<H>()
    ensures Refines<H>([], map[], map[], 0)
  {
  }

  lemma RemovedInOrder<H>(live: seq<Live<H>>, next: nat, k: nat)
    requires InOrder(live, next) && k < |live|
    ensures InOrder(live[..k] + live[k + 1..], next)
  {
  }

  /** Where another slot's subscription stands once position k is gone. */
  lemma Moved<H>(live: seq<Live<H>>, subs: map<Slot, nat>, dict: map<Slot, H>, s: Slot, k: nat, t: Slot, i: nat)
    requires k < |live| && i != k && t != s && Holds(live, subs, dict, t, i)
    ensures Holds(live[..k] + live[k + 1..], subs - {s}, dict - {s}, t, if i < k then i else i - 1)
  {
  }

  lemma UnsubscribedRefines<H>(live: seq<Live<H>>, subs: map<Slot, nat>, dict: map<Slot, H>, next: nat, s: Slot, k: nat)
    requires Refines(live, subs, dict, next) && Holds(live, subs, dict, s, k)
    ensures Refines(live[..k] + live[k + 1..], subs - {s}, dict - {s}, next)
  {
    hide Key, InOrder;
    var live', subs', dict' := live[..k] + live[k + 1..], subs - {s}, dict - {s};
    RemovedInOrder(live, next, k);
    forall t | t in subs' ensures Served(live', subs', dict', t) {
      assert Served(live, subs, dict, t);
      var i: nat :| Holds(live, subs, dict, t, i);
      assert i != k;
      Moved(live, subs, dict, s, k, t, i);
    }
    forall i: nat | i < |live'| ensures Wanted(live', subs', dict', i) {
      var j := if i < k then i else i + 1;
      assert Wanted(live, subs, dict, j);
      var t :| Holds(live, subs, dict, t, j);
      SameIdSamePlace(live, next, j, k);
      Moved(live, subs, dict, s, k, t, j);
    }
  }

  // ---- the program's objects --------------------------------------------------------------------

  class EventBus<H> {
    var live: seq<Live<H>>
    var next: nat

    constructor ()
      ensures live == [] && next == 0
    {
      live, next := [], 0;
    }

    method Subscribe(key: string, handler: H) returns (id: nat)
      modifies this
      ensures id == old(next) && next == old(next) + 1 && live == old(live) + [Live(id, key, handler)]
    {
      id := next;
      live := live + [Live(id, key, handler)];
      next := next + 1;
    }

    method Unsubscribe(id: nat, ghost k: nat)
      requires InOrder(live, next) && k < |live| && live[k].id == id
      modifies this`live
      ensures live == old(live)[..k] + old(live)[k + 1..]
    {
      forall i: nat | i < |live| && i != k ensures live[i].id != id { SameIdSamePlace(live, next, i, k); }
      var i: nat := 0;
      while live[i].id != id
        invariant i <= k && live == old(live)
        decreases k - i
      {
        assert i != k;
        i := i + 1;
      }
      live := live[..i] + live[i + 1..];
    }
  }

  class WsRoutingTable<H> {
    const bus: EventBus<H>
    var subscriptions: map<Slot, nat>
    /** The dict the table stands for. */
    ghost var dict: map<Slot, H>

    ghost predicate Valid()
      reads this, bus
    {
      Refines(bus.live, subscriptions, dict, bus.next)
    }

    constructor ()
      ensures Valid() && dict == map[]
    {
      bus := new EventBus();
      subscriptions, dict := map[], map[];
    }

    method Unsubscribe(channel: string, pair: Option<string>)
      requires Valid()
      modifies this, bus
      ensures Valid() && dict == old(dict) - {Slot(channel, pair)}
    {
      hide Key;
      var slot := Slot(channel, pair);
      if slot in subscriptions {
        var sub := subscriptions[slot];
        assert Served(bus.live, subscriptions, dict, slot);
        ghost var k: nat :| Holds(bus.live, subscriptions, dict, slot, k);
        UnsubscribedRefines(bus.live, subscriptions, dict, bus.next, slot, k);
        subscriptions := subscriptions - {slot};
        bus.Unsubscribe(sub, k);
      } else {
        assert dict - {slot} == dict;
      }
      dict := dict - {slot};
    }

    method Subscribe(channel: string, pair: Option<string>, handler: H)
      requires Valid()
      modifies this, bus
      ensures Valid() && dict == old(dict)[Slot(channel, pair) := handler]
    {
      hide Key, Refines;
      var slot := Slot(channel, pair);
      Unsubscribe(channel, pair);
      SubscribedRefines(bus.live, subscriptions, dict, bus.next, slot, handler);
      var sub := bus.Subscribe(Key(slot), handler);
      subscriptions := subscriptions[slot := sub];
      dict := dict[slot := handler];
      assert dict == old(dict)[slot := handler];
    }

    /** route; `reached` lists the handlers that got the payload. */
    method Route(channel: string, pair: Option<string>) returns (found: bool, reached: seq<H>)
      requires Valid()
      ensures found <==> Pick(dict, Slot(channel, pair)).Some?
      ensures !found ==> reached == []
      ensures found ==> var target := Target(dict, Slot(channel, pair)).value;
        && reached == Deliveries(bus.live, Key(target))
        && (reached == [Pick(dict, Slot(channel, pair)).value] <==> Unshared(dict, target))
      ensures found && (forall t :: t in dict ==> PlainSlot(t)) ==> reached == [Pick(dict, Slot(channel, pair)).value]
    {
      hide Key, PlainSlot, Unshared;
      var slot := Slot(channel, pair);
      if Target(dict, slot).Some? { RoutesAsDictExactly(bus.live, subscriptions, dict, bus.next, slot); }
      if Target(dict, slot).Some? && forall t :: t in dict ==> PlainSlot(t) {
        PlainIsUnshared(dict, Target(dict, slot).value);
      }
      if pair.Some? && slot in subscriptions {
        return true, Deliveries(bus.live, Key(slot));
      }
      var wide := Slot(channel, None);
      if wide in subscriptions {
        return true, Deliveries(bus.live, Key(wide));
      }
      return false, [];
    }

    method Clear()
      requires Valid()
      modifies this, bus
      ensures Valid() && dict == map[] && subscriptions == map[] && bus.live == []
    {
      hide Key;
      var slots := subscriptions.Keys;
      while slots != {}
        invariant Valid() && subscriptions.Keys == slots
        decreases |slots|
      {
        var slot :| slot in slots;
        Unsubscribe(slot.channel, slot.pair);
        slots := slots - {slot};
      }
      assert |bus.live| > 0 ==> Wanted(bus.live, subscriptions, dict, 0);
    }
  }
}
