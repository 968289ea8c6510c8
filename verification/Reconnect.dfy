/**
  Connecting and reconnecting: connect() with its bounded retries, the reconnect supervisor with its
  backoff, disconnect() cancelling it, and the handlers on IB's events, as one state machine whose
  steps are the stretches between awaits.
*/
module Reconnect {
  import opened Prelude

  /** The part of IbConnectionSpec that matters here, as its constructor admits it. */
  datatype Spec = Spec(initial: real, max: real, attempts: nat)

  predicate SpecOk(spec: Spec) { 0.0 < spec.initial <= spec.max && spec.attempts >= 1 }

  // ---- backoff --------------------------------------------------------------------------------

  function Min(a: real, b: real): real { if a <= b then a else b }

  function Pow2(k: nat): real { if k == 0 then 1.0 else 2.0 * Pow2(k - 1) }

  /** The k-th delay in closed form. */
  function Backoff(spec: Spec, k: nat): real { Min(spec.initial * Pow2(k), spec.max) }

  lemma {:induction false} BackoffNext(spec: Spec, k: nat)
    requires SpecOk(spec)
    ensures Backoff(spec, 0) == spec.initial
    ensures Min(Backoff(spec, k) * 2.0, spec.max) == Backoff(spec, k + 1)
  {
    assert Pow2(k + 1) == 2.0 * Pow2(k);
    assert spec.initial * Pow2(k + 1) == (spec.initial * Pow2(k)) * 2.0;
  }

  /** The delays never decrease and never exceed the maximum. */
  lemma {:induction false} BackoffRises(spec: Spec, j: nat, k: nat)
    requires SpecOk(spec) && j <= k
    ensures 0.0 < spec.initial <= Backoff(spec, j) <= Backoff(spec, k) <= spec.max
    decreases k
  {
    if j < k {
      BackoffRises(spec, j, k - 1);
      BackoffNext(spec, k - 1);
    } else if k > 0 {
      BackoffRises(spec, k - 1, k - 1);
      BackoffNext(spec, k - 1);
    }
  }

  /** What one run of the connect sequence ends with. */
  datatype Attempt = Success | Timeout | Fatal

  function Retried(outcomes: seq<Attempt>): (n: nat)
    ensures n <= |outcomes|
    ensures forall k :: 0 <= k < n ==> outcomes[k] == Timeout
    ensures n < |outcomes| ==> outcomes[n] != Timeout
  {
    if outcomes == [] || outcomes[0] != Timeout then 0
    else
      var n := Retried(outcomes[1..]);
      assert forall k :: 1 <= k < n + 1 ==> outcomes[k] == outcomes[1..][k - 1];
      n + 1
  }

  /**
    The loop of connect(): outcomes[k] is how try number k+1 would end. It stops at the first try
    that does not time out, after at most `attempts` tries, and sleeps once between two tries, for the
    backoff delay.
  */
  method ConnectLoop(spec: Spec, outcomes: seq<Attempt>) returns (tries: nat, slept: seq<real>, last: Attempt)
    requires SpecOk(spec) && |outcomes| == spec.attempts
    ensures 1 <= tries <= spec.attempts && last == outcomes[tries - 1]
    ensures tries == if Retried(outcomes) < spec.attempts then Retried(outcomes) + 1 else spec.attempts
    ensures |slept| == tries - 1 && forall k :: 0 <= k < |slept| ==> slept[k] == Backoff(spec, k)
  {
    var delay := spec.initial;
    BackoffNext(spec, 0);
    slept := [];
    tries := 1;
    while true
      invariant 1 <= tries <= spec.attempts && |slept| == tries - 1
      invariant delay == Backoff(spec, tries - 1)
      invariant forall k :: 0 <= k < |slept| ==> slept[k] == Backoff(spec, k)
      invariant forall k :: 0 <= k < tries - 1 ==> outcomes[k] == Timeout
      decreases spec.attempts - tries
    {
      last := outcomes[tries - 1];
      if last == Success { return; }
      if last != Timeout || tries >= spec.attempts { return; }
      BackoffNext(spec, tries - 1);
      slept := slept + [delay];
      delay := Min(delay * 2.0, spec.max);
      tries := tries + 1;
    }
  }

  // ---- state ----------------------------------------------------------------------------------

  datatype Phase = Sleeping | Opening | Syncing | Done

  /** A supervisor task: where it is, its next delay, and what it has slept so far. */
  datatype Task = Task(phase: Phase, delay: real, slept: seq<real>)

  datatype IbEvent = ErrorEvent | DisconnectedEvent | ExecDetailsEvent | CommissionReportEvent

  /**
    `hooks` counts the transport's handlers on each IB event; `calls` holds the calls of connect() that
    are running, which may overlap; `waiting` the supervisors disconnect() awaits.
  */
  datatype State = State(
    closing: bool,
    connecting: bool,
    supervisor: Option<nat>,
    attached: bool,
    hooks: IbEvent -> int,
    tasks: map<nat, Task>,
    calls: map<nat, Phase>,
    waiting: set<nat>)

  function Start(): State { State(false, false, None, false, _ => 0, map[], map[], {}) }

  datatype Event =
    | Connect(call: nat)
    | CallOpened(call: nat)
    | CallFails(call: nat, retry: bool)
    | CallWakes(call: nat)
    | CallSynced(call: nat)
    | Dropped(id: nat)
    | Wakes(id: nat)
    | Opened(id: nat)
    | Fails(id: nat, config: bool)
    | Synced(id: nat)
    | Cancelled(id: nat)
    | Disconnect
    | Disconnected(id: nat)

  ghost predicate InPhase(s: State, id: nat, phase: Phase) { id in s.tasks && s.tasks[id].phase == phase }

  ghost predicate Calls(s: State, c: nat, phase: Phase) { c in s.calls && s.calls[c] == phase }

  /**
    A configuration or version error shows while the connection is being opened. A call of connect() may
    be cancelled at any of its awaits, its backoff sleep included.
  */
  ghost predicate Enabled(s: State, e: Event) {
    match e
    case Connect(c) => c !in s.calls
    case CallOpened(c) => Calls(s, c, Opening)
    case CallFails(c, retry) => Calls(s, c, Opening) || Calls(s, c, Syncing) || (Calls(s, c, Sleeping) && !retry)
    case CallWakes(c) => Calls(s, c, Sleeping)
    case CallSynced(c) => Calls(s, c, Syncing)
    case Dropped(id) => s.hooks(DisconnectedEvent) > 0 && id !in s.tasks
    case Wakes(id) => InPhase(s, id, Sleeping)
    case Opened(id) => InPhase(s, id, Opening)
    case Fails(id, config) => InPhase(s, id, Opening) || (InPhase(s, id, Syncing) && !config)
    case Synced(id) => InPhase(s, id, Syncing)
    case Cancelled(id) => id in s.waiting && id in s.tasks && s.tasks[id].phase != Done
    case Disconnect => true
    case Disconnected(id) => id in s.waiting && InPhase(s, id, Done)
  }

  function Attach(s: State): State {
    var hooks := s.hooks;
    if s.attached then s else s.(attached := true, hooks := e => hooks(e) + 1)
  }

  function Detach(s: State): State {
    var hooks := s.hooks;
    if !s.attached then s else s.(attached := false, hooks := e => hooks(e) - 1)
  }

  predicate Running(s: State) { s.supervisor.Some? && s.supervisor.value in s.tasks && s.tasks[s.supervisor.value].phase != Done }

  /** _on_disconnected; `id` is the identity a new supervisor task would have. */
  function OnDisconnected(s: State, spec: Spec, id: nat): State {
    if s.closing || s.connecting || Running(s) then s
    else s.(supervisor := Some(id), tasks := s.tasks[id := Task(Sleeping, spec.initial, [])])
  }

  function Move(s: State, id: nat, phase: Phase): State
    requires id in s.tasks
  {
    s.(tasks := s.tasks[id := s.tasks[id].(phase := phase)])
  }

  function Again(s: State, spec: Spec, id: nat): State
    requires id in s.tasks
  {
    s.(tasks := s.tasks[id := s.tasks[id].(phase := Sleeping, delay := Min(s.tasks[id].delay * 2.0, spec.max))])
  }

  function WakeUp(s: State, id: nat): State
    requires id in s.tasks
  {
    var t := s.tasks[id];
    s.(tasks := s.tasks[id := t.(phase := Opening, slept := t.slept + [t.delay])])
  }

  function Step(s: State, spec: Spec, e: Event): State
    requires Enabled(s, e)
  {
    match e
    case Connect(c) => s.(closing := false, connecting := true, calls := s.calls[c := Opening])
    case CallOpened(c) => Attach(s).(calls := s.calls[c := Syncing])
    case CallFails(c, retry) =>
      var t := if s.calls[c] == Syncing then Detach(s) else s;
      if retry then t.(calls := s.calls[c := Sleeping]) else t.(calls := s.calls - {c}, connecting := false)
    case CallWakes(c) => s.(calls := s.calls[c := Opening])
    case CallSynced(c) => s.(calls := s.calls - {c}, connecting := false)
    case Dropped(id) => OnDisconnected(s, spec, id)
    case Wakes(id) => WakeUp(s, id)
    case Opened(id) => Move(Attach(s), id, Syncing)
    case Fails(id, config) =>
      var t := if s.tasks[id].phase == Syncing then Detach(s) else s;
      if config then Move(t, id, Done) else Again(t, spec, id)
    case Synced(id) => Move(s, id, Done)
    case Cancelled(id) =>
      var t := if s.tasks[id].phase == Syncing then Detach(s) else s;
      Move(t, id, Done)
    case Disconnect =>
      if Running(s) then s.(closing := true, supervisor := None, waiting := s.waiting + {s.supervisor.value})
      else Detach(s.(closing := true, supervisor := None))
    case Disconnected(id) => Detach(s.(waiting := s.waiting - {id}))
  }

  ghost predicate IsRun(spec: Spec, states: seq<State>, events: seq<Event>) {
    && |states| == |events| + 1
    && states[0] == Start()
    && forall i :: 0 <= i < |events| ==> Enabled(states[i], events[i]) && states[i + 1] == Step(states[i], spec, events[i])
  }

  /** connect() is not called while disconnect() still awaits a cancelled supervisor. */
  ghost predicate NoConnectDuringDisconnect(s: State, e: Event) {
    e.Connect? ==> forall id :: id in s.waiting && id in s.tasks ==> s.tasks[id].phase == Done
  }

  // ---- invariants -----------------------------------------------------------------------------

  /** Every IB event carries each of the transport's handlers once while attached, otherwise not at all. */
  ghost predicate HooksOk(s: State) {
    forall e :: s.hooks(e) == if s.attached then 1 else 0
  }

  lemma HooksKept(s: State, spec: Spec, e: Event)
    requires HooksOk(s) && Enabled(s, e)
    ensures HooksOk(Step(s, spec, e))
  {
  }

  ghost predicate Unfinished(s: State, id: nat) { id in s.tasks && s.tasks[id].phase != Done }

  /** An unfinished supervisor is the current one or one that disconnect() awaits; the latter only while closing. */
  ghost predicate OneSupervisor(s: State) {
    && s.waiting <= s.tasks.Keys
    && (forall id: nat :: Unfinished(s, id) ==> s.supervisor == Some(id) || id in s.waiting)
    && (forall id: nat :: Unfinished(s, id) && id in s.waiting ==> s.closing && s.supervisor != Some(id))
    && (forall id: nat, jd: nat :: Unfinished(s, id) && Unfinished(s, jd) ==> id == jd)
  }

  lemma SupervisorKept(s: State, spec: Spec, e: Event)
    requires OneSupervisor(s) && Enabled(s, e) && NoConnectDuringDisconnect(s, e)
    ensures OneSupervisor(Step(s, spec, e))
  {
    hide Min, OneSupervisor;
    match e
    case Dropped(id) => DroppedKeeps(s, spec, id);
    case Connect(c) => ConnectKeeps(s, spec, c);
    case Disconnect => DisconnectKeeps(s, spec);
    case Disconnected(id) => SameTasks(s, Step(s, spec, e));
    case Wakes(id) => OneMoves(s, Step(s, spec, e), id);
    case Opened(id) => OneMoves(s, Step(s, spec, e), id);
    case Fails(id, _) => OneMoves(s, Step(s, spec, e), id);
    case Synced(id) => OneMoves(s, Step(s, spec, e), id);
    case Cancelled(id) => OneMoves(s, Step(s, spec, e), id);
    case _ => SameTasks(s, Step(s, spec, e));
  }

  /** Nothing but a task that is finished leaves the waiting set. */
  lemma SameTasks(s: State, t: State)
    requires OneSupervisor(s) && t.tasks == s.tasks && t.supervisor == s.supervisor && t.closing == s.closing
    requires t.waiting <= s.waiting && forall id: nat :: id in s.waiting && id !in t.waiting ==> !Unfinished(s, id)
    ensures OneSupervisor(t)
  {
    forall id: nat ensures Unfinished(t, id) <==> Unfinished(s, id) {}
  }

  lemma OneMoves(s: State, t: State, id: nat)
    requires OneSupervisor(s) && Unfinished(s, id) && id in t.tasks && t.tasks == s.tasks[id := t.tasks[id]]
    requires t.supervisor == s.supervisor && t.closing == s.closing && t.waiting == s.waiting
    ensures OneSupervisor(t)
  {
    forall jd: nat ensures Unfinished(t, jd) ==> Unfinished(s, jd) {}
  }

  lemma DroppedKeeps(s: State, spec: Spec, id: nat)
    requires OneSupervisor(s) && Enabled(s, Dropped(id))
    ensures OneSupervisor(OnDisconnected(s, spec, id))
  {
    var t := OnDisconnected(s, spec, id);
    if !s.closing && !s.connecting && !Running(s) {
      forall jd: nat ensures !Unfinished(s, jd) { assert Unfinished(s, jd) ==> s.supervisor == Some(jd) || jd in s.waiting; }
      forall jd: nat ensures Unfinished(t, jd) ==> jd == id {
        assert Unfinished(t, jd) && jd != id ==> Unfinished(s, jd);
      }
    }
  }

  lemma ConnectKeeps(s: State, spec: Spec, c: nat)
    requires OneSupervisor(s) && Enabled(s, Connect(c)) && NoConnectDuringDisconnect(s, Connect(c))
    ensures OneSupervisor(Step(s, spec, Connect(c)))
  {
    var t := Step(s, spec, Connect(c));
    forall id: nat ensures Unfinished(t, id) <==> Unfinished(s, id) {}
    forall id: nat | id in s.waiting ensures !Unfinished(s, id) {}
  }

  lemma DisconnectKeeps(s: State, spec: Spec)
    requires OneSupervisor(s)
    ensures OneSupervisor(Step(s, spec, Disconnect))
  {
    var t := Step(s, spec, Disconnect);
    forall id: nat ensures Unfinished(t, id) <==> Unfinished(s, id) {}
  }

  // ---- supervisors' delays --------------------------------------------------------------------

  /** A supervisor has slept the first delays of the backoff, in order, and its next delay is the next one. */
  ghost predicate DelaysOk(spec: Spec, t: Task) {
    && (forall k :: 0 <= k < |t.slept| ==> t.slept[k] == Backoff(spec, k))
    && (t.phase == Sleeping ==> t.delay == Backoff(spec, |t.slept|))
    && (t.phase == Opening || t.phase == Syncing ==> |t.slept| > 0 && t.delay == Backoff(spec, |t.slept| - 1))
  }

  ghost predicate AllDelaysOk(spec: Spec, s: State) {
    forall id :: id in s.tasks ==> DelaysOk(spec, s.tasks[id])
  }

  lemma TaskDelays(spec: Spec, t: Task)
    requires SpecOk(spec) && DelaysOk(spec, t)
    ensures DelaysOk(spec, t.(phase := Done))
    ensures t.phase == Sleeping ==> DelaysOk(spec, t.(phase := Opening, slept := t.slept + [t.delay]))
    ensures t.phase == Opening ==> DelaysOk(spec, t.(phase := Syncing))
    ensures t.phase == Opening || t.phase == Syncing ==>
      DelaysOk(spec, t.(phase := Sleeping, delay := Min(t.delay * 2.0, spec.max)))
    ensures DelaysOk(spec, Task(Sleeping, spec.initial, []))
  {
    hide Min, Backoff;
    BackoffNext(spec, if |t.slept| > 0 then |t.slept| - 1 else 0);
  }

  lemma DelaysKept(s: State, spec: Spec, e: Event)
    requires SpecOk(spec) && AllDelaysOk(spec, s) && Enabled(s, e)
    ensures AllDelaysOk(spec, Step(s, spec, e))
  {
    hide Min, Backoff, DelaysOk;
    forall id | id in s.tasks ensures DelaysOk(spec, s.tasks[id].(phase := Done)) { TaskDelays(spec, s.tasks[id]); }
    match e
    case Dropped(id) => NewTaskDelays(spec);
    case Wakes(id) => TaskDelays(spec, s.tasks[id]);
    case Opened(id) => TaskDelays(spec, s.tasks[id]);
    case Fails(id, _) => TaskDelays(spec, s.tasks[id]);
    case _ =>
  }

  lemma NewTaskDelays(spec: Spec)
    requires SpecOk(spec)
    ensures DelaysOk(spec, Task(Sleeping, spec.initial, []))
  {
    BackoffNext(spec, 0);
  }

  // ---- when the handlers are attached -----------------------------------------------------------

  /** A call of connect() or a supervisor gets its socket open. */
  predicate SocketOpens(e: Event) { e.CallOpened? || e.Opened? }

  /** One that was syncing fails or is cancelled, or a disconnect() comes to its end. */
  ghost predicate HandlersGo(s: State, e: Event) {
    match e
    case CallFails(c, _) => Calls(s, c, Syncing)
    case Fails(id, _) => InPhase(s, id, Syncing)
    case Cancelled(id) => InPhase(s, id, Syncing)
    case Disconnect => !Running(s)
    case Disconnected(_) => true
    case _ => false
  }

  lemma StepAttaches(s: State, spec: Spec, e: Event)
    requires Enabled(s, e)
    ensures Step(s, spec, e).attached <==> SocketOpens(e) || (s.attached && !HandlersGo(s, e))
  {
    hide Min;
  }

  /** The socket was opened at some step, and no handler has gone since. */
  ghost predicate Established(states: seq<State>, events: seq<Event>, i: nat)
    requires i <= |events| && i <= |states|
  {
    exists j :: 0 <= j < i && SocketOpens(events[j]) && forall m :: j < m < i ==> !HandlersGo(states[m], events[m])
  }

  /**
    In every run: IB's events carry the transport's handlers, each once, exactly when a socket was opened
    and since then nothing that was syncing failed or was cancelled and no disconnect() came to its end;
    otherwise they carry none.
  */
  lemma {:induction false} AttachedExactly(spec: Spec, states: seq<State>, events: seq<Event>, i: nat)
    requires IsRun(spec, states, events) && i < |states|
    ensures states[i].attached <==> Established(states, events, i)
    ensures forall e :: states[i].hooks(e) == if Established(states, events, i) then 1 else 0
  {
    hide Step, Enabled, HandlersGo, SocketOpens;
    if i > 0 {
      AttachedExactly(spec, states, events, i - 1);
      StepAttaches(states[i - 1], spec, events[i - 1]);
      if Established(states, events, i - 1) && !HandlersGo(states[i - 1], events[i - 1]) {
        assert Established(states, events, i);
      }
      HooksFollow(spec, states, events, i);
    }
  }

  lemma {:induction false} HooksFollow(spec: Spec, states: seq<State>, events: seq<Event>, i: nat)
    requires IsRun(spec, states, events) && i < |states|
    ensures HooksOk(states[i])
  {
    hide Step, Enabled;
    if i > 0 {
      HooksFollow(spec, states, events, i - 1);
      HooksKept(states[i - 1], spec, events[i - 1]);
    } else {
      StartOk(spec);
    }
  }

  /** No event carries a handler of the transport, so no lost connection reaches it. */
  ghost predicate Deaf(s: State) { (forall e :: s.hooks(e) == 0) && forall id :: !Enabled(s, Dropped(id)) }

  /** A call that fails or is cancelled while it syncs leaves no handler, and nothing that could start a supervisor. */
  lemma FailedSyncLeavesNothing(spec: Spec, states: seq<State>, events: seq<Event>, i: nat)
    requires IsRun(spec, states, events) && i < |events| && events[i].CallFails?
    requires Calls(states[i], events[i].call, Syncing) || !Established(states, events, i)
    ensures Deaf(states[i + 1])
  {
    hide Step, HandlersGo, Established;
    AttachedExactly(spec, states, events, i);
    StepAttaches(states[i], spec, events[i]);
    assert !states[i + 1].attached by { GoesOff(states[i], events[i]); }
    HooksFollow(spec, states, events, i + 1);
  }

  lemma GoesOff(s: State, e: Event)
    requires e.CallFails?
    ensures HandlersGo(s, e) <==> Calls(s, e.call, Syncing)
    ensures !SocketOpens(e)
  {
  }

  /** Of call c only, with connections lost at any moment. */
  predicate OfFirstCall(e: Event, c: nat) {
    match e
    case Connect(d) => d == c
    case CallOpened(d) => d == c
    case CallFails(d, _) => d == c
    case CallWakes(d) => d == c
    case Dropped(_) => true
    case _ => false
  }

  /** connect() that fails, after however many tries, leaves no handler, no supervisor and no way to start one. */
  lemma {:induction false} FailedConnectLeavesNothing(spec: Spec, states: seq<State>, events: seq<Event>, i: nat, c: nat)
    requires IsRun(spec, states, events) && i <= |events| && forall m :: 0 <= m < i ==> OfFirstCall(events[m], c)
    ensures states[i].tasks == map[] && states[i].supervisor.None? && (states[i].attached <==> Calls(states[i], c, Syncing))
    ensures forall d :: d in states[i].calls ==> d == c && states[i].connecting
    ensures i > 0 && events[i - 1].CallFails? ==> Deaf(states[i])
  {
    hide Deaf;
    if i > 0 {
      FailedConnectLeavesNothing(spec, states, events, i - 1, c);
      var s, e := states[i - 1], events[i - 1];
      assert Enabled(s, e) && states[i] == Step(s, spec, e) && OfFirstCall(e, c);
      HooksFollow(spec, states, events, i - 1);
      HooksFollow(spec, states, events, i);
      if e.CallFails? { DeafWhenDetached(states[i]); }
    }
  }

  lemma DeafWhenDetached(s: State)
    requires HooksOk(s) && !s.attached
    ensures Deaf(s)
  {
  }

  // ---- when supervisors and calls end -----------------------------------------------------------

  /** A supervisor ends exactly by succeeding, by a configuration error, or by being cancelled; nothing wakes it up again. */
  lemma SupervisorEndsExactly(s: State, spec: Spec, e: Event, id: nat)
    requires Enabled(s, e) && Unfinished(s, id)
    ensures !Unfinished(Step(s, spec, e), id) <==> e == Synced(id) || e == Fails(id, true) || e == Cancelled(id)
    ensures InPhase(Step(s, spec, e), id, Sleeping) <==>
      e == Fails(id, false) || (InPhase(s, id, Sleeping) && e != Wakes(id) && e != Cancelled(id))
    ensures InPhase(Step(s, spec, e), id, Syncing) <==>
      e == Opened(id) || (InPhase(s, id, Syncing) && Unfinished(Step(s, spec, e), id) && e != Fails(id, false))
  {
    hide Min;
  }

  lemma FinishedStays(s: State, spec: Spec, e: Event, id: nat)
    requires Enabled(s, e) && id in s.tasks && !Unfinished(s, id)
    ensures id in Step(s, spec, e).tasks && !Unfinished(Step(s, spec, e), id)
  {
    hide Min;
  }

  /** disconnect() has been called since the last connect(). */
  function Shut(events: seq<Event>): bool {
    if events == [] then false
    else
      var last := events[|events| - 1];
      if last.Disconnect? then true else if last.Connect? then false else Shut(events[..|events| - 1])
  }

  lemma {:induction false} ClosingExactly(spec: Spec, states: seq<State>, events: seq<Event>, i: nat)
    requires IsRun(spec, states, events) && i < |states|
    ensures states[i].closing <==> Shut(events[..i])
  {
    hide Enabled, Running;
    if i > 0 {
      ClosingExactly(spec, states, events, i - 1);
      assert events[..i][..i - 1] == events[..i - 1] && events[..i][i - 1] == events[i - 1];
      StepCloses(states[i - 1], spec, events[i - 1]);
    }
  }

  lemma StepCloses(s: State, spec: Spec, e: Event)
    requires Enabled(s, e)
    ensures Step(s, spec, e).closing <==> e.Disconnect? || (s.closing && !e.Connect?)
  {
    hide Min;
  }

  // ---- connect()'s own flag -------------------------------------------------------------------

  /** At most one call of connect() is running, and the flag is up exactly while one is. */
  ghost predicate CallOk(s: State) {
    && (forall c, d :: c in s.calls && d in s.calls ==> c == d)
    && (s.connecting <==> s.calls != map[])
  }

  /** connect() is not called while another call of it is running. */
  ghost predicate NoOverlap(s: State, e: Event) { e.Connect? ==> s.calls == map[] }

  lemma CallKept(s: State, spec: Spec, e: Event)
    requires CallOk(s) && Enabled(s, e) && NoOverlap(s, e)
    ensures CallOk(Step(s, spec, e))
  {
    hide Min;
    if e.Connect? || e.CallOpened? || e.CallFails? || e.CallWakes? || e.CallSynced? {
      assert e.call in Step(s, spec, e).calls || Step(s, spec, e).calls == map[];
    }
  }

  /** A call of connect() ends. */
  predicate Ends(e: Event) { e.CallSynced? || (e.CallFails? && !e.retry) }

  /** A call of connect() began and none has ended since. */
  ghost predicate Raised(events: seq<Event>, i: nat)
    requires i <= |events|
  {
    exists j :: 0 <= j < i && events[j].Connect? && forall m :: j < m < i ==> !Ends(events[m])
  }

  lemma StepFlag(s: State, spec: Spec, e: Event)
    requires Enabled(s, e)
    ensures Step(s, spec, e).connecting <==> e.Connect? || (s.connecting && !Ends(e))
  {
  }

  /** In every run, overlapping calls included, the flag is up exactly when a call began and none has ended since. */
  lemma {:induction false} FlagUpExactly(spec: Spec, states: seq<State>, events: seq<Event>, i: nat)
    requires IsRun(spec, states, events) && i < |states|
    ensures states[i].connecting <==> Raised(events, i)
  {
    hide Step, Enabled, Ends;
    if i > 0 {
      FlagUpExactly(spec, states, events, i - 1);
      StepFlag(states[i - 1], spec, events[i - 1]);
      if Raised(events, i - 1) && !Ends(events[i - 1]) { assert Raised(events, i); }
    }
  }

  /**
    When a lost connection starts a supervisor, exactly, whatever calls of connect() are running: disconnect()
    has not closed since the last connect(), no supervisor is running, and some call ended after the last one began.
  */
  lemma DroppedStartsExactly(spec: Spec, states: seq<State>, events: seq<Event>, i: nat)
    requires IsRun(spec, states, events) && i < |events| && events[i].Dropped?
    ensures Unfinished(states[i + 1], events[i].id) <==>
      !Shut(events[..i]) && !Running(states[i]) && !Raised(events, i)
    ensures !Unfinished(states[i + 1], events[i].id) ==> states[i + 1] == states[i]
  {
    hide Raised, Running, Shut;
    FlagUpExactly(spec, states, events, i);
    ClosingExactly(spec, states, events, i);
    assert Enabled(states[i], events[i]) && states[i + 1] == Step(states[i], spec, events[i]);
  }

  /** So a failed attempt of a call starts no supervisor as long as no call ends after it began. */
  lemma NoSupervisorDuringConnect(spec: Spec, states: seq<State>, events: seq<Event>, j: nat, i: nat)
    requires IsRun(spec, states, events) && j < i < |events| && events[j].Connect? && events[i].Dropped?
    requires forall m :: j < m < i ==> !Ends(events[m])
    ensures states[i + 1] == states[i]
  {
    hide Step, Enabled, Ends, Unfinished;
    assert Raised(events, i);
    DroppedStartsExactly(spec, states, events, i);
  }

  /** With overlapping calls it fails: the first one ends, and a loss during the second starts a supervisor. */
  lemma OverlapStartsASupervisor(spec: Spec) returns (states: seq<State>, events: seq<Event>)
    ensures IsRun(spec, states, events)
    ensures events == [Connect(0), CallOpened(0), Connect(1), CallSynced(0), Dropped(0)]
    ensures 1 in states[5].calls && Unfinished(states[5], 0)
  {
    hide IsRun;
    events := [Connect(0), CallOpened(0), Connect(1), CallSynced(0), Dropped(0)];
    states := [Start()];
    assert IsRun(spec, states, []) by { StartIsRun(spec); }
    states := Extended(spec, states, [], Connect(0));
    states := Extended(spec, states, [Connect(0)], CallOpened(0));
    states := Extended(spec, states, [Connect(0), CallOpened(0)], Connect(1));
    states := Extended(spec, states, [Connect(0), CallOpened(0), Connect(1)], CallSynced(0));
    states := Extended(spec, states, [Connect(0), CallOpened(0), Connect(1), CallSynced(0)], Dropped(0));
    assert [Connect(0), CallOpened(0), Connect(1), CallSynced(0)] + [Dropped(0)] == events;
  }

  lemma Extended(spec: Spec, states: seq<State>, events: seq<Event>, e: Event) returns (states': seq<State>)
    requires IsRun(spec, states, events) && Enabled(states[|events|], e)
    ensures IsRun(spec, states', events + [e])
    ensures states' == states + [Step(states[|events|], spec, e)]
  {
    Extend(spec, states, events, states[|events|], e);
    states' := states + [Step(states[|events|], spec, e)];
  }

  /**
    Every run in which connect() is not called while disconnect() awaits a supervisor: at most one
    supervisor is unfinished. In every run whatever: the handlers are on each IB event at most once, and
    every supervisor sleeps initial, 2*initial, 4*initial, ... cut off at the maximum. Where calls of
    connect() do not overlap, the flag is up exactly while one runs.
  */
  lemma {:induction false} EveryRunHasOneSupervisor(spec: Spec, states: seq<State>, events: seq<Event>, i: nat)
    requires SpecOk(spec) && IsRun(spec, states, events) && i < |states|
    ensures HooksOk(states[i]) && AllDelaysOk(spec, states[i])
    ensures (forall j :: 0 <= j < i ==> NoOverlap(states[j], events[j])) ==> CallOk(states[i])
    ensures (forall j :: 0 <= j < i ==> NoConnectDuringDisconnect(states[j], events[j])) ==> OneSupervisor(states[i])
  {
    hide Step, Enabled, OneSupervisor, HooksOk, CallOk, AllDelaysOk, NoConnectDuringDisconnect, NoOverlap;
    if i == 0 {
      StartOk(spec);
    } else {
      EveryRunHasOneSupervisor(spec, states, events, i - 1);
      HooksKept(states[i - 1], spec, events[i - 1]);
      if forall j :: 0 <= j < i ==> NoOverlap(states[j], events[j]) {
        CallKept(states[i - 1], spec, events[i - 1]);
      }
      DelaysKept(states[i - 1], spec, events[i - 1]);
      if forall j :: 0 <= j < i ==> NoConnectDuringDisconnect(states[j], events[j]) {
        SupervisorKept(states[i - 1], spec, events[i - 1]);
      }
    }
  }

  lemma StartOk(spec: Spec)
    ensures OneSupervisor(Start()) && HooksOk(Start()) && CallOk(Start()) && AllDelaysOk(spec, Start())
  {
  }

  /** No delay of any supervisor, past or next, exceeds the maximum, and they never decrease. */
  lemma DelaysRise(spec: Spec, t: Task, j: nat, k: nat)
    requires SpecOk(spec) && DelaysOk(spec, t) && j <= k < |t.slept|
    ensures spec.initial <= t.slept[j] <= t.slept[k] <= spec.max
    ensures t.slept[0] == spec.initial
  {
    BackoffRises(spec, j, k);
    BackoffNext(spec, 0);
  }

  lemma Extend(spec: Spec, states: seq<State>, events: seq<Event>, s: State, e: Event)
    requires IsRun(spec, states, events) && states[|states| - 1] == s && Enabled(s, e)
    ensures IsRun(spec, states + [Step(s, spec, e)], events + [e])
  {
    hide Step, Enabled;
  }

  /** connect() succeeds and the connection is lost: supervisor 0 sleeps. */
  lemma LostConnection(spec: Spec) returns (states: seq<State>, events: seq<Event>, s: State)
    ensures IsRun(spec, states, events) && s == states[|states| - 1]
    ensures s.tasks == map[0 := Task(Sleeping, spec.initial, [])] && s.supervisor == Some(0) && s.waiting == {}
    ensures s.calls == map[] && s.attached && s.hooks(DisconnectedEvent) == 1
  {
    hide IsRun;
    var s0 := Start();
    assert IsRun(spec, [s0], []) by { StartIsRun(spec); }
    var s1 := Step(s0, spec, Connect(0));
    Extend(spec, [s0], [], s0, Connect(0));
    var s2 := Step(s1, spec, CallOpened(0));
    Extend(spec, [s0] + [s1], [] + [Connect(0)], s1, CallOpened(0));
    var s3 := Step(s2, spec, CallSynced(0));
    Extend(spec, [s0] + [s1] + [s2], [] + [Connect(0)] + [CallOpened(0)], s2, CallSynced(0));
    s := Step(s3, spec, Dropped(0));
    Extend(spec, [s0] + [s1] + [s2] + [s3], [] + [Connect(0)] + [CallOpened(0)] + [CallSynced(0)], s3, Dropped(0));
    states := [s0] + [s1] + [s2] + [s3] + [s];
    events := [] + [Connect(0)] + [CallOpened(0)] + [CallSynced(0)] + [Dropped(0)];
  }

  lemma StartIsRun(spec: Spec)
    ensures IsRun(spec, [Start()], [])
  {
  }

  /**
    Without the hypothesis the claim is false: connect() during the disconnect() that awaits a
    supervisor clears the closing flag, and the next lost connection starts a second supervisor.
  */
  lemma ConnectDuringDisconnectStartsASecond(spec: Spec) returns (states: seq<State>, events: seq<Event>)
    ensures IsRun(spec, states, events)
    ensures var last := states[|states| - 1]; Unfinished(last, 0) && Unfinished(last, 1)
  {
    hide IsRun;
    var before, sofar, s4 := LostConnection(spec);
    var s5 := Step(s4, spec, Disconnect);
    Extend(spec, before, sofar, s4, Disconnect);
    var s6 := Step(s5, spec, Connect(1));
    Extend(spec, before + [s5], sofar + [Disconnect], s5, Connect(1));
    var s7 := Step(s6, spec, CallOpened(1));
    Extend(spec, before + [s5] + [s6], sofar + [Disconnect] + [Connect(1)], s6, CallOpened(1));
    var s8 := Step(s7, spec, CallSynced(1));
    Extend(spec, before + [s5] + [s6] + [s7], sofar + [Disconnect] + [Connect(1)] + [CallOpened(1)], s7, CallSynced(1));
    var s9 := Step(s8, spec, Dropped(1));
    Extend(spec, before + [s5] + [s6] + [s7] + [s8],
           sofar + [Disconnect] + [Connect(1)] + [CallOpened(1)] + [CallSynced(1)], s8, Dropped(1));
    states := before + [s5] + [s6] + [s7] + [s8] + [s9];
    events := sofar + [Disconnect] + [Connect(1)] + [CallOpened(1)] + [CallSynced(1)] + [Dropped(1)];
  }

  ghost predicate AtMostOne(s: State) {
    forall id: nat, jd: nat :: Unfinished(s, id) && Unfinished(s, jd) ==> id == jd
  }

  /** connect() is called, succeeds at once, and then the connection is lost; `made` is the new task's identity. */
  function ConnectThenLose(s: State, spec: Spec, made: nat): State {
    OnDisconnected(Attach(s.(closing := false)).(connecting := false), spec, made)
  }

  lemma ThoseAreSteps(s: State, spec: Spec, c: nat, made: nat)
    requires HooksOk(s) && Enabled(s, Connect(c)) && made !in s.tasks
    ensures var s1 := Step(s, spec, Connect(c));
      && Enabled(s1, CallOpened(c))
      && var s2 := Step(s1, spec, CallOpened(c));
      && Enabled(s2, CallSynced(c))
      && var s3 := Step(s2, spec, CallSynced(c));
      && Enabled(s3, Dropped(made)) && Step(s3, spec, Dropped(made)) == ConnectThenLose(s, spec, made)
  {
    assert s.calls[c := Opening][c := Syncing] - {c} == s.calls;
  }

  /**
    The hypothesis is exact, from every state of a run so far: a connect() that may be called now leads,
    by succeeding and then losing the connection, to two unfinished supervisors if and only if it was
    called while disconnect() awaits an unfinished one.
  */
  lemma SecondSupervisorExactly(s: State, spec: Spec, c: nat, made: nat)
    requires OneSupervisor(s) && HooksOk(s) && Enabled(s, Connect(c)) && made !in s.tasks
    ensures AtMostOne(ConnectThenLose(s, spec, made)) <==> NoConnectDuringDisconnect(s, Connect(c))
  {
    hide OneSupervisor, HooksOk, NoConnectDuringDisconnect, Step, Enabled, ConnectThenLose;
    ThoseAreSteps(s, spec, c, made);
    if NoConnectDuringDisconnect(s, Connect(c)) {
      var s1 := Step(s, spec, Connect(c));
      var s2 := Step(s1, spec, CallOpened(c));
      var s3 := Step(s2, spec, CallSynced(c));
      OtherStepsAreCalm(s1, CallOpened(c));
      OtherStepsAreCalm(s2, CallSynced(c));
      OtherStepsAreCalm(s3, Dropped(made));
      SupervisorKept(s, spec, Connect(c));
      SupervisorKept(s1, spec, CallOpened(c));
      SupervisorKept(s2, spec, CallSynced(c));
      SupervisorKept(s3, spec, Dropped(made));
      OneIsAtMostOne(ConnectThenLose(s, spec, made));
    } else {
      var id := AwaitedUnfinished(s, c);
      SecondStarts(s, spec, id, made);
    }
  }

  lemma OtherStepsAreCalm(s: State, e: Event)
    requires !e.Connect?
    ensures NoConnectDuringDisconnect(s, e)
  {
  }

  lemma OneIsAtMostOne(s: State)
    requires OneSupervisor(s)
    ensures AtMostOne(s)
  {
  }

  lemma AwaitedUnfinished(s: State, c: nat) returns (id: nat)
    requires !NoConnectDuringDisconnect(s, Connect(c))
    ensures id in s.waiting && Unfinished(s, id)
  {
    id :| id in s.waiting && id in s.tasks && s.tasks[id].phase != Done;
  }

  /** An awaited unfinished supervisor does not keep the next lost connection from starting another one. */
  lemma SecondStarts(s: State, spec: Spec, id: nat, made: nat)
    requires OneSupervisor(s) && id in s.waiting && Unfinished(s, id) && made !in s.tasks
    ensures var t := ConnectThenLose(s, spec, made); Unfinished(t, id) && Unfinished(t, made) && id != made
  {
    assert !Running(s) by { if Running(s) { assert Unfinished(s, s.supervisor.value); } }
  }

  // ---- the program's object -------------------------------------------------------------------

  /** IbGatewayTransport's connection flags and its handlers on IB's events. */
  class Connection {
    const spec: Spec
    var closing: bool
    var connecting: bool
    var attached: bool
    var supervisor: Option<nat>
    var errorHandlers: int
    var disconnectedHandlers: int
    var execDetailsHandlers: int
    var commissionHandlers: int
    ghost var world: State

    ghost predicate Valid()
      reads this
    {
      && closing == world.closing && connecting == world.connecting
      && attached == world.attached && supervisor == world.supervisor
      && errorHandlers == world.hooks(ErrorEvent) && disconnectedHandlers == world.hooks(DisconnectedEvent)
      && execDetailsHandlers == world.hooks(ExecDetailsEvent)
      && commissionHandlers == world.hooks(CommissionReportEvent)
    }

    constructor (spec: Spec)
      ensures Valid() && world == Start() && this.spec == spec
    {
      this.spec := spec;
      closing, connecting, attached, supervisor := false, false, false, None;
      errorHandlers, disconnectedHandlers, execDetailsHandlers, commissionHandlers := 0, 0, 0, 0;
      world := Start();
    }

    method AttachHandlers()
      requires Valid()
      modifies this
      ensures Valid() && world == Attach(old(world))
    {
      world := Attach(world);
      if attached { return; }
      errorHandlers := errorHandlers + 1;
      disconnectedHandlers := disconnectedHandlers + 1;
      execDetailsHandlers := execDetailsHandlers + 1;
      commissionHandlers := commissionHandlers + 1;
      attached := true;
    }

    method DetachHandlers()
      requires Valid()
      modifies this
      ensures Valid() && world == Detach(old(world))
    {
      world := Detach(world);
      if !attached { return; }
      errorHandlers := errorHandlers - 1;
      disconnectedHandlers := disconnectedHandlers - 1;
      execDetailsHandlers := execDetailsHandlers - 1;
      commissionHandlers := commissionHandlers - 1;
      attached := false;
    }

    /** The handler of IB's disconnected event; `done` is what supervisor.done() answers. */
    method HandleDisconnected(done: bool, id: nat) returns (started: bool)
      requires Valid() && Enabled(world, Dropped(id))
      requires supervisor.Some? ==> (done <==> !Running(world))
      modifies this
      ensures Valid() && world == Step(old(world), spec, Dropped(id))
      ensures started <==> world != old(world)
    {
      world := OnDisconnected(world, spec, id);
      if closing || connecting { return false; }
      if supervisor.Some? && !done { return false; }
      supervisor := Some(id);
      return true;
    }

    method BeginConnect(ghost call: nat)
      requires Valid() && Enabled(world, Connect(call))
      modifies this
      ensures Valid() && world == Step(old(world), spec, Connect(call))
    {
      world := Step(world, spec, Connect(call));
      closing := false;
      connecting := true;
    }

    /** disconnect() up to its await; true when there is a supervisor to wait for. */
    method BeginDisconnect(done: bool) returns (waits: bool)
      requires Valid()
      requires supervisor.Some? ==> (done <==> !Running(world))
      modifies this
      ensures Valid() && world == Step(old(world), spec, Disconnect)
      ensures waits <==> old(Running(world))
    {
      ghost var before := world;
      closing := true;
      waits := supervisor.Some? && !done;
      supervisor := None;
      if waits {
        world := Step(before, spec, Disconnect);
      } else {
        world := world.(closing := true, supervisor := None);
        DetachHandlers();
      }
    }

    /** disconnect() when the cancelled supervisor is finished. */
    method EndDisconnect(ghost id: nat)
      requires Valid() && Enabled(world, Disconnected(id))
      modifies this
      ensures Valid() && world == Step(old(world), spec, Disconnected(id))
    {
      world := world.(waiting := world.waiting - {id});
      DetachHandlers();
    }
  }
}
