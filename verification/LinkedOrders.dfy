/** Linked-order rollback: what place_bracket and place_oca do once every leg has a first status. */
module LinkedOrders {
  import opened Prelude

  datatype Handle = Handle(orderId: int, status: nat)

  datatype Rejection = Rejection(code: int, message: string, advanced: Option<string>)

  /** How awaiting one leg's first status ends. */
  datatype Result = Placed(handle: Handle) | Rejected(rejection: Rejection) | FailedOtherwise(error: nat)

  datatype Leg = Leg(orderId: int, result: Result)

  /** How cancelling one leg ends: quietly, with an Exception, or with the calling coroutine being cancelled. */
  datatype Cancelling = Quiet | Raises(error: nat) | Torn

  datatype Settled =
    | Handles(handles: seq<Handle>)
    | LinkedRejected(rejection: Rejection, handles: seq<Handle>, cancelErrors: map<int, nat>)
    | Reraised(result: Result)
    | Interrupted

  predicate AnyFailed(legs: seq<Leg>) { exists k :: 0 <= k < |legs| && !legs[k].result.Placed? }

  predicate AnyRejected(legs: seq<Leg>) { exists k :: 0 <= k < |legs| && legs[k].result.Rejected? }

  /** The handle that stands for a leg: its first status, or what was registered when it was submitted. */
  function HandleOf(leg: Leg, registry: map<int, Handle>): Handle
    requires leg.orderId in registry
  {
    if leg.result.Placed? then leg.result.handle else registry[leg.orderId]
  }

  /** Leg k is to be cancelled: it is not known to be rejected, and no earlier cancel tore the rollback. */
  predicate ToCancel(legs: seq<Leg>, cancels: seq<Cancelling>, k: nat)
    requires |cancels| == |legs|
  {
    && k < |legs| && !legs[k].result.Rejected?
    && forall j :: 0 <= j < k && !legs[j].result.Rejected? ==> !cancels[j].Torn?
  }

  predicate TornApart(legs: seq<Leg>, cancels: seq<Cancelling>)
    requires |cancels| == |legs|
  {
    exists k :: 0 <= k < |legs| && !legs[k].result.Rejected? && cancels[k].Torn?
  }

  ghost predicate Increasing(s: seq<nat>) { forall i, j :: 0 <= i < j < |s| ==> s[i] < s[j] }

  /** The order ids under which the handles go: a registered or placed handle carries its leg's id. */
  ghost predicate IdsMatch(legs: seq<Leg>, registry: map<int, Handle>) {
    forall k :: 0 <= k < |legs| ==>
      legs[k].orderId in registry && HandleOf(legs[k], registry).orderId == legs[k].orderId
  }

  /** cancel_errors after a whole rollback: of the legs sharing an id, the last failed cancel remains. */
  ghost predicate ErrorsAre(errors: map<int, nat>, legs: seq<Leg>, cancels: seq<Cancelling>, n: nat)
    requires |cancels| == |legs| && n <= |legs|
  {
    && (forall k :: 0 <= k < n && !legs[k].result.Rejected? && cancels[k].Raises? ==> legs[k].orderId in errors)
    && (forall id :: id in errors ==>
          exists k :: 0 <= k < n && LastRaise(legs, cancels, n, k, id) && errors[id] == cancels[k].error)
  }

  ghost predicate LastRaise(legs: seq<Leg>, cancels: seq<Cancelling>, n: nat, k: nat, id: int)
    requires |cancels| == |legs| && n <= |legs|
  {
    && k < n && legs[k].orderId == id && !legs[k].result.Rejected? && cancels[k].Raises?
    && forall j :: k < j < n && legs[j].orderId == id && !legs[j].result.Rejected? ==> !cancels[j].Raises?
  }

  lemma ErrorsNext(errors: map<int, nat>, legs: seq<Leg>, cancels: seq<Cancelling>, n: nat)
    requires |cancels| == |legs| && n < |legs| && ErrorsAre(errors, legs, cancels, n)
    ensures
      if !legs[n].result.Rejected? && cancels[n].Raises?
      then ErrorsAre(errors[legs[n].orderId := cancels[n].error], legs, cancels, n + 1)
      else ErrorsAre(errors, legs, cancels, n + 1)
  {
    if !legs[n].result.Rejected? && cancels[n].Raises? {
      var next := errors[legs[n].orderId := cancels[n].error];
      forall id | id in next
        ensures exists k :: 0 <= k < n + 1 && LastRaise(legs, cancels, n + 1, k, id) && next[id] == cancels[k].error
      {
        if id == legs[n].orderId {
          assert LastRaise(legs, cancels, n + 1, n, id);
        } else {
          var k :| 0 <= k < n && LastRaise(legs, cancels, n, k, id) && errors[id] == cancels[k].error;
          assert LastRaise(legs, cancels, n + 1, k, id);
        }
      }
    } else {
      forall id | id in errors
        ensures exists k :: 0 <= k < n + 1 && LastRaise(legs, cancels, n + 1, k, id) && errors[id] == cancels[k].error
      {
        var k :| 0 <= k < n && LastRaise(legs, cancels, n, k, id) && errors[id] == cancels[k].error;
        assert LastRaise(legs, cancels, n + 1, k, id);
      }
    }
  }

  /** The rollback loop: `called` lists the legs that cancel_order was called for, in order. */
  method Rollback(legs: seq<Leg>, registry: map<int, Handle>, cancels: seq<Cancelling>)
    returns (torn: bool, called: seq<nat>, errors: map<int, nat>)
    requires |cancels| == |legs| && IdsMatch(legs, registry)
    ensures torn <==> TornApart(legs, cancels)
    ensures Increasing(called) && forall k: nat :: k in called <==> ToCancel(legs, cancels, k)
    ensures !torn ==> ErrorsAre(errors, legs, cancels, |legs|)
  {
    torn, called, errors := false, [], map[];
    for k := 0 to |legs|
      invariant Increasing(called) && forall j: nat :: j in called <==> j < k && ToCancel(legs, cancels, j)
      invariant forall j :: 0 <= j < k && !legs[j].result.Rejected? ==> !cancels[j].Torn?
      invariant ErrorsAre(errors, legs, cancels, k)
    {
      ErrorsNext(errors, legs, cancels, k);
      if legs[k].result.Rejected? { continue; }
      var handle := HandleOf(legs[k], registry);
      assert ToCancel(legs, cancels, k);
      assert forall i :: 0 <= i < |called| ==> called[i] in called;
      called := called + [k];
      match cancels[k]
      case Quiet =>
      case Raises(error) => errors := errors[handle.orderId := error];
      case Torn =>
        torn := true;
        return;
    }
  }

  /**
    _settle_legs. `cancels[k]` is how cancel_order would end for leg k. Handles come back, in
    placement order, exactly when no leg failed, and then nothing is cancelled. Otherwise
    cancel_order is called once, in placement order, for each leg not known to be rejected, whatever
    the other cancels do (only the caller's own cancellation cuts the rollback short). The linked error
    is raised exactly when some leg was rejected, from the first rejection; else the first failure is
    raised again.
  */
  method SettleLegs(legs: seq<Leg>, registry: map<int, Handle>, cancels: seq<Cancelling>)
    returns (outcome: Settled, called: seq<nat>)
    requires |cancels| == |legs| && IdsMatch(legs, registry)
    ensures outcome.Handles? <==> !AnyFailed(legs)
    ensures outcome.Handles? ==> called == []
    ensures outcome.Handles? || outcome.LinkedRejected? ==>
      && |outcome.handles| == |legs|
      && forall k :: 0 <= k < |legs| ==>
           outcome.handles[k] == if legs[k].result.Placed? then legs[k].result.handle else registry[legs[k].orderId]
    ensures AnyFailed(legs) ==> Increasing(called) && forall k: nat :: k in called <==>
      k < |legs| && !legs[k].result.Rejected? && forall j :: 0 <= j < k && !legs[j].result.Rejected? ==> !cancels[j].Torn?
    ensures outcome.Interrupted? <==> AnyFailed(legs) && TornApart(legs, cancels)
    ensures outcome.LinkedRejected? <==> AnyRejected(legs) && !TornApart(legs, cancels)
    ensures outcome.LinkedRejected? ==>
      && ErrorsAre(outcome.cancelErrors, legs, cancels, |legs|)
      && exists k :: 0 <= k < |legs| && legs[k].result == Rejected(outcome.rejection)
                     && forall j :: 0 <= j < k ==> !legs[j].result.Rejected?
    ensures outcome.Reraised? ==>
      exists k :: 0 <= k < |legs| && legs[k].result == outcome.result && outcome.result.FailedOtherwise?
                  && forall j :: 0 <= j < k ==> legs[j].result.Placed?
  {
    var failed: nat, rejected: nat := |legs|, |legs|;
    for k := 0 to |legs|
      invariant failed == |legs| || (failed < k && !legs[failed].result.Placed?)
      invariant rejected == |legs| || (rejected < k && legs[rejected].result.Rejected?)
      invariant forall j :: 0 <= j < k && j < failed ==> legs[j].result.Placed?
      invariant forall j :: 0 <= j < k && j < rejected ==> !legs[j].result.Rejected?
    {
      if failed == |legs| && !legs[k].result.Placed? { failed := k; }
      if rejected == |legs| && legs[k].result.Rejected? { rejected := k; }
    }
    var handles := seq(|legs|, k requires 0 <= k < |legs| => HandleOf(legs[k], registry));
    if failed == |legs| { return Handles(handles), []; }
    var torn, errors;
    torn, called, errors := Rollback(legs, registry, cancels);
    if torn {
      outcome := Interrupted;
    } else if rejected == |legs| {
      outcome := Reraised(legs[failed].result);
    } else {
      outcome := LinkedRejected(legs[rejected].result.rejection, handles, errors);
    }
  }

  /** With distinct order ids, cancel_errors holds exactly the failed cancels, each under its leg's id. */
  lemma ErrorsExact(errors: map<int, nat>, legs: seq<Leg>, cancels: seq<Cancelling>)
    requires |cancels| == |legs| && ErrorsAre(errors, legs, cancels, |legs|)
    requires forall i, j :: 0 <= i < j < |legs| ==> legs[i].orderId != legs[j].orderId
    ensures forall k :: 0 <= k < |legs| ==>
      (legs[k].orderId in errors <==> !legs[k].result.Rejected? && cancels[k].Raises?)
    ensures forall k :: 0 <= k < |legs| && legs[k].orderId in errors ==> errors[legs[k].orderId] == cancels[k].error
    ensures forall id :: id in errors ==> exists k :: 0 <= k < |legs| && legs[k].orderId == id
  {
    forall k | 0 <= k < |legs| && legs[k].orderId in errors
      ensures !legs[k].result.Rejected? && cancels[k].Raises? && errors[legs[k].orderId] == cancels[k].error
    {
      var j :| 0 <= j < |legs| && LastRaise(legs, cancels, |legs|, j, legs[k].orderId)
        && errors[legs[k].orderId] == cancels[j].error;
      assert j == k;
    }
    forall id | id in errors ensures exists k :: 0 <= k < |legs| && legs[k].orderId == id {
      var j :| 0 <= j < |legs| && LastRaise(legs, cancels, |legs|, j, id) && errors[id] == cancels[j].error;
    }
  }
}
