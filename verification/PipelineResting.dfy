/**
  Rows that nobody will touch again: a row that is neither active nor in the worker's hands,
  and whose request is compensated or settled, stays as it is in every continuation.
*/
module PipelineResting {
  import opened Wrappers
  import opened Tables
  import opened Pipeline
  import opened PipelineTracking
  import opened PipelineStatus
  import opened PipelineDelivery

  /** The worker is on this row, or its sweep still has it to do. */
  ghost predicate InHand(w: Pc, id: int) {
    Current(w) == Some(id) || exists i | 0 <= i < |Remaining(w)| :: Remaining(w)[i].id == id
  }

  /** The row's request is compensated, or carried by a message that is settled. */
  ghost predicate RequestDone(s: State, id: int) {
    id in s.place
    && match s.place[id]
       case Compensated => true
       case Published(i) => i < |s.q| && !s.q[i].settled.Open?
       case _ => false
  }

  ghost predicate Resting(s: State, id: int) {
    && RequestDone(s, id) && !InHand(s.w, id)
    && (id in s.d.deployments ==> !IsActive(s.d.deployments[id].status))
  }

  /** The row is gone, or reads as before. */
  ghost predicate RowStays(s: State, s': State, id: int) {
    id in s'.d.deployments ==> id in s.d.deployments && s'.d.deployments[id] == s.d.deployments[id]
  }

  // ----- what a request's place becomes -----

  lemma ApiPlaceStays(s: State, c: nat, ok: bool, id: int)
    requires Tracked(s) && id in s.place && !s.place[id].InCall?
    ensures id in ApiStep(s, c, ok).place && ApiStep(s, c, ok).place[id] == s.place[id]
  {
    if c in s.calls {
      var a := s.calls[c];
      if !HoldsRequest(a, ok) {
        QuietApiStep(s, c, ok);
      } else if Pending(a).Some? {
        assert s.place[Pending(a).value] == InCall(c);
      }
    }
  }

  lemma WorkedFrame(s: State, luck: Luck)
    ensures var s' := Worked(s, luck);
            s'.place == s.place && s'.calls == s.calls && s'.wrote == s.wrote && s'.now == s.now
  {
    if s.w.Exec? {
      ExecStepFrame(s, luck);
    }
  }

  lemma ExecStepFrame(s: State, luck: Luck)
    requires s.w.Exec?
    ensures var s' := ExecStep(s, luck);
            && s'.place == s.place && s'.calls == s.calls && s'.wrote == s.wrote && s'.now == s.now && s'.q == s.q
  {
    match s.w.phase
    case ToBuilding =>
    case ToNamespace =>
    case ToRbac =>
    case ToDeploying =>
    case ToConfigMap =>
    case ToService =>
    case ToRunning =>
  }

  /** A request that has left its call stays where it is. */
  lemma PlaceStays(s: State, e: Event, id: int)
    requires Tracked(s) && id in s.place && !s.place[id].InCall?
    ensures id in Next(s, e).place && Next(s, e).place[id] == s.place[id]
  {
    match e
    case Api(c, ok) => ApiPlaceStays(s, c, ok, id);
    case Work(luck) => WorkedFrame(s, luck);
    case Abandon(c) =>
      if c in s.calls && Pending(s.calls[c]).Some? {
        assert s.place[Pending(s.calls[c]).value] == InCall(c);
      }
    case _ => assert Next(s, e).place == s.place;
  }

  // ----- steps of the worker -----

  lemma ExecStepResting(s: State, luck: Luck, id: int)
    requires s.w.Exec? && Resting(s, id)
    ensures Resting(ExecStep(s, luck), id) && RowStays(s, ExecStep(s, luck), id)
  {
    ExecStepFrame(s, luck);
    ExecStepMoves(s, luck);
    ExecStepWrites(s, luck, id);
    var s' := ExecStep(s, luck);
    assert Remaining(s'.w) == Remaining(s.w) || Remaining(s'.w) == [];
    assert Current(s'.w) == Current(s.w) || Current(s'.w) == None;
  }

  /** executeDeploy writes its own row only. */
  lemma ExecStepWrites(s: State, luck: Luck, id: int)
    requires s.w.Exec? && s.w.req.deploymentId != id
    ensures var s' := ExecStep(s, luck);
            (id in s'.d.deployments <==> id in s.d.deployments) && RowStays(s, s', id)
  {
    match s.w.phase
    case ToBuilding =>
    case ToNamespace =>
    case ToRbac =>
    case ToDeploying =>
    case ToConfigMap =>
    case ToService =>
    case ToRunning =>
  }

  lemma SweepResting(s: State, luck: Luck, id: int)
    requires (s.w.SweepNext? || s.w.SweepFunction?) && Resting(s, id)
    ensures Resting(Worked(s, luck), id) && RowStays(s, Worked(s, luck), id)
  {
    var rest, s' := Remaining(s.w), Worked(s, luck);
    if s.w.SweepNext? && rest != [] {
      assert Remaining(s'.w) == rest[1..] && Current(s'.w) == Some(rest[0].id);
      assert forall i | 0 <= i < |rest[1..]| :: rest[1..][i] == rest[i + 1];
    }
  }

  lemma ErrorResting(s: State, id: int)
    requires s.w.Failing? && Resting(s, id)
    ensures var s' := ErrorRecorded(s, s.w.id, s.w.text, s.w.src); Resting(s', id) && RowStays(s, s', id)
  {
    var s' := ErrorRecorded(s, s.w.id, s.w.text, s.w.src);
    assert Current(s.w) == Some(s.w.id) && Current(s'.w) == None;
    assert Remaining(s'.w) == Remaining(s.w) || Remaining(s'.w) == [];
  }

  lemma WorkedResting(s: State, luck: Luck, id: int)
    requires Budgeted(s) && Resting(s, id)
    ensures Resting(Worked(s, luck), id) && RowStays(s, Worked(s, luck), id)
  {
    match s.w
    case Exec(_, _, _) => ExecStepResting(s, luck, id);
    case SweepNext(_) => SweepResting(s, luck, id);
    case SweepFunction(_, _, _) => SweepResting(s, luck, id);
    case Failing(_, _, _) => ErrorResting(s, id);
    case Settling(_, _) =>
    case Idle =>
    case Down =>
  }

  /** A listing holds active rows only. */
  lemma StartedResting(s: State, listing: seq<ListedRow>, listed: bool, id: int)
    requires Placed(s) && Resting(s, id)
    ensures Resting(Started(s, listing, listed), id) && RowStays(s, Started(s, listing, listed), id)
  {
  }

  /** A message of the row would be the settled one. */
  lemma DeliveredResting(s: State, i: nat, id: int)
    requires Tracked(s) && Resting(s, id)
    ensures Resting(Delivered(s, i), id) && RowStays(s, Delivered(s, i), id)
  {
    if i < |s.q| && s.q[i].body.Some? && s.q[i].body.value.deploymentId == id {
      assert s.place[id] == Published(i);
    }
  }

  // ----- steps of everyone else -----

  lemma BesideResting(s: State, s': State, id: int)
    requires Placed(s) && Resting(s, id) && RowsKept(s, s') && QueueKept(s, s')
    requires id in s'.place && s'.place[id] == s.place[id]
    ensures Resting(s', id) && RowStays(s, s', id)
  {
    assert forall j | 0 <= j < |s.q| :: s'.q[j] == s'.q[..|s.q|][j];
  }

  lemma ApiStepResting(s: State, c: nat, ok: bool, id: int)
    requires Tracked(s) && Resting(s, id)
    ensures Resting(ApiStep(s, c, ok), id) && RowStays(s, ApiStep(s, c, ok), id)
  {
    ApiPlaceStays(s, c, ok, id);
    if c in s.calls {
      if s.calls[c].Compensate? {
        assert Pending(s.calls[c]) == Some(s.calls[c].id);
        assert s.place[s.calls[c].id] == InCall(c);
      } else {
        ApiStepRowsKept(s, c, ok);
        ApiStepQueueKept(s, c, ok);
        BesideResting(s, ApiStep(s, c, ok), id);
      }
    }
  }

  lemma EventResting(s: State, e: Event, id: int)
    requires Tracked(s) && Resting(s, id)
    requires e.BeginCreate? || e.BeginUpdate? || e.BeginDelete? || e.CreateWorkspace? || e.Garbage? || e.Tick?
             || e.BeginDeleteWorkspace? || e.Abandon?
    ensures Resting(Next(s, e), id) && RowStays(s, Next(s, e), id)
  {
    PlaceStays(s, e, id);
    QuietEventRowsKept(s, e);
    EventQueueKept(s, e);
    BesideResting(s, Next(s, e), id);
  }

  /** A resting row rests in every next state, and reads as before. */
  lemma {:induction false} RestingStays(s: State, e: Event, id: int)
    requires Tracked(s) && Budgeted(s) && Resting(s, id)
    ensures Resting(Next(s, e), id) && RowStays(s, Next(s, e), id)
  {
    match e
    case Api(c, ok) => ApiStepResting(s, c, ok, id);
    case Work(luck) => WorkedResting(s, luck, id);
    case Start(listing, listed) => StartedResting(s, listing, listed, id);
    case Deliver(i) => DeliveredResting(s, i, id);
    case Crash =>
    case _ => EventResting(s, e, id);
  }
}
