/**
  What becomes of a row after the API has given up on it: it reads failed with the queueing
  error exactly as long as the worker writes nothing more to it, and the worker can only do so
  if a sweep had listed the row before the compensation.
*/
module PipelineCompensation {
  import opened Wrappers
  import opened Model
  import opened Tables
  import opened Cluster
  import opened Pipeline
  import opened PipelineTracking
  import opened PipelineStatus
  import opened PipelineSafety
  import opened PipelineDelivery
  import opened PipelineResting
  import opened PipelineConservation

  predicate QueueFailed(row: DeploymentRow) {
    row.status == Failed && row.error == Some(QUEUE_TEXT)
  }

  /** The worker writes to row id. */
  predicate Writes(s: State, e: Event, id: int) {
    && e.Work?
    && match s.w
       case Exec(phase, req, _) => req.deploymentId == id && (phase == ToBuilding || phase == ToDeploying || phase == ToRunning)
       case Failing(x, _, _) => x == id
       case _ => false
  }

  // ----- the worker's texts are never the queueing error -----

  lemma TextsDiffer(detail: string)
    ensures "ensure namespace: " + detail != QUEUE_TEXT && "ensure rbac: " + detail != QUEUE_TEXT
    ensures "deploy to knative: " + detail != QUEUE_TEXT && "recovery failed: " + detail != QUEUE_TEXT
    ensures NO_WORKSPACE_TEXT != QUEUE_TEXT && NO_FUNCTION_TEXT != QUEUE_TEXT
  {
    assert QUEUE_TEXT[0] == 'f' && QUEUE_TEXT[1] == 'a';
    assert ("ensure namespace: " + detail)[0] == 'e' && ("ensure rbac: " + detail)[0] == 'e';
    assert ("deploy to knative: " + detail)[0] == 'd' && ("recovery failed: " + detail)[0] == 'r';
    assert NO_WORKSPACE_TEXT[0] == 'w' && NO_FUNCTION_TEXT[1] == 'u';
  }

  predicate OtherText(w: Pc) {
    w.Failing? ==> w.text != QUEUE_TEXT
  }

  lemma CalledOtherText(s: State, k: Cluster, err: Option<string>, what: string, next: Phase, luck: Luck)
    requires s.w.Exec? && (err.Some? ==> what + err.value != QUEUE_TEXT)
    ensures OtherText(ClusterCalled(s, k, err, what, next, luck).w)
  {
    if err.Some? {
      TextsDiffer(what + err.value);
    }
  }

  lemma ExecOtherText(s: State, luck: Luck)
    requires s.w.Exec?
    ensures OtherText(ExecStep(s, luck).w)
  {
    var req, o := s.w.req, Outcome(luck.getFails, Failure(luck));
    TextsDiffer(luck.detail);
    match s.w.phase
    case ToBuilding =>
    case ToDeploying =>
    case ToRunning =>
    case ToNamespace =>
      CalledOtherText(s, if luck.ok then s.k.(namespaces := s.k.namespaces + {req.ns}) else s.k, Failure(luck),
                      "ensure namespace: ", ToRbac, luck);
    case ToRbac => CalledOtherText(s, s.k, Failure(luck), "ensure rbac: ", ToDeploying, luck);
    case ToConfigMap =>
      var (k, err) := EnsureCode(s.k, req.ns, FunctionOf(req), o);
      TextsDiffer(if err.Some? then err.value else "");
      CalledOtherText(s, k, err, "deploy to knative: ", ToService, luck);
    case ToService =>
      var (k, err) := EnsureService(s.k, req.ns, FunctionOf(req), o);
      TextsDiffer(if err.Some? then err.value else "");
      CalledOtherText(s, k, err, "deploy to knative: ", ToRunning, luck);
  }

  lemma WorkedOtherText(s: State, luck: Luck)
    requires OtherText(s.w)
    ensures OtherText(Worked(s, luck).w)
  {
    TextsDiffer("");
    if s.w.Exec? {
      ExecOtherText(s, luck);
    }
  }

  lemma StepOtherText(s: State, e: Event)
    requires OtherText(s.w)
    ensures OtherText(Next(s, e).w)
  {
    match e
    case Api(c, ok) => ApiStepQueueKept(s, c, ok);
    case Work(luck) => WorkedOtherText(s, luck);
    case Start(_, _) =>
    case Deliver(_) =>
    case Crash =>
    case _ => EventQueueKept(s, e);
  }

  // ----- one step after the compensation -----

  lemma WorkedRowStays(s: State, luck: Luck, id: int)
    requires !Writes(s, Work(luck), id)
    ensures RowStays(s, Worked(s, luck), id)
  {
    if s.w.Exec? {
      ExecRowStays(s, luck, id);
    }
  }

  lemma ExecRowStays(s: State, luck: Luck, id: int)
    requires s.w.Exec? && !Writes(s, Work(luck), id)
    ensures RowStays(s, ExecStep(s, luck), id)
  {
    match s.w.phase
    case ToBuilding =>
    case ToNamespace =>
    case ToRbac =>
    case ToDeploying =>
    case ToConfigMap =>
    case ToService =>
    case ToRunning =>
  }

  lemma WrittenReads(s: State, luck: Luck, id: int)
    requires OtherText(s.w) && Writes(s, Work(luck), id) && id in Worked(s, luck).d.deployments
    ensures !QueueFailed(Worked(s, luck).d.deployments[id])
  {
  }

  lemma ApiRowStays(s: State, c: nat, ok: bool, id: int)
    requires Tracked(s) && id in s.place && s.place[id] == Compensated
    ensures RowStays(s, ApiStep(s, c, ok), id)
  {
    if c in s.calls {
      if s.calls[c].Compensate? {
        assert Pending(s.calls[c]) == Some(s.calls[c].id);
        assert s.place[s.calls[c].id] == InCall(c);
      } else {
        ApiStepRowsKept(s, c, ok);
      }
    }
  }

  /** Only the worker writes to a compensated row, and what it writes is not the queueing error. */
  lemma StepAfterCompensation(s: State, e: Event, id: int)
    requires Tracked(s) && OtherText(s.w) && id in s.place && s.place[id] == Compensated
    ensures !Writes(s, e, id) ==> RowStays(s, Next(s, e), id)
    ensures Writes(s, e, id) && id in Next(s, e).d.deployments ==> !QueueFailed(Next(s, e).d.deployments[id])
  {
    match e
    case Api(c, ok) => ApiRowStays(s, c, ok, id);
    case Work(luck) =>
      if Writes(s, e, id) {
        if id in Worked(s, luck).d.deployments {
          WrittenReads(s, luck, id);
        }
      } else {
        WorkedRowStays(s, luck, id);
      }
    case Start(_, _) => WorkerEventsKeepTables(s, e);
    case Deliver(_) => WorkerEventsKeepTables(s, e);
    case Crash => WorkerEventsKeepTables(s, e);
    case _ => QuietEventRowsKept(s, e);
  }

  // ----- whole runs -----

  ghost predicate CompensatesAt(k: Cluster, es: seq<Event>, m: nat, id: int)
    requires m < |es|
  {
    Compensates(StateAt(k, es, m), es[m], id)
  }

  ghost predicate WritesAt(k: Cluster, es: seq<Event>, n: nat, id: int)
    requires n < |es|
  {
    Writes(StateAt(k, es, n), es[n], id)
  }

  /** The worker has not written to row id since step m. */
  ghost predicate UntouchedSince(k: Cluster, es: seq<Event>, m: nat, n: nat, id: int)
    requires n <= |es|
  {
    forall j | m < j < n :: !WritesAt(k, es, j, id)
  }

  lemma {:induction false} RunOtherText(k: Cluster, es: seq<Event>)
    ensures OtherText(Run(Init(k), es).w)
  {
    if es != [] {
      RunOtherText(k, es[..|es| - 1]);
      StepOtherText(Run(Init(k), es[..|es| - 1]), es[|es| - 1]);
    }
  }

  lemma JustCompensated(k: Cluster, es: seq<Event>, m: nat, id: int)
    requires m < |es| && CompensatesAt(k, es, m, id)
    ensures var s := StateAt(k, es, m + 1);
            && s.w == StateAt(k, es, m).w && id in s.place && s.place[id] == Compensated
            && (id in s.d.deployments ==> QueueFailed(s.d.deployments[id]))
  {
    StateAtNext(k, es, m);
  }

  ghost predicate ReadsIff(k: Cluster, es: seq<Event>, m: nat, n: nat, id: int)
    requires n <= |es|
  {
    var s := StateAt(k, es, n);
    && id in s.place && s.place[id] == Compensated
    && (id in s.d.deployments ==> (QueueFailed(s.d.deployments[id]) <==> UntouchedSince(k, es, m, n, id)))
  }

  lemma ReadsIffNext(k: Cluster, es: seq<Event>, m: nat, n: nat, id: int)
    requires m < n < |es| && ReadsIff(k, es, m, n, id)
    ensures ReadsIff(k, es, m, n + 1, id)
  {
    var s := StateAt(k, es, n);
    RunTracked(k, es[..n]);
    RunOtherText(k, es[..n]);
    StateAtNext(k, es, n);
    PlaceStays(s, es[n], id);
    StepAfterCompensation(s, es[n], id);
    assert UntouchedSince(k, es, m, n + 1, id) <==> UntouchedSince(k, es, m, n, id) && !WritesAt(k, es, n, id);
  }

  lemma {:induction false} ReadsIffUpTo(k: Cluster, es: seq<Event>, m: nat, n: nat, id: int)
    requires m < n <= |es| && CompensatesAt(k, es, m, id)
    ensures ReadsIff(k, es, m, n, id)
    decreases n
  {
    if n == m + 1 {
      JustCompensated(k, es, m, id);
    } else {
      ReadsIffUpTo(k, es, m, n - 1, id);
      ReadsIffNext(k, es, m, n - 1, id);
    }
  }

  /**
    A compensated row that is still there reads failed with the queueing error exactly if the
    worker has not written to it since.
  */
  lemma {:induction false} QueueTextIff(k: Cluster, es: seq<Event>, m: nat, id: int)
    requires m < |es| && CompensatesAt(k, es, m, id) && id in Run(Init(k), es).d.deployments
    ensures QueueFailed(Run(Init(k), es).d.deployments[id]) <==> UntouchedSince(k, es, m, |es|, id)
  {
    assert es[..|es|] == es;
    ReadsIffUpTo(k, es, m, |es|, id);
  }

  // ----- only a sweep can have the row in hand -----

  /** This start lists row id. */
  ghost predicate Lists(s: State, e: Event, id: int) {
    && e.Start? && e.listed && s.w.Down? && IsActiveListing(s.d, e.listing)
    && exists i | 0 <= i < |e.listing| :: e.listing[i].id == id
  }

  ghost predicate ListsAt(k: Cluster, es: seq<Event>, n: nat, id: int)
    requires n < |es|
  {
    Lists(StateAt(k, es, n), es[n], id)
  }

  ghost predicate ListedBefore(k: Cluster, es: seq<Event>, n: nat, id: int)
    requires n <= |es|
  {
    exists j | 0 <= j < n :: ListsAt(k, es, j, id)
  }

  lemma ExecHandsShrink(s: State, luck: Luck, id: int)
    requires s.w.Exec? && InHand(ExecStep(s, luck).w, id)
    ensures InHand(s.w, id)
  {
    ExecStepMoves(s, luck);
    var s' := ExecStep(s, luck);
    assert Remaining(s'.w) == Remaining(s.w) || Remaining(s'.w) == [];
  }

  lemma SweepHandsShrink(s: State, ok: bool, id: int)
    requires s.w.SweepNext? && InHand(SweepLookedUp(s, s.w.rest, ok).w, id)
    ensures InHand(s.w, id)
  {
    var rest, s' := s.w.rest, SweepLookedUp(s, s.w.rest, ok);
    if rest != [] {
      assert Remaining(s'.w) == rest[1..] && Current(s'.w) == Some(rest[0].id);
      if Current(s'.w) == Some(id) {
        assert Remaining(s.w)[0].id == id;
      } else {
        var i :| 0 <= i < |rest[1..]| && rest[1..][i].id == id;
        assert Remaining(s.w)[i + 1].id == id;
      }
    }
  }

  lemma PreparedHandsShrink(s: State, ok: bool, id: int)
    requires s.w.SweepFunction? && InHand(SweepPrepared(s, s.w.row, s.w.slug, s.w.rest, ok).w, id)
    ensures InHand(s.w, id)
  {
    assert Remaining(SweepPrepared(s, s.w.row, s.w.slug, s.w.rest, ok).w) == Remaining(s.w);
  }

  lemma ErrorHandsShrink(s: State, id: int)
    requires s.w.Failing? && InHand(ErrorRecorded(s, s.w.id, s.w.text, s.w.src).w, id)
    ensures InHand(s.w, id)
  {
    assert Remaining(ErrorRecorded(s, s.w.id, s.w.text, s.w.src).w) == Remaining(s.w);
  }

  lemma HandsShrink(s: State, luck: Luck, id: int)
    requires InHand(Worked(s, luck).w, id)
    ensures InHand(s.w, id)
  {
    match s.w
    case Exec(_, _, _) => ExecHandsShrink(s, luck, id);
    case SweepNext(_) => SweepHandsShrink(s, luck.ok, id);
    case SweepFunction(_, _, _) => PreparedHandsShrink(s, luck.ok, id);
    case Failing(_, _, _) => ErrorHandsShrink(s, id);
    case Settling(_, _) =>
    case Idle =>
    case Down =>
  }

  ghost predicate NotPublished(s: State, id: int) {
    id in s.place ==> !s.place[id].Published?
  }

  /** A row whose request is in no message comes into the worker's hands by being listed. */
  lemma StepHands(s: State, e: Event, id: int)
    requires Tracked(s) && InHand(Next(s, e).w, id) && NotPublished(Next(s, e), id)
    ensures NotPublished(s, id) && (InHand(s.w, id) || Lists(s, e, id))
  {
    if id in s.place && s.place[id].Published? {
      PlaceStays(s, e, id);
    }
    match e
    case Api(c, ok) => ApiStepQueueKept(s, c, ok);
    case Work(luck) => HandsShrink(s, luck, id);
    case Start(listing, listed) => StartHands(s, listing, listed, id);
    case Deliver(i) => DeliverHands(s, i, id);
    case Crash =>
    case _ => EventQueueKept(s, e);
  }

  lemma StartHands(s: State, listing: seq<ListedRow>, listed: bool, id: int)
    requires InHand(Started(s, listing, listed).w, id)
    ensures InHand(s.w, id) || Lists(s, Start(listing, listed), id)
  {
  }

  lemma DeliverHands(s: State, i: nat, id: int)
    requires Tracked(s) && InHand(Delivered(s, i).w, id) && NotPublished(s, id)
    ensures InHand(s.w, id)
  {
    if i < |s.q| && s.q[i].body.Some? {
      assert s.place[s.q[i].body.value.deploymentId] == Published(i);
    }
  }

  lemma HandsAt(k: Cluster, es: seq<Event>, n: nat, id: int)
    requires 0 < n <= |es| && InHand(StateAt(k, es, n).w, id) && NotPublished(StateAt(k, es, n), id)
    ensures NotPublished(StateAt(k, es, n - 1), id)
    ensures InHand(StateAt(k, es, n - 1).w, id) || ListsAt(k, es, n - 1, id)
  {
    RunTracked(k, es[..n - 1]);
    StateAtNext(k, es, n - 1);
    StepHands(StateAt(k, es, n - 1), es[n - 1], id);
  }

  lemma {:induction false} HeldWasListed(k: Cluster, es: seq<Event>, n: nat, id: int)
    requires n <= |es| && InHand(StateAt(k, es, n).w, id) && NotPublished(StateAt(k, es, n), id)
    ensures ListedBefore(k, es, n, id)
    decreases n
  {
    assert es[..0] == [];
    if n > 0 {
      HandsAt(k, es, n, id);
      if !ListsAt(k, es, n - 1, id) {
        HeldWasListed(k, es, n - 1, id);
      }
    }
  }

  /** From step m to step n the row has been at rest, and is as it was unless it is gone. */
  ghost predicate RestsSince(k: Cluster, es: seq<Event>, m: nat, n: nat, id: int)
    requires m <= n <= |es|
  {
    Resting(StateAt(k, es, n), id) && RowStays(StateAt(k, es, m), StateAt(k, es, n), id)
  }

  lemma RestsNext(k: Cluster, es: seq<Event>, m: nat, n: nat, id: int)
    requires m < n <= |es| && RestsSince(k, es, m, n - 1, id)
    ensures RestsSince(k, es, m, n, id)
  {
    RunTracked(k, es[..n - 1]);
    StrandedUpTo(k, es, n - 1, 0);
    StateAtNext(k, es, n - 1);
    RestingStays(StateAt(k, es, n - 1), es[n - 1], id);
  }

  lemma {:induction false} RestingTo(k: Cluster, es: seq<Event>, m: nat, n: nat, id: int)
    requires m <= n <= |es| && RestsSince(k, es, m, m, id)
    ensures RestsSince(k, es, m, n, id)
    decreases n
  {
    if m < n {
      RestingTo(k, es, m, n - 1, id);
      RestsNext(k, es, m, n, id);
    }
  }

  /** If no sweep had listed the row before it was compensated, it reads failed with the queueing error as long as it is there. */
  lemma {:induction false} UnlistedReadsQueueText(k: Cluster, es: seq<Event>, m: nat, id: int)
    requires m < |es| && CompensatesAt(k, es, m, id) && !ListedBefore(k, es, m, id)
    ensures id in Run(Init(k), es).d.deployments ==> QueueFailed(Run(Init(k), es).d.deployments[id])
  {
    assert es[..|es|] == es;
    NotHeldUnlisted(k, es, m, id);
    JustCompensated(k, es, m, id);
    RestingTo(k, es, m + 1, |es|, id);
    assert RestsSince(k, es, m + 1, |es|, id);
  }

  lemma NotHeldUnlisted(k: Cluster, es: seq<Event>, m: nat, id: int)
    requires m < |es| && CompensatesAt(k, es, m, id) && !ListedBefore(k, es, m, id)
    ensures !InHand(StateAt(k, es, m).w, id)
  {
    RunTracked(k, es[..m]);
    var s := StateAt(k, es, m);
    assert Pending(s.calls[es[m].c]) == Some(id);
    assert s.place[id].InCall?;
    if InHand(s.w, id) {
      HeldWasListed(k, es, m, id);
    }
  }
}
