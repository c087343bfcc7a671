/**
  Status safety over whole runs: which status changes a deployment row can make, exactly when
  one happens that should not, and what the row's fields say in every reachable state.
*/
module PipelineStatus {
  import opened Wrappers
  import opened Model
  import opened Tables
  import opened Cluster
  import opened Pipeline
  import opened PipelineTracking

  /** The lifecycle: any row may be rebuilt, and only active rows fail. */
  predicate Edge(a: DeployStatus, b: DeployStatus) {
    || a == b
    || b == Building
    || (a == Building && b == Deploying)
    || (a == Deploying && b == Running)
    || (IsActive(a) && b == Failed)
  }

  ghost predicate EdgesOnly(s: State, s': State) {
    forall id | id in s.d.deployments && id in s'.d.deployments ::
      Edge(s.d.deployments[id].status, s'.d.deployments[id].status)
  }

  /** What the row being executed reads before the given phase. */
  function StatusBefore(p: Phase): DeployStatus
    requires p != ToBuilding
  {
    if p == ToNamespace || p == ToRbac || p == ToDeploying then Building else Deploying
  }

  // ----- invariants -----

  /**
    Past its building write, the row being executed reads what the worker last wrote -- unless
    the worker picked it up in a sweep and the API has since compensated it.
  */
  ghost predicate ExecutedRow(s: State) {
    s.w.Exec? && s.w.phase != ToBuilding && s.w.req.deploymentId in s.d.deployments ==>
      var id := s.w.req.deploymentId;
      var row := s.d.deployments[id];
      && row.startedAt.Some?
      && (row.status == StatusBefore(s.w.phase)
          || (row.status == Failed && s.w.src.FromSweep? && id in s.place && s.place[id] == Compensated))
  }

  /** The rows a sweep has still to do. */
  function Remaining(w: Pc): seq<ListedRow> {
    match w
    case SweepNext(rest) => rest
    case SweepFunction(_, _, rest) => rest
    case Exec(_, _, src) => if src.FromSweep? then src.rest else []
    case Failing(_, _, src) => if src.FromSweep? then src.rest else []
    case _ => []
  }

  /** The row a worker not yet executing is about to prepare or fail. */
  function Unexecuted(w: Pc): Option<int> {
    match w
    case SweepFunction(row, _, _) => Some(row.id)
    case Failing(id, _, _) => Some(id)
    case _ => None
  }

  function Current(w: Pc): Option<int> {
    match w
    case Exec(_, req, _) => Some(req.deploymentId)
    case _ => Unexecuted(w)
  }

  ghost predicate NotRunning(s: State, id: int) {
    id in s.d.deployments ==> s.d.deployments[id].status != Running
  }

  ghost predicate SweptRows(s: State) {
    && (forall i, j | 0 <= i < j < |Remaining(s.w)| :: Remaining(s.w)[i].id != Remaining(s.w)[j].id)
    && (forall i | 0 <= i < |Remaining(s.w)| ::
          NotRunning(s, Remaining(s.w)[i].id) && Current(s.w) != Some(Remaining(s.w)[i].id))
    && (Unexecuted(s.w).Some? ==> NotRunning(s, Unexecuted(s.w).value))
  }

  ghost predicate NeverExecutedText(text: string) {
    text == QUEUE_TEXT || text == NO_WORKSPACE_TEXT || text == NO_FUNCTION_TEXT
  }

  /** What a row's columns say together. */
  ghost predicate RowFields(row: DeploymentRow, now: int) {
    && row.createdAt <= now
    && (row.startedAt.Some? ==> row.startedAt.value <= now)
    && (row.completedAt.Some? ==> row.completedAt.value <= now)
    && match row.status
       case Queued => row.startedAt.None? && row.completedAt.None? && row.error.None?
       case Building => row.startedAt.Some?
       case Deploying => row.startedAt.Some?
       case Running => row.startedAt.Some? && row.completedAt.Some? && row.startedAt.value <= row.completedAt.value
       case Failed =>
         && row.completedAt.Some? && row.error.Some? && row.error.value != ""
         && (row.startedAt.None? ==> NeverExecutedText(row.error.value))
  }

  ghost predicate Fields(s: State) {
    && (forall id | id in s.d.deployments :: RowFields(s.d.deployments[id], s.now))
    && (s.w.Failing? ==>
          && s.w.text != ""
          && (s.w.id in s.d.deployments && s.d.deployments[s.w.id].startedAt.None? ==> NeverExecutedText(s.w.text)))
  }

  ghost predicate Lively(s: State) {
    ExecutedRow(s) && SweptRows(s) && Fields(s)
  }

  // ----- the steps that break the lifecycle -----

  /** The compensating write finds the row already deployed by a sweep. */
  ghost predicate CompensatesRunning(s: State, e: Event) {
    && e.Api? && e.c in s.calls && s.calls[e.c].Compensate?
    && s.calls[e.c].id in s.d.deployments && s.d.deployments[s.calls[e.c].id].status == Running
  }

  /** The worker is about to write deploying or running over a failed row. */
  ghost predicate RevivesFailed(s: State, e: Event) {
    && e.Work? && s.w.Exec? && (s.w.phase == ToDeploying || s.w.phase == ToRunning)
    && s.w.req.deploymentId in s.d.deployments && s.d.deployments[s.w.req.deploymentId].status == Failed
  }

  ghost predicate Overwrites(s: State, e: Event) {
    CompensatesRunning(s, e) || RevivesFailed(s, e)
  }

  // ----- API steps -----

  /** Rows stay as they are, or a new queued one appears. */
  ghost predicate RowsKept(s: State, s': State) {
    && s'.w == s.w && s.now <= s'.now && s'.d.nextDeployment >= s.d.nextDeployment
    && (forall id | id in s'.d.deployments ::
          if id < s.d.nextDeployment then id in s.d.deployments && s'.d.deployments[id] == s.d.deployments[id]
          else s'.d.deployments[id].status == Queued && RowFields(s'.d.deployments[id], s'.now))
    && (forall id | id in s.place && s.place[id] == Compensated :: id in s'.place && s'.place[id] == Compensated)
  }

  /** The worker's rows were handed out before, so a new row is none of them. */
  lemma WorkersRowsAreOld(s: State)
    requires Tracked(s)
    ensures Current(s.w).Some? ==> Current(s.w).value in s.place
    ensures forall i | 0 <= i < |Remaining(s.w)| :: Remaining(s.w)[i].id in s.place
  {
  }

  lemma RowsKeptLively(s: State, s': State)
    requires Tracked(s) && Lively(s) && RowsKept(s, s')
    ensures Lively(s') && EdgesOnly(s, s')
  {
    WorkersRowsAreOld(s);
    RowsKeptFields(s, s');
    assert SweptRows(s') by {
      assert Remaining(s'.w) == Remaining(s.w);
    }
  }

  lemma RowsKeptFields(s: State, s': State)
    requires Tracked(s) && Fields(s) && RowsKept(s, s')
    ensures Fields(s')
  {
    WorkersRowsAreOld(s);
    forall id | id in s'.d.deployments
      ensures RowFields(s'.d.deployments[id], s'.now)
    {
      if id in s.d.deployments && id < s.d.nextDeployment {
        assert RowFields(s.d.deployments[id], s.now);
      }
    }
  }

  lemma {:induction false} CompensatedLively(s: State, c: nat)
    requires Tracked(s) && Lively(s) && c in s.calls && s.calls[c].Compensate?
    ensures Lively(CompensationWritten(s, c, s.calls[c]))
    ensures EdgesOnly(s, CompensationWritten(s, c, s.calls[c])) <==> !CompensatesRunning(s, Api(c, true))
  {
    var a := s.calls[c];
    var s' := CompensationWritten(s, c, a);
    assert Pending(a) == Some(a.id);
    assert s.place[a.id] == InCall(c);
    if a.id in s.d.deployments {
      assert RowFields(s.d.deployments[a.id], s.now);
    }
    CompensatedExecutedRow(s, c);
    assert SweptRows(s') by {
      assert Remaining(s'.w) == Remaining(s.w);
    }
  }

  /** A compensated row is not the row of a message, so only a sweep can be executing it. */
  lemma CompensatedExecutedRow(s: State, c: nat)
    requires Tracked(s) && ExecutedRow(s) && c in s.calls && s.calls[c].Compensate?
    ensures ExecutedRow(CompensationWritten(s, c, s.calls[c]))
  {
    var a := s.calls[c];
    assert Pending(a) == Some(a.id);
    assert s.place[a.id] == InCall(c);
    if s.w.Exec? && s.w.req.deploymentId == a.id && s.w.src.FromMessage? {
      assert s.q[s.w.src.i].body.value.deploymentId == a.id;
    }
  }

  // ----- worker steps -----

  /** The worker rewrites one row, or none, and leaves the rest of the tables alone. */
  ghost predicate OneRowWritten(s: State, s': State, id: int) {
    && s'.now == s.now && s'.place == s.place && s'.d.deployments.Keys == s.d.deployments.Keys
    && (forall x | x in s.d.deployments && x != id :: s'.d.deployments[x] == s.d.deployments[x])
    && (id in s.d.deployments ==> RowFields(s'.d.deployments[id], s.now))
  }

  /** The worker finishes or continues a request without touching what the sweep has left. */
  ghost predicate SameSweep(s: State, s': State) {
    && (Remaining(s'.w) == Remaining(s.w) || Remaining(s'.w) == [])
    && (Current(s'.w).Some? ==> Current(s'.w) == Current(s.w))
  }

  lemma OneRowSwept(s: State, s': State, id: int)
    requires SweptRows(s) && OneRowWritten(s, s', id) && Current(s.w) == Some(id) && SameSweep(s, s')
    requires Unexecuted(s'.w).Some? ==> NotRunning(s', id)
    ensures SweptRows(s')
  {
    forall i | 0 <= i < |Remaining(s'.w)|
      ensures NotRunning(s', Remaining(s'.w)[i].id) && Current(s'.w) != Some(Remaining(s'.w)[i].id)
    {
      assert NotRunning(s, Remaining(s.w)[i].id);
    }
  }

  lemma OneRowFields(s: State, s': State, id: int)
    requires Fields(s) && OneRowWritten(s, s', id) && !s'.w.Failing?
    ensures Fields(s')
  {
    forall x | x in s'.d.deployments
      ensures RowFields(s'.d.deployments[x], s'.now)
    {
      assert RowFields(s.d.deployments[x], s.now);
    }
  }

  /** The three status writes of executeDeploy. */
  lemma StatusStepLively(s: State, luck: Luck)
    requires Lively(s) && s.w.Exec?
    requires s.w.phase == ToBuilding || s.w.phase == ToDeploying || s.w.phase == ToRunning
    ensures Lively(ExecStep(s, luck))
    ensures EdgesOnly(s, ExecStep(s, luck)) <==> !RevivesFailed(s, Work(luck))
  {
    var s', id := ExecStep(s, luck), s.w.req.deploymentId;
    StatusStepRow(s, luck);
    OneRowSwept(s, s', id);
    OneRowFields(s, s', id);
    if id in s.d.deployments && (s.w.phase == ToBuilding || s.d.deployments[id].status != Failed) {
      assert Edge(s.d.deployments[id].status, s'.d.deployments[id].status);
    }
  }

  lemma StatusStepRow(s: State, luck: Luck)
    requires ExecutedRow(s) && Fields(s) && s.w.Exec?
    requires s.w.phase == ToBuilding || s.w.phase == ToDeploying || s.w.phase == ToRunning
    ensures OneRowWritten(s, ExecStep(s, luck), s.w.req.deploymentId)
    ensures SameSweep(s, ExecStep(s, luck)) && ExecutedRow(ExecStep(s, luck))
  {
    var s', id := ExecStep(s, luck), s.w.req.deploymentId;
    if id in s.d.deployments {
      assert RowFields(s.d.deployments[id], s.now);
    }
  }

  /** The cluster calls of executeDeploy leave the tables alone; the texts of their failures are not empty. */
  lemma ClusterCalledLively(s: State, k: Cluster, err: Option<string>, what: string, next: Phase, luck: Luck)
    requires Lively(s) && s.w.Exec? && s.w.phase != ToBuilding && next != ToBuilding
    requires StatusBefore(next) == StatusBefore(s.w.phase) && what != ""
    ensures Lively(ClusterCalled(s, k, err, what, next, luck))
  {
    var s' := ClusterCalled(s, k, err, what, next, luck);
    assert Remaining(s'.w) == Remaining(s.w) || Remaining(s'.w) == [];
    if s'.w.Failing? {
      assert s'.w.text != "";
    }
  }

  lemma ExecStepLively(s: State, luck: Luck)
    requires Lively(s) && s.w.Exec?
    ensures Lively(ExecStep(s, luck))
    ensures EdgesOnly(s, ExecStep(s, luck)) <==> !RevivesFailed(s, Work(luck))
  {
    var req, o := s.w.req, Outcome(luck.getFails, Failure(luck));
    match s.w.phase
    case ToBuilding => StatusStepLively(s, luck);
    case ToDeploying => StatusStepLively(s, luck);
    case ToRunning => StatusStepLively(s, luck);
    case ToNamespace =>
      ClusterCalledLively(s, if luck.ok then s.k.(namespaces := s.k.namespaces + {req.ns}) else s.k, Failure(luck),
                          "ensure namespace: ", ToRbac, luck);
    case ToRbac => ClusterCalledLively(s, s.k, Failure(luck), "ensure rbac: ", ToDeploying, luck);
    case ToConfigMap =>
      var (k, err) := EnsureCode(s.k, req.ns, FunctionOf(req), o);
      ClusterCalledLively(s, k, err, "deploy to knative: ", ToService, luck);
    case ToService =>
      var (k, err) := EnsureService(s.k, req.ns, FunctionOf(req), o);
      ClusterCalledLively(s, k, err, "deploy to knative: ", ToRunning, luck);
  }

  lemma ErrorRecordedLively(s: State)
    requires Lively(s) && s.w.Failing?
    ensures Lively(ErrorRecorded(s, s.w.id, s.w.text, s.w.src))
    ensures EdgesOnly(s, ErrorRecorded(s, s.w.id, s.w.text, s.w.src))
  {
    var s', id := ErrorRecorded(s, s.w.id, s.w.text, s.w.src), s.w.id;
    if id in s.d.deployments {
      assert RowFields(s.d.deployments[id], s.now);
    }
    assert NotRunning(s, id);
    OneRowSwept(s, s', id);
    OneRowFields(s, s', id);
  }

  /** Between requests the worker only reads. */
  lemma SweepNextLively(s: State, ok: bool)
    requires Lively(s) && s.w.SweepNext?
    ensures Lively(SweepLookedUp(s, s.w.rest, ok)) && EdgesOnly(s, SweepLookedUp(s, s.w.rest, ok))
  {
    var s', rest := SweepLookedUp(s, s.w.rest, ok), s.w.rest;
    if rest != [] {
      assert Remaining(s'.w) == rest[1..] && Remaining(s.w) == rest;
      assert NotRunning(s, Remaining(s.w)[0].id);
      forall i | 0 <= i < |rest[1..]|
        ensures NotRunning(s, rest[1..][i].id) && rest[1..][i].id != rest[0].id
        ensures forall j | 0 <= j < i :: rest[1..][j].id != rest[1..][i].id
      {
        assert rest[1..][i] == Remaining(s.w)[i + 1];
        assert Remaining(s.w)[0].id != Remaining(s.w)[i + 1].id;
        assert forall j | 0 <= j < i :: rest[1..][j] == Remaining(s.w)[j + 1];
      }
    }
  }

  lemma SweepFunctionLively(s: State, ok: bool)
    requires Lively(s) && s.w.SweepFunction?
    ensures Lively(SweepPrepared(s, s.w.row, s.w.slug, s.w.rest, ok))
    ensures EdgesOnly(s, SweepPrepared(s, s.w.row, s.w.slug, s.w.rest, ok))
  {
    var s' := SweepPrepared(s, s.w.row, s.w.slug, s.w.rest, ok);
    assert Remaining(s'.w) == Remaining(s.w) && Current(s'.w) == Current(s.w);
  }

  lemma WorkedLively(s: State, luck: Luck)
    requires Lively(s)
    ensures Lively(Worked(s, luck))
    ensures EdgesOnly(s, Worked(s, luck)) <==> !RevivesFailed(s, Work(luck))
  {
    match s.w
    case Exec(_, _, _) => ExecStepLively(s, luck);
    case Failing(_, _, _) => ErrorRecordedLively(s);
    case SweepNext(_) => SweepNextLively(s, luck.ok);
    case SweepFunction(_, _, _) => SweepFunctionLively(s, luck.ok);
    case Settling(_, _) =>
    case Idle =>
    case Down =>
  }

  lemma StartedLively(s: State, listing: seq<ListedRow>, listed: bool)
    requires Lively(s)
    ensures Lively(Started(s, listing, listed)) && EdgesOnly(s, Started(s, listing, listed))
  {
  }

  lemma DeliveredLively(s: State, i: nat)
    requires Lively(s)
    ensures Lively(Delivered(s, i)) && EdgesOnly(s, Delivered(s, i))
  {
  }

  // ----- every step -----

  lemma ApiStepLively(s: State, c: nat, ok: bool)
    requires Tracked(s) && Lively(s)
    ensures Lively(ApiStep(s, c, ok))
    ensures EdgesOnly(s, ApiStep(s, c, ok)) <==> !CompensatesRunning(s, Api(c, ok))
  {
    if c !in s.calls {
      RowsKeptLively(s, s);
    } else if s.calls[c].Compensate? {
      CompensatedLively(s, c);
    } else {
      ApiStepRowsKept(s, c, ok);
      RowsKeptLively(s, ApiStep(s, c, ok));
    }
  }

  lemma ApiStepRowsKept(s: State, c: nat, ok: bool)
    requires Tracked(s) && c in s.calls && !s.calls[c].Compensate?
    ensures RowsKept(s, ApiStep(s, c, ok))
  {
    var a := s.calls[c];
    if !HoldsRequest(a, ok) {
      QuietApiStep(s, c, ok);
    } else if a.Publish? {
      assert Pending(a) == Some(a.body.deploymentId);
      assert s.place[a.body.deploymentId] == InCall(c);
    } else {
      assert RowsKept(s, Enqueued(s, c, a));
    }
  }

  lemma QuietEventLively(s: State, e: Event)
    requires Tracked(s) && Lively(s)
    requires e.BeginCreate? || e.BeginUpdate? || e.BeginDelete? || e.CreateWorkspace? || e.Garbage? || e.Tick?
             || e.BeginDeleteWorkspace? || e.Abandon?
    ensures Lively(Next(s, e)) && EdgesOnly(s, Next(s, e))
  {
    QuietEventRowsKept(s, e);
    RowsKeptLively(s, Next(s, e));
  }

  lemma QuietEventRowsKept(s: State, e: Event)
    requires Tracked(s)
    requires e.BeginCreate? || e.BeginUpdate? || e.BeginDelete? || e.CreateWorkspace? || e.Garbage? || e.Tick?
             || e.BeginDeleteWorkspace? || e.Abandon?
    ensures RowsKept(s, Next(s, e))
  {
    if e.Abandon? && e.c in s.calls && Pending(s.calls[e.c]).Some? {
      assert s.place[Pending(s.calls[e.c]).value] == InCall(e.c);
    }
    assert forall id | id in s.d.deployments :: id < s.d.nextDeployment;
  }

  /** Only the worker's own events, and its start and death, move the worker. */
  lemma OthersKeepHands(s: State, e: Event)
    requires Tracked(s) && !e.Work? && !e.Start? && !e.Deliver? && !e.Crash?
    ensures Next(s, e).w == s.w
  {
    if e.Api? && e.c in s.calls {
      if !s.calls[e.c].Compensate? {
        ApiStepRowsKept(s, e.c, e.ok);
      }
    }
  }

  /** From any reachable state a step keeps to the lifecycle exactly when it does not overwrite a finished row. */
  lemma {:induction false} StepEdges(s: State, e: Event)
    requires Tracked(s) && Lively(s)
    ensures Lively(Next(s, e))
    ensures EdgesOnly(s, Next(s, e)) <==> !Overwrites(s, e)
  {
    match e
    case Api(c, ok) => ApiStepLively(s, c, ok);
    case Work(luck) => WorkedLively(s, luck);
    case Start(listing, listed) => StartedLively(s, listing, listed);
    case Deliver(i) => DeliveredLively(s, i);
    case Crash =>
    case Abandon(_) => QuietEventLively(s, e);
    case Garbage => QuietEventLively(s, e);
    case Tick(_) => QuietEventLively(s, e);
    case CreateWorkspace(_) => QuietEventLively(s, e);
    case BeginCreate(_, _, _) => QuietEventLively(s, e);
    case BeginUpdate(_, _, _, _) => QuietEventLively(s, e);
    case BeginDelete(_, _, _) => QuietEventLively(s, e);
    case BeginDeleteWorkspace(_, _) => QuietEventLively(s, e);
  }
}
