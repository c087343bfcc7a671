/**
  The lifecycle over whole runs.  It holds of exactly the runs in which no finished row is
  overwritten; it can only break when an API call compensates a row that a start-up sweep has
  already begun to execute, and there is a run in which that happens.
*/
module PipelineSafety {
  import opened Wrappers
  import opened Model
  import opened Tables
  import opened Cluster
  import opened Pipeline
  import opened PipelineTracking
  import opened PipelineTables
  import opened PipelineStatus
  import opened PipelineExecute
  import opened PipelineSweep

  lemma {:induction false} RunLively(k: Cluster, es: seq<Event>)
    ensures Tracked(Run(Init(k), es)) && Lively(Run(Init(k), es))
  {
    RunTracked(k, es);
    if es != [] {
      RunLively(k, es[..|es| - 1]);
      StepEdges(Run(Init(k), es[..|es| - 1]), es[|es| - 1]);
    }
  }

  /** The state after the first n events. */
  ghost function StateAt(k: Cluster, es: seq<Event>, n: nat): State
    requires n <= |es|
  {
    Run(Init(k), es[..n])
  }

  lemma StateAtNext(k: Cluster, es: seq<Event>, n: nat)
    requires n < |es|
    ensures StateAt(k, es, n + 1) == Next(StateAt(k, es, n), es[n])
  {
    assert es[..n + 1][..n] == es[..n];
  }

  ghost predicate StepKeeps(k: Cluster, es: seq<Event>, n: nat)
    requires n < |es|
  {
    EdgesOnly(StateAt(k, es, n), StateAt(k, es, n + 1))
  }

  ghost predicate StepOverwrites(k: Cluster, es: seq<Event>, n: nat)
    requires n < |es|
  {
    Overwrites(StateAt(k, es, n), es[n])
  }

  ghost predicate KeepsLifecycle(k: Cluster, es: seq<Event>) {
    forall n | 0 <= n < |es| :: StepKeeps(k, es, n)
  }

  ghost predicate NeverOverwrites(k: Cluster, es: seq<Event>) {
    forall n | 0 <= n < |es| :: !StepOverwrites(k, es, n)
  }

  lemma StepKeepsIff(k: Cluster, es: seq<Event>, n: nat)
    requires n < |es|
    ensures StepKeeps(k, es, n) <==> !StepOverwrites(k, es, n)
  {
    RunLively(k, es[..n]);
    StateAtNext(k, es, n);
    StepEdges(StateAt(k, es, n), es[n]);
  }

  /** Rows only move along the lifecycle in exactly the runs that overwrite no finished row. */
  lemma {:induction false} LifecycleIff(k: Cluster, es: seq<Event>)
    ensures KeepsLifecycle(k, es) <==> NeverOverwrites(k, es)
  {
    forall n | 0 <= n < |es|
      ensures StepKeeps(k, es, n) <==> !StepOverwrites(k, es, n)
    {
      StepKeepsIff(k, es, n);
    }
  }

  // ----- a condition the API can check -----

  /** The compensating write finds a row that has a start time. */
  ghost predicate CompensatesStarted(s: State, e: Event) {
    && e.Api? && e.c in s.calls && s.calls[e.c].Compensate?
    && s.calls[e.c].id in s.d.deployments && s.d.deployments[s.calls[e.c].id].startedAt.Some?
  }

  ghost predicate CompensatesInTime(k: Cluster, es: seq<Event>) {
    forall n | 0 <= n < |es| :: InTime(k, es, n)
  }

  ghost predicate InTime(k: Cluster, es: seq<Event>, n: nat)
    requires n < |es|
  {
    !CompensatesStarted(StateAt(k, es, n), es[n])
  }

  /** The row being executed reads what the worker last wrote. */
  ghost predicate Undisturbed(s: State) {
    s.w.Exec? && s.w.phase != ToBuilding && s.w.req.deploymentId in s.d.deployments ==>
      s.d.deployments[s.w.req.deploymentId].status == StatusBefore(s.w.phase)
  }

  lemma UndisturbedApi(s: State, c: nat, ok: bool)
    requires Tracked(s) && Lively(s) && Undisturbed(s) && !CompensatesStarted(s, Api(c, ok))
    ensures Undisturbed(ApiStep(s, c, ok))
  {
    if c in s.calls && !s.calls[c].Compensate? {
      ApiStepRowsKept(s, c, ok);
      UndisturbedRowsKept(s, ApiStep(s, c, ok));
    }
  }

  lemma UndisturbedRowsKept(s: State, s': State)
    requires Tracked(s) && Undisturbed(s) && RowsKept(s, s')
    ensures Undisturbed(s')
  {
    WorkersRowsAreOld(s);
  }

  lemma UndisturbedCall(s: State, k: Cluster, err: Option<string>, what: string, next: Phase, luck: Luck)
    requires s.w.Exec? && Undisturbed(s) && s.w.phase != ToBuilding && next != ToBuilding
    requires StatusBefore(next) == StatusBefore(s.w.phase)
    ensures Undisturbed(ClusterCalled(s, k, err, what, next, luck))
  {
  }

  lemma UndisturbedExec(s: State, luck: Luck)
    requires s.w.Exec? && Undisturbed(s)
    ensures Undisturbed(ExecStep(s, luck))
  {
    var req, o := s.w.req, Outcome(luck.getFails, Failure(luck));
    match s.w.phase
    case ToBuilding =>
    case ToDeploying =>
    case ToRunning =>
    case ToNamespace =>
      UndisturbedCall(s, if luck.ok then s.k.(namespaces := s.k.namespaces + {req.ns}) else s.k, Failure(luck),
                      "ensure namespace: ", ToRbac, luck);
    case ToRbac => UndisturbedCall(s, s.k, Failure(luck), "ensure rbac: ", ToDeploying, luck);
    case ToConfigMap =>
      var (k, err) := EnsureCode(s.k, req.ns, FunctionOf(req), o);
      UndisturbedCall(s, k, err, "deploy to knative: ", ToService, luck);
    case ToService =>
      var (k, err) := EnsureService(s.k, req.ns, FunctionOf(req), o);
      UndisturbedCall(s, k, err, "deploy to knative: ", ToRunning, luck);
  }

  lemma UndisturbedWork(s: State, luck: Luck)
    requires Undisturbed(s)
    ensures Undisturbed(Worked(s, luck))
  {
    if s.w.Exec? {
      UndisturbedExec(s, luck);
    }
  }

  /** Starting, dying and taking a message are not statements on the tables. */
  lemma WorkerEventsKeepTables(s: State, e: Event)
    requires e.Start? || e.Deliver? || e.Crash?
    ensures Next(s, e).d == s.d && Next(s, e).now == s.now
    ensures Next(s, e).w.Exec? ==> Next(s, e) == s || Next(s, e).w.phase == ToBuilding
  {
  }

  lemma UndisturbedEvent(s: State, e: Event)
    requires Tracked(s) && Undisturbed(s)
    requires e.BeginCreate? || e.BeginUpdate? || e.BeginDelete? || e.CreateWorkspace? || e.Garbage? || e.Tick?
             || e.BeginDeleteWorkspace? || e.Abandon?
    ensures Undisturbed(Next(s, e))
  {
    QuietEventRowsKept(s, e);
    UndisturbedRowsKept(s, Next(s, e));
  }

  lemma UndisturbedWorker(s: State, e: Event)
    requires Undisturbed(s) && (e.Start? || e.Deliver? || e.Crash?)
    ensures Undisturbed(Next(s, e))
  {
    WorkerEventsKeepTables(s, e);
  }

  lemma UndisturbedOverwrites(s: State, e: Event)
    requires Lively(s) && Undisturbed(s) && !CompensatesStarted(s, e)
    ensures !Overwrites(s, e)
  {
    if e.Api? && e.c in s.calls && s.calls[e.c].Compensate? && s.calls[e.c].id in s.d.deployments {
      assert RowFields(s.d.deployments[s.calls[e.c].id], s.now);
    }
  }

  lemma UndisturbedStep(s: State, e: Event)
    requires Tracked(s) && Lively(s) && Undisturbed(s) && !CompensatesStarted(s, e)
    ensures Undisturbed(Next(s, e)) && !Overwrites(s, e)
  {
    UndisturbedOverwrites(s, e);
    match e
    case Api(c, ok) => UndisturbedApi(s, c, ok);
    case Work(luck) => UndisturbedWork(s, luck);
    case Start(_, _) => UndisturbedWorker(s, e);
    case Deliver(_) => UndisturbedWorker(s, e);
    case Crash => UndisturbedWorker(s, e);
    case _ => UndisturbedEvent(s, e);
  }

  lemma {:induction false} RunUndisturbed(k: Cluster, es: seq<Event>, n: nat)
    requires n <= |es| && CompensatesInTime(k, es)
    ensures Undisturbed(StateAt(k, es, n))
  {
    if n > 0 {
      RunUndisturbed(k, es, n - 1);
      RunLively(k, es[..n - 1]);
      StateAtNext(k, es, n - 1);
      assert InTime(k, es, n - 1);
      UndisturbedStep(StateAt(k, es, n - 1), es[n - 1]);
    }
  }

  /** If no call compensates a row that has already been started, every row keeps to the lifecycle. */
  lemma {:induction false} LifecycleIfCompensatedInTime(k: Cluster, es: seq<Event>)
    requires CompensatesInTime(k, es)
    ensures KeepsLifecycle(k, es)
  {
    forall n | 0 <= n < |es|
      ensures !StepOverwrites(k, es, n)
    {
      RunUndisturbed(k, es, n);
      RunLively(k, es[..n]);
      assert InTime(k, es, n);
      UndisturbedStep(StateAt(k, es, n), es[n]);
    }
    LifecycleIff(k, es);
  }

  // ----- how a row comes to run -----

  ghost predicate ReadsAt(k: Cluster, es: seq<Event>, n: nat, id: int, status: DeployStatus)
    requires n <= |es|
  {
    id in StateAt(k, es, n).d.deployments && StateAt(k, es, n).d.deployments[id].status == status
  }

  lemma WorkedKeys(s: State, luck: Luck)
    ensures forall id :: id in Worked(s, luck).d.deployments <==> id in s.d.deployments
  {
    if s.w.Exec? {
      ExecStepMoves(s, luck);
    }
  }

  /** A row that appears is queued. */
  lemma {:induction false} NewRowsAreQueued(s: State, e: Event, id: int)
    requires Tracked(s) && id in Next(s, e).d.deployments && id !in s.d.deployments
    ensures Next(s, e).d.deployments[id].status == Queued
  {
    match e
    case Api(c, ok) =>
      if c in s.calls && !s.calls[c].Compensate? {
        ApiStepRowsKept(s, c, ok);
      }
    case Work(luck) =>
      WorkedKeys(s, luck);
    case Start(_, _) => WorkerEventsKeepTables(s, e);
    case Deliver(_) => WorkerEventsKeepTables(s, e);
    case Crash => WorkerEventsKeepTables(s, e);
    case _ => QuietEventRowsKept(s, e);
  }

  /** One step back: the row already had its status, or had the one before it. */
  lemma OneStepBack(k: Cluster, es: seq<Event>, n: nat, id: int, status: DeployStatus)
    requires n < |es| && StepKeeps(k, es, n) && ReadsAt(k, es, n + 1, id, status)
    requires status == Deploying || status == Running
    ensures ReadsAt(k, es, n, id, status) || ReadsAt(k, es, n, id, if status == Running then Deploying else Building)
  {
    RunLively(k, es[..n]);
    StateAtNext(k, es, n);
    if id !in StateAt(k, es, n).d.deployments {
      NewRowsAreQueued(StateAt(k, es, n), es[n], id);
    }
  }

  /** In a run that keeps the lifecycle a status is held since the step along its one edge. */
  lemma {:induction false} ReachedFrom(k: Cluster, es: seq<Event>, n: nat, id: int, status: DeployStatus) returns (m: nat)
    requires n <= |es| && KeepsLifecycle(k, es) && ReadsAt(k, es, n, id, status)
    requires status == Deploying || status == Running
    ensures m < n && ReadsAt(k, es, m, id, if status == Running then Deploying else Building)
    ensures forall j | m < j <= n :: ReadsAt(k, es, j, id, status)
  {
    assert n > 0 by {
      assert es[..0] == [];
      assert StateAt(k, es, 0) == Init(k);
    }
    assert StepKeeps(k, es, n - 1);
    OneStepBack(k, es, n - 1, id, status);
    if ReadsAt(k, es, n - 1, id, status) {
      m := ReachedFrom(k, es, n - 1, id, status);
    } else {
      m := n - 1;
    }
  }

  /** A running row was deploying just before, and building just before that. */
  lemma {:induction false} RunningWasDeployed(k: Cluster, es: seq<Event>, n: nat, id: int) returns (building: nat, deploying: nat)
    requires n <= |es| && KeepsLifecycle(k, es) && ReadsAt(k, es, n, id, Running)
    ensures building < deploying < n && ReadsAt(k, es, building, id, Building)
    ensures forall j | building < j <= deploying :: ReadsAt(k, es, j, id, Deploying)
    ensures forall j | deploying < j <= n :: ReadsAt(k, es, j, id, Running)
  {
    deploying := ReachedFrom(k, es, n, id, Running);
    building := ReachedFrom(k, es, deploying, id, Deploying);
  }

  // ----- what the columns of a row say -----

  /**
    In every reachable state: a row being built or deployed has a start time, a running row
    finished no earlier than it started, and a failed row has a completion time and a reason --
    one of the three never reached by executeDeploy if it was never started.
  */
  lemma {:induction false} RowFieldsHold(k: Cluster, es: seq<Event>)
    ensures var s := Run(Init(k), es);
            forall id | id in s.d.deployments :: RowFields(s.d.deployments[id], s.now)
  {
    RunLively(k, es);
  }

  /** Rows that remain are old rows, as old as they were, and a time or error once written is never taken back. */
  ghost predicate StampsKept(s: State, s': State) {
    && s.d.nextDeployment <= s'.d.nextDeployment
    && (forall id | id in s'.d.deployments && id < s.d.nextDeployment ::
          && id in s.d.deployments && s'.d.deployments[id].createdAt == s.d.deployments[id].createdAt
          && (s.d.deployments[id].startedAt.Some? ==> s'.d.deployments[id].startedAt.Some?)
          && (s.d.deployments[id].completedAt.Some? ==> s'.d.deployments[id].completedAt.Some?)
          && (s.d.deployments[id].error.Some? ==> s'.d.deployments[id].error.Some?))
  }

  lemma StampsKeptExec(s: State, luck: Luck)
    requires s.w.Exec?
    ensures StampsKept(s, ExecStep(s, luck))
  {
    match s.w.phase
    case ToBuilding =>
    case ToNamespace =>
    case ToRbac =>
    case ToDeploying =>
    case ToConfigMap =>
    case ToService =>
    case ToRunning =>
  }

  lemma StampsKeptStep(s: State, e: Event)
    requires Tracked(s)
    ensures StampsKept(s, Next(s, e))
  {
    match e
    case Api(c, ok) => StampsKeptApi(s, c, ok);
    case Work(luck) => StampsKeptWorked(s, luck);
    case _ => StampsKeptBeside(s, e);
  }

  lemma StampsKeptApi(s: State, c: nat, ok: bool)
    requires Tracked(s)
    ensures StampsKept(s, ApiStep(s, c, ok))
  {
    if c in s.calls && !s.calls[c].Compensate? {
      ApiStepRowsKept(s, c, ok);
    }
  }

  lemma StampsKeptWorked(s: State, luck: Luck)
    requires Tracked(s)
    ensures StampsKept(s, Worked(s, luck))
  {
    if s.w.Exec? {
      StampsKeptExec(s, luck);
    }
  }

  lemma StampsKeptBeside(s: State, e: Event)
    requires Tracked(s) && !e.Api? && !e.Work?
    ensures StampsKept(s, Next(s, e))
  {
    if e.Start? || e.Deliver? || e.Crash? {
      WorkerEventsKeepTables(s, e);
    } else {
      QuietEventRowsKept(s, e);
    }
  }

  lemma StampsKeptTrans(s: State, s': State, s'': State)
    requires StampsKept(s, s') && StampsKept(s', s'')
    ensures StampsKept(s, s'')
  {
  }

  lemma StampsKeptAt(k: Cluster, es: seq<Event>, n: nat)
    requires n <= |es|
    ensures StampsKept(StateAt(k, es, n), StateAt(k, es, n))
    ensures n < |es| ==> StampsKept(StateAt(k, es, n), StateAt(k, es, n + 1))
  {
    RunTracked(k, es[..n]);
    if n < |es| {
      StateAtNext(k, es, n);
      StampsKeptStep(StateAt(k, es, n), es[n]);
    }
  }

  /**
    Over any stretch of any run, whatever redeliveries and sweeps follow: a row that once
    failed keeps a completion time and an error, even while it is building again or running.
  */
  lemma {:induction false} StampsNeverCleared(k: Cluster, es: seq<Event>, m: nat, n: nat)
    requires m <= n <= |es|
    ensures StampsKept(StateAt(k, es, m), StateAt(k, es, n))
    decreases n
  {
    if m == n {
      StampsKeptAt(k, es, m);
    } else {
      StampsNeverCleared(k, es, m, n - 1);
      StampsKeptAt(k, es, n - 1);
      StampsKeptTrans(StateAt(k, es, m), StateAt(k, es, n - 1), StateAt(k, es, n));
    }
  }

  // ----- a run that breaks it -----

  const REQ := FunctionSpec("ab", PYTHON, MANAGED, "x", "", false)

  const ROW := FunctionRow(1, 1, "ab", PYTHON, MANAGED, Some("x"), None, false)

  /** One function, one queued deployment, and the call that has not published it yet. */
  function OnePending(k: Cluster): State {
    State(Db(map[1 := WorkspaceRow(1, "a")], map[1 := ROW],
             map[1 := DeploymentRow(1, 1, 1, Queued, None, 0, None, None)], 2, 2, 2),
          k, [], Down, map[0 := Publish(RequestOf(1, 1, "a", REQ))], 0,
          map[1 := InCall(0)], map[1 := Written("a", ROW)])
  }

  const JUST_A := Db(map[1 := WorkspaceRow(1, "a")], map[], map[], 2, 1, 1)

  lemma BeginInA(k: Cluster)
    ensures var s := State(JUST_A, k, [], Down, map[], 0, map[], map[]);
            Next(s, BeginCreate(0, "a", REQ)) == s.(calls := map[0 := CreateLookup("a", 1, REQ)])
  {
    assert JUST_A.workspaces[1].slug == "a";
    FoundWorkspace(JUST_A, "a");
    assert MatchesNameRegex("ab");
    assert ValidateCreate(REQ).None?;
  }

  lemma ReachBegun(k: Cluster)
    ensures Run(Init(k), [CreateWorkspace("a"), BeginCreate(0, "a", REQ)])
         == State(JUST_A, k, [], Down, map[0 := CreateLookup("a", 1, REQ)], 0, map[], map[])
  {
    RunSnoc(Init(k), [], CreateWorkspace("a"));
    assert [] + [CreateWorkspace("a")] == [CreateWorkspace("a")];
    assert InsertWorkspace(EmptyDb(), "a") == JUST_A;
    RunSnoc(Init(k), [CreateWorkspace("a")], BeginCreate(0, "a", REQ));
    assert [CreateWorkspace("a")] + [BeginCreate(0, "a", REQ)] == [CreateWorkspace("a"), BeginCreate(0, "a", REQ)];
    BeginInA(k);
  }

  lemma ReachPending(k: Cluster)
    ensures var s := State(JUST_A, k, [], Down, map[0 := CreateLookup("a", 1, REQ)], 0, map[], map[]);
            ApiStep(ApiStep(ApiStep(s, 0, true), 0, true), 0, true) == OnePending(k)
  {
    var d := JUST_A;
    var s := State(d, k, [], Down, map[0 := CreateLookup("a", 1, REQ)], 0, map[], map[]);
    var s1 := s.(calls := map[0 := CreateInsert("a", 1, REQ)]);
    assert ApiStep(s, 0, true) == s1;
    var s2 := s.(d := d.(functions := map[1 := ROW], nextFunction := 2),
                 calls := map[0 := Enqueue("a", 1, ROW, REQ)]);
    assert ApiStep(s1, 0, true) == s2;
    assert ApiStep(s2, 0, true) == OnePending(k);
  }

  const CALLS := [CreateWorkspace("a"), BeginCreate(0, "a", REQ), Api(0, true), Api(0, true), Api(0, true)]

  lemma ReachOnePending(k: Cluster)
    ensures Run(Init(k), CALLS) == OnePending(k)
  {
    var es := [CreateWorkspace("a"), BeginCreate(0, "a", REQ)];
    ReachBegun(k);
    ReachPending(k);
    RunSnoc(Init(k), es, Api(0, true));
    RunSnoc(Init(k), es + [Api(0, true)], Api(0, true));
    RunSnoc(Init(k), es + [Api(0, true)] + [Api(0, true)], Api(0, true));
    assert CALLS == es + [Api(0, true)] + [Api(0, true)] + [Api(0, true)];
  }

  const FINE := Luck(true, "", false, true)

  const SMOOTH := Chance(true, true, Attempt(FINE, FINE, FINE, FINE))

  lemma SmoothExecution(v: World, now: int, req: DeployRequest)
    ensures Executed(v, now, req, SMOOTH.attempt).1.None?
  {
  }

  lemma SweepOfPendingSucceeds(k: Cluster)
    ensures var v := World(OnePending(k).d, k);
            SweptOne(v, 0, ListedRow(1, 1, "ab"), SMOOTH).1.None?
  {
    var d := OnePending(k).d;
    assert d.functions[1].workspaceId == 1 && d.functions[1].name == "ab";
    assert FindFunction(d, 1, "ab").Some?;
    SmoothExecution(World(d, k), 0, SweepRequest(ListedRow(1, 1, "ab"), "a", FindFunction(d, 1, "ab").value));
  }

  /** The worker starts in that state and its sweep deploys the row. */
  lemma SweepDeploysPending(k: Cluster) returns (works: seq<Event>, s: State)
    ensures WorkOnly(works)
    ensures s == Run(Next(OnePending(k), Start([ListedRow(1, 1, "ab")], true)), works)
    ensures s.calls == OnePending(k).calls
    ensures 1 in s.d.deployments && s.d.deployments[1].status == Running
  {
    var s0, rows := OnePending(k), [ListedRow(1, 1, "ab")];
    var s1 := s0.(w := SweepNext(rows));
    assert IsActiveListing(s0.d, rows) by {
      assert rows[0].id == 1;
    }
    assert Next(s0, Start(rows, true)) == s1;
    SweptIsRun(s1, rows, [SMOOTH]);
    var v := Swept(World(s0.d, k), 0, rows, [SMOOTH]);
    s := s1.(d := v.d, k := v.k, w := Idle);
    works :| WorkOnly(works) && Run(s1, works) == s;
    PendingRuns(k);
  }

  lemma PendingRuns(k: Cluster)
    ensures var v := Swept(World(OnePending(k).d, k), 0, [ListedRow(1, 1, "ab")], [SMOOTH]);
            1 in v.d.deployments && v.d.deployments[1].status == Running
  {
    var d, rows := OnePending(k).d, [ListedRow(1, 1, "ab")];
    SweepOfPendingSucceeds(k);
    SweepIsTotal(World(d, k), 0, rows, [SMOOTH]);
    assert SweepErrors(World(d, k), 0, rows, [SMOOTH])[0].None?;
    assert SweptRowReads(Swept(World(d, k), 0, rows, [SMOOTH]).d, rows[0].id, None);
  }

  const LIST_PENDING := Start([ListedRow(1, 1, "ab")], true)

  /** A call about to publish fails to, and compensates. */
  lemma PublishFails(s: State)
    requires s.calls == map[0 := Publish(RequestOf(1, 1, "a", REQ))] && 1 in s.d.deployments
    ensures var s1 := ApiStep(s, 0, false);
            && s1 == s.(calls := map[0 := Compensate(1)])
            && ApiStep(s1, 0, true).d == SetError(s.d, 1, QUEUE_TEXT, s.now)
  {
  }

  /**
    The worker starts while a Create has not published yet; its sweep deploys the row; the
    publish then fails, and the compensation turns the running row into a failed one.
  */
  lemma {:induction false} SweepRaceBreaksLifecycle(k: Cluster) returns (works: seq<Event>, es: seq<Event>)
    ensures WorkOnly(works) && es == CALLS + [LIST_PENDING] + works + [Api(0, false)] + [Api(0, true)]
    ensures var swept := Run(Init(k), CALLS + [LIST_PENDING] + works);
            && 0 in swept.calls && swept.calls[0].Publish?
            && 1 in swept.d.deployments && swept.d.deployments[1].status == Running
    ensures var last := Run(Init(k), es);
            1 in last.d.deployments && last.d.deployments[1].status == Failed
            && last.d.deployments[1].error == Some(QUEUE_TEXT)
    ensures !KeepsLifecycle(k, es)
  {
    ReachOnePending(k);
    var s;
    works, s := SweepDeploysPending(k);
    var swept := CALLS + [LIST_PENDING] + works;
    RunSnoc(Init(k), CALLS, LIST_PENDING);
    RunAppend(Init(k), CALLS + [LIST_PENDING], works);
    RunSnoc(Init(k), swept, Api(0, false));
    PublishFails(s);
    es := swept + [Api(0, false)] + [Api(0, true)];
    RunSnoc(Init(k), swept + [Api(0, false)], Api(0, true));
    OverwriteAtEnd(k, swept + [Api(0, false)], Api(0, true));
  }

  lemma OverwriteAtEnd(k: Cluster, before: seq<Event>, e: Event)
    requires Overwrites(Run(Init(k), before), e)
    ensures !KeepsLifecycle(k, before + [e])
  {
    var es := before + [e];
    assert es[..|before|] == before;
    assert StepOverwrites(k, es, |before|);
    LifecycleIff(k, es);
  }
}
