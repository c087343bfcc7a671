/**
  The start-up sweep over whole runs: from any reachable state it leaves no deployment queued,
  building or deploying, whatever the API does meanwhile; alone it touches no other row; and
  when nothing fails every function it takes up runs its own row.
*/
module PipelineRecovery {
  import opened Wrappers
  import opened Model
  import opened Tables
  import opened Cluster
  import opened Pipeline
  import opened PipelineTracking
  import opened PipelineTables
  import opened PipelineStatus
  import opened PipelineSafety
  import opened PipelineResting
  import opened PipelineExecute
  import opened PipelineSweep
  import opened PipelineConservation
  import opened PipelineCompensation

  predicate Unfinished(row: DeploymentRow) {
    row.status == Queued || row.status == Building || row.status == Deploying
  }

  predicate Finished(row: DeploymentRow) {
    row.status == Running || (row.status == Failed && row.error.Some?)
  }

  // ----- nothing is left unfinished -----

  /** The worker is sweeping, or has finished the sweep. */
  predicate Sweeping(w: Pc) {
    match w
    case SweepNext(_) => true
    case SweepFunction(_, _, _) => true
    case Exec(_, _, src) => src.FromSweep?
    case Failing(_, _, src) => src.FromSweep?
    case Idle => true
    case _ => false
  }

  /** The row is still in hand, or finished, or gone. */
  ghost predicate Recovering(s: State, id: int) {
    Sweeping(s.w) && (id in s.d.deployments ==> InHand(s.w, id) || Finished(s.d.deployments[id]))
  }

  lemma ExecRecovers(s: State, luck: Luck, id: int)
    requires s.w.Exec? && Recovering(s, id)
    ensures Recovering(ExecStep(s, luck), id)
  {
    var s' := ExecStep(s, luck);
    ExecLeaves(s, luck);
    if s.w.req.deploymentId == id {
      if s.w.phase != ToRunning {
        assert Current(s'.w) == Some(id);
      }
    } else {
      ExecStepWrites(s, luck, id);
      assert Remaining(s'.w) == Remaining(s.w);
    }
  }

  /** A swept execution goes on, is given up, or is done and gives way to the next row. */
  lemma ExecLeaves(s: State, luck: Luck)
    requires s.w.Exec? && s.w.src.FromSweep?
    ensures var s' := ExecStep(s, luck);
            && Remaining(s'.w) == s.w.src.rest && Sweeping(s'.w)
            && (s.w.phase != ToRunning ==> Current(s'.w) == Some(s.w.req.deploymentId))
            && (s.w.phase == ToRunning && s.w.req.deploymentId in s'.d.deployments ==>
                  s'.d.deployments[s.w.req.deploymentId].status == Running)
  {
    match s.w.phase
    case ToBuilding =>
    case ToNamespace =>
    case ToRbac =>
    case ToDeploying =>
    case ToConfigMap =>
    case ToService =>
    case ToRunning =>
  }

  lemma SweepStepRecovers(s: State, luck: Luck, id: int)
    requires (s.w.SweepNext? || s.w.SweepFunction?) && Recovering(s, id)
    ensures Recovering(Worked(s, luck), id)
  {
    var rest, s' := Remaining(s.w), Worked(s, luck);
    if s.w.SweepNext? && rest != [] {
      assert Remaining(s'.w) == rest[1..] && Current(s'.w) == Some(rest[0].id);
      if i :| 0 <= i < |rest| && rest[i].id == id {
        assert i > 0 ==> rest[1..][i - 1].id == id;
      }
    } else {
      assert Remaining(s'.w) == rest;
    }
  }

  lemma ErrorRecovers(s: State, id: int)
    requires s.w.Failing? && Recovering(s, id)
    ensures Recovering(ErrorRecorded(s, s.w.id, s.w.text, s.w.src), id)
  {
    assert Remaining(ErrorRecorded(s, s.w.id, s.w.text, s.w.src).w) == Remaining(s.w);
  }

  lemma WorkedRecovers(s: State, luck: Luck, id: int)
    requires Recovering(s, id)
    ensures Recovering(Worked(s, luck), id)
  {
    match s.w
    case Exec(_, _, _) => ExecRecovers(s, luck, id);
    case SweepNext(_) => SweepStepRecovers(s, luck, id);
    case SweepFunction(_, _, _) => SweepStepRecovers(s, luck, id);
    case Failing(_, _, _) => ErrorRecovers(s, id);
    case Idle =>
  }

  /** The API can only take the row away or fail it. */
  lemma ApiRecovers(s: State, c: nat, ok: bool, id: int)
    requires Tracked(s) && Recovering(s, id) && id < s.d.nextDeployment
    ensures Recovering(ApiStep(s, c, ok), id)
  {
    if c in s.calls && !s.calls[c].Compensate? {
      ApiStepRowsKept(s, c, ok);
    }
  }

  lemma StepRecovers(s: State, e: Event, id: int)
    requires Tracked(s) && Recovering(s, id) && id < s.d.nextDeployment && !e.Crash? && !e.Deliver?
    ensures Recovering(Next(s, e), id)
  {
    match e
    case Api(c, ok) => ApiRecovers(s, c, ok, id);
    case Work(luck) => WorkedRecovers(s, luck, id);
    case Start(_, _) =>
    case _ => QuietEventRowsKept(s, e);
  }

  /** The worker starts up, and until it is done with its sweep nothing is delivered and it does not crash. */
  ghost predicate Restarts(k: Cluster, es: seq<Event>, listing: seq<ListedRow>, fs: seq<Event>) {
    && Run(Init(k), es).w.Down? && IsActiveListing(Run(Init(k), es).d, listing)
    && (forall e | e in fs :: !e.Crash? && !e.Deliver?)
  }

  function After(es: seq<Event>, listing: seq<ListedRow>, fs: seq<Event>): seq<Event> {
    es + [Start(listing, true)] + fs
  }

  lemma StartRecovers(s: State, listing: seq<ListedRow>, id: int)
    requires s.w.Down? && IsActiveListing(s.d, listing) && Consistent(s.d)
    requires id in s.d.deployments && (Unfinished(s.d.deployments[id]) || Finished(s.d.deployments[id]))
    ensures Recovering(Started(s, listing, true), id)
  {
    if Unfinished(s.d.deployments[id]) {
      var i :| 0 <= i < |listing| && listing[i].id == id;
      assert Remaining(Started(s, listing, true).w)[i].id == id;
    }
  }

  ghost predicate RecoveringAt(k: Cluster, es: seq<Event>, id: int) {
    Recovering(Run(Init(k), es), id) && id < Run(Init(k), es).d.nextDeployment
  }

  lemma StartRecoversAt(k: Cluster, es: seq<Event>, listing: seq<ListedRow>, id: int)
    requires Restarts(k, es, listing, [])
    requires id in Run(Init(k), es).d.deployments && Unfinished(Run(Init(k), es).d.deployments[id])
    ensures RecoveringAt(k, es + [Start(listing, true)], id)
  {
    RunGrounded(k, es);
    RunSnoc(Init(k), es, Start(listing, true));
    StartRecovers(Run(Init(k), es), listing, id);
  }

  lemma RecoversNext(k: Cluster, es: seq<Event>, e: Event, id: int)
    requires RecoveringAt(k, es, id) && !e.Crash? && !e.Deliver?
    ensures RecoveringAt(k, es + [e], id)
  {
    RunTracked(k, es);
    RunGrounded(k, es);
    RunSnoc(Init(k), es, e);
    StepRecovers(Run(Init(k), es), e, id);
    NextSuccessor(Run(Init(k), es), e);
  }

  lemma {:induction false} RecoversAlong(k: Cluster, es: seq<Event>, fs: seq<Event>, id: int)
    requires RecoveringAt(k, es, id) && forall e | e in fs :: !e.Crash? && !e.Deliver?
    ensures RecoveringAt(k, es + fs, id)
  {
    if fs == [] {
      assert es + fs == es;
    } else {
      var init, e := fs[..|fs| - 1], fs[|fs| - 1];
      assert e in fs;
      RecoversAlong(k, es, init, id);
      RecoversNext(k, es + init, e, id);
      assert es + fs == es + init + [e];
    }
  }

  /**
    Whenever the worker starts, in any reachable state, and whatever calls run meanwhile: once it
    has swept, every deployment that was queued, building or deploying is running, or failed
    with an error, or gone.
  */
  lemma {:induction false} RecoveryLeavesNoneUnfinished(k: Cluster, es: seq<Event>, listing: seq<ListedRow>,
                                                        fs: seq<Event>, id: int)
    requires Restarts(k, es, listing, fs) && Run(Init(k), After(es, listing, fs)).w.Idle?
    requires id in Run(Init(k), es).d.deployments && Unfinished(Run(Init(k), es).d.deployments[id])
    ensures var d := Run(Init(k), After(es, listing, fs)).d;
            id in d.deployments ==> Finished(d.deployments[id])
  {
    StartRecoversAt(k, es, listing, id);
    RecoversAlong(k, es + [Start(listing, true)], fs, id);
    assert RecoveringAt(k, After(es, listing, fs), id);
  }

  /** In particular what a worker was doing when it died is finished once it has started again. */
  lemma {:induction false} CrashIsRecovered(k: Cluster, es: seq<Event>, listing: seq<ListedRow>, fs: seq<Event>, id: int)
    requires IsActiveListing(Run(Init(k), es).d, listing) && forall e | e in fs :: !e.Crash? && !e.Deliver?
    requires id in Run(Init(k), es).d.deployments && Unfinished(Run(Init(k), es).d.deployments[id])
    requires Run(Init(k), After(es + [Crash], listing, fs)).w.Idle?
    ensures var d := Run(Init(k), After(es + [Crash], listing, fs)).d;
            id in d.deployments ==> Finished(d.deployments[id])
  {
    RunSnoc(Init(k), es, Crash);
    RecoveryLeavesNoneUnfinished(k, es + [Crash], listing, fs, id);
  }

  // ----- alone it touches nothing else -----

  ghost predicate SameRow(d: Db, d': Db, id: int) {
    id in d.deployments && id in d'.deployments && d'.deployments[id] == d.deployments[id]
  }

  lemma ErrorSpares(s: State, id: int)
    requires s.w.Failing? && !InHand(s.w, id) && id in s.d.deployments
    ensures SameRow(s.d, ErrorRecorded(s, s.w.id, s.w.text, s.w.src).d, id)
  {
    assert Current(s.w) == Some(s.w.id);
  }

  lemma ExecSpares(s: State, luck: Luck, id: int)
    requires s.w.Exec? && !InHand(s.w, id) && id in s.d.deployments
    ensures SameRow(s.d, ExecStep(s, luck).d, id)
  {
    assert Current(s.w) == Some(s.w.req.deploymentId);
    ExecStepWrites(s, luck, id);
  }

  lemma NoneTaken(s: State, luck: Luck, id: int)
    requires !InHand(s.w, id)
    ensures !InHand(Worked(s, luck).w, id)
  {
    if InHand(Worked(s, luck).w, id) {
      HandsShrink(s, luck, id);
    }
  }

  /** A row the worker does not have in hand it does not touch. */
  lemma WorkedSpares(s: State, luck: Luck, id: int)
    requires !InHand(s.w, id) && id in s.d.deployments
    ensures SameRow(s.d, Worked(s, luck).d, id) && !InHand(Worked(s, luck).w, id)
  {
    NoneTaken(s, luck, id);
    if s.w.Exec? {
      ExecSpares(s, luck, id);
    } else if s.w.Failing? {
      ErrorSpares(s, id);
    }
  }

  lemma StartSpares(s: State, listing: seq<ListedRow>, id: int)
    requires s.w.Down? && IsActiveListing(s.d, listing) && id in s.d.deployments && !Unfinished(s.d.deployments[id])
    ensures !InHand(Started(s, listing, true).w, id) && Started(s, listing, true).d == s.d
  {
    assert Remaining(SweepNext(listing)) == listing;
    assert forall i | 0 <= i < |listing| :: IsActive(s.d.deployments[listing[i].id].status);
  }

  /** The row is as it was in d, and the worker does not have it in hand. */
  ghost predicate SparedAt(d: Db, k: Cluster, es: seq<Event>, id: int) {
    SameRow(d, Run(Init(k), es).d, id) && !InHand(Run(Init(k), es).w, id)
  }

  lemma StartSparesAt(k: Cluster, es: seq<Event>, listing: seq<ListedRow>, id: int)
    requires Restarts(k, es, listing, [])
    requires id in Run(Init(k), es).d.deployments && !Unfinished(Run(Init(k), es).d.deployments[id])
    ensures SparedAt(Run(Init(k), es).d, k, es + [Start(listing, true)], id)
  {
    RunSnoc(Init(k), es, Start(listing, true));
    StartSpares(Run(Init(k), es), listing, id);
  }

  lemma SparedNext(d: Db, k: Cluster, es: seq<Event>, luck: Luck, id: int)
    requires SparedAt(d, k, es, id)
    ensures SparedAt(d, k, es + [Work(luck)], id)
  {
    RunSnoc(Init(k), es, Work(luck));
    WorkedSpares(Run(Init(k), es), luck, id);
  }

  lemma {:induction false} SparedAlong(d: Db, k: Cluster, es: seq<Event>, fs: seq<Event>, id: int)
    requires SparedAt(d, k, es, id) && WorkOnly(fs)
    ensures SparedAt(d, k, es + fs, id)
  {
    if fs == [] {
      assert es + fs == es;
    } else {
      var init, e := fs[..|fs| - 1], fs[|fs| - 1];
      assert e in fs;
      SparedAlong(d, k, es, init, id);
      SparedNext(d, k, es + init, e.luck, id);
      assert es + fs == es + init + [e];
    }
  }

  /**
    The sweep alone, from any reachable state in which the worker starts until it is done: a
    deployment that was queued, building or deploying is running or failed with an error, and
    every other one reads as before.
  */
  lemma {:induction false} RecoveryIsTotal(k: Cluster, es: seq<Event>, listing: seq<ListedRow>, fs: seq<Event>, id: int)
    requires Restarts(k, es, listing, fs) && WorkOnly(fs) && Run(Init(k), After(es, listing, fs)).w.Idle?
    requires id in Run(Init(k), es).d.deployments
    ensures var d, d' := Run(Init(k), es).d, Run(Init(k), After(es, listing, fs)).d;
            && id in d'.deployments
            && if Unfinished(d.deployments[id]) then Finished(d'.deployments[id])
               else d'.deployments[id] == d.deployments[id]
  {
    if Unfinished(Run(Init(k), es).d.deployments[id]) {
      RecoveryLeavesNoneUnfinished(k, es, listing, fs, id);
      KeysKept(k, es, listing, fs);
    } else {
      StartSparesAt(k, es, listing, id);
      SparedAlong(Run(Init(k), es).d, k, es + [Start(listing, true)], fs, id);
      assert SparedAt(Run(Init(k), es).d, k, After(es, listing, fs), id);
    }
  }

  ghost predicate HasRows(keys: set<int>, k: Cluster, es: seq<Event>) {
    Run(Init(k), es).d.deployments.Keys == keys
  }

  lemma KeysNext(keys: set<int>, k: Cluster, es: seq<Event>, e: Event)
    requires HasRows(keys, k, es) && (e.Work? || e.Start?)
    ensures HasRows(keys, k, es + [e])
  {
    RunSnoc(Init(k), es, e);
    if e.Work? {
      WorkedSameKeys(Run(Init(k), es), e.luck);
    }
  }

  lemma {:induction false} KeysAlong(keys: set<int>, k: Cluster, es: seq<Event>, fs: seq<Event>)
    requires HasRows(keys, k, es) && WorkOnly(fs)
    ensures HasRows(keys, k, es + fs)
  {
    if fs == [] {
      assert es + fs == es;
    } else {
      var init, e := fs[..|fs| - 1], fs[|fs| - 1];
      assert e in fs;
      KeysAlong(keys, k, es, init);
      KeysNext(keys, k, es + init, e);
      assert es + fs == es + init + [e];
    }
  }

  lemma KeysKept(k: Cluster, es: seq<Event>, listing: seq<ListedRow>, fs: seq<Event>)
    requires WorkOnly(fs)
    ensures Run(Init(k), After(es, listing, fs)).d.deployments.Keys == Run(Init(k), es).d.deployments.Keys
  {
    var keys := Run(Init(k), es).d.deployments.Keys;
    assert HasRows(keys, k, es);
    KeysNext(keys, k, es, Start(listing, true));
    KeysAlong(keys, k, es + [Start(listing, true)], fs);
    assert HasRows(keys, k, After(es, listing, fs));
  }

  // ----- there is always a listing to start from -----

  ghost function ActiveIds(d: Db): set<int> {
    set id | id in d.deployments && IsActive(d.deployments[id].status) && d.deployments[id].functionId in d.functions
  }

  lemma Member(ids: set<int>) returns (id: int)
    requires ids != {}
    ensures id in ids
  {
    assert exists x :: x in ids by {
      assert (forall x :: x !in ids) ==> ids == {};
    }
    id :| id in ids;
  }

  lemma {:induction false} Youngest(d: Db, ids: set<int>) returns (id: int)
    requires ids != {} && ids <= d.deployments.Keys
    ensures id in ids && forall x | x in ids :: d.deployments[x].createdAt <= d.deployments[id].createdAt
  {
    var y := Member(ids);
    if ids == {y} {
      id := y;
    } else {
      assert ids == ids - {y} + {y};
      var z := Youngest(d, ids - {y});
      id := if d.deployments[z].createdAt <= d.deployments[y].createdAt then y else z;
      assert forall x | x in ids :: x == y || x in ids - {y};
    }
  }

  /** The given rows in the order of a listing. */
  ghost predicate Lines(d: Db, ids: set<int>, rows: seq<ListedRow>) {
    && (forall i | 0 <= i < |rows| ::
          rows[i].id in ids && rows[i].id in d.deployments && d.deployments[rows[i].id].functionId in d.functions
          && rows[i] == Listed(d, rows[i].id))
    && (forall i, j | 0 <= i < j < |rows| ::
          rows[i].id != rows[j].id && rows[i].id in d.deployments && rows[j].id in d.deployments
          && d.deployments[rows[i].id].createdAt <= d.deployments[rows[j].id].createdAt)
    && (forall id | id in ids :: exists i | 0 <= i < |rows| :: rows[i].id == id)
  }

  lemma {:induction false} Listable(d: Db, ids: set<int>) returns (rows: seq<ListedRow>)
    requires ids <= ActiveIds(d)
    ensures Lines(d, ids, rows)
  {
    if ids == {} {
      rows := [];
    } else {
      var id := Youngest(d, ids);
      var before := Listable(d, ids - {id});
      rows := before + [Listed(d, id)];
      forall x | x in ids
        ensures exists i | 0 <= i < |rows| :: rows[i].id == x
      {
        if x == id {
          assert rows[|before|].id == x;
        } else {
          assert x in ids - {id};
          var i :| 0 <= i < |before| && before[i].id == x;
          assert rows[i].id == x;
        }
      }
    }
  }

  /** Whatever the tables hold, there is a listing of them. */
  lemma {:induction false} ListingExists(d: Db) returns (rows: seq<ListedRow>)
    ensures IsActiveListing(d, rows)
  {
    rows := Listable(d, ActiveIds(d));
    assert forall i | 0 <= i < |rows| :: rows[i].id in ActiveIds(d);
    assert forall id | id in d.deployments && IsActive(d.deployments[id].status) && d.deployments[id].functionId in d.functions ::
        id in ActiveIds(d);
  }

  // ----- when nothing fails -----

  /** Each row's workspace and function are there to be looked up. */
  ghost predicate Known(d: Db, rows: seq<ListedRow>) {
    forall i | 0 <= i < |rows| ::
      rows[i].workspaceId in d.workspaces && FindFunction(d, rows[i].workspaceId, rows[i].functionName).Some?
  }

  ghost predicate Smooth(cs: seq<Chance>) {
    forall i | 0 <= i < |cs| :: cs[i] == SMOOTH
  }

  lemma {:induction false} SmoothErrors(v: World, now: int, rows: seq<ListedRow>, cs: seq<Chance>)
    requires |rows| == |cs| && Unique(v.d) && Known(v.d, rows) && Smooth(cs)
    ensures forall i | 0 <= i < |rows| :: SweepErrors(v, now, rows, cs)[i].None?
    decreases |rows|
  {
    if rows != [] {
      var row, rest := rows[0], rows[1..];
      var found := FindFunction(v.d, row.workspaceId, row.functionName);
      SmoothExecution(v, now, SweepRequest(row, v.d.workspaces[row.workspaceId].slug, found.value));
      SweptOneRow(v, now, row, cs[0]);
      var v1 := SweptOne(v, now, row, cs[0]).0;
      forall i | 0 <= i < |rest|
        ensures rest[i].workspaceId in v1.d.workspaces && FindFunction(v1.d, rest[i].workspaceId, rest[i].functionName).Some?
      {
        assert rest[i] == rows[i + 1];
        FindUnchanged(v.d, v1.d, rest[i]);
      }
      SmoothErrors(v1, now, rest, cs[1..]);
    }
  }

  /** The function a deployment is of runs, in its workspace's namespace, exactly as its row reads. */
  ghost predicate FunctionRuns(d: Db, k: Cluster, id: int) {
    id in d.deployments
    && var f := d.deployments[id].functionId;
       && f in d.functions && d.functions[f].workspaceId in d.workspaces
       && StoredAs(k, "fn-" + d.workspaces[d.functions[f].workspaceId].slug, SpecOfRow(d.functions[f]))
  }

  lemma ListedKnown(d: Db, rows: seq<ListedRow>)
    requires Consistent(d) && IsActiveListing(d, rows)
    ensures Known(d, rows)
    ensures forall i | 0 <= i < |rows| ::
              FindFunction(d, rows[i].workspaceId, rows[i].functionName)
              == Some(d.functions[d.deployments[rows[i].id].functionId])
  {
    forall i | 0 <= i < |rows|
      ensures rows[i].workspaceId in d.workspaces
      ensures FindFunction(d, rows[i].workspaceId, rows[i].functionName)
           == Some(d.functions[d.deployments[rows[i].id].functionId])
    {
      var f := d.deployments[rows[i].id].functionId;
      assert NameTaken(d, rows[i].workspaceId, rows[i].functionName) by {
        assert d.functions[f].workspaceId == rows[i].workspaceId && d.functions[f].name == rows[i].functionName;
      }
      FoundFunction(d, rows[i].workspaceId, rows[i].functionName);
    }
  }

  /** The last row of the listing with the same function as row j. */
  lemma {:induction false} LastOfTarget(d: Db, rows: seq<ListedRow>, j: nat, n: nat) returns (l: nat)
    requires j < n <= |rows| && SameTarget(d, rows[j], rows[j])
    ensures l < n && SameTarget(d, rows[l], rows[j]) && forall i | l < i < n :: !SameTarget(d, rows[i], rows[l])
    decreases n
  {
    if SameTarget(d, rows[n - 1], rows[j]) {
      l := n - 1;
    } else {
      l := LastOfTarget(d, rows, j, n - 1);
    }
  }

  /** Deployment id is running, and so is its function, as the row in d reads. */
  ghost predicate Recovered(d: Db, v: World, id: int) {
    id in v.d.deployments && v.d.deployments[id].status == Running && FunctionRuns(d, v.k, id)
  }

  lemma SmoothlyRunning(v: World, now: int, rows: seq<ListedRow>, cs: seq<Chance>, j: nat)
    requires Consistent(v.d) && IsActiveListing(v.d, rows) && |rows| == |cs| && Smooth(cs) && j < |rows|
    ensures var d := Swept(v, now, rows, cs).d;
            rows[j].id in d.deployments && d.deployments[rows[j].id].status == Running
  {
    ListedKnown(v.d, rows);
    SmoothErrors(v, now, rows, cs);
    SweepIsTotal(v, now, rows, cs);
    assert SweptRowReads(Swept(v, now, rows, cs).d, rows[j].id, SweepErrors(v, now, rows, cs)[j]);
  }

  lemma SmoothlyDeployed(v: World, now: int, rows: seq<ListedRow>, cs: seq<Chance>, j: nat)
    requires Consistent(v.d) && IsActiveListing(v.d, rows) && |rows| == |cs| && Smooth(cs) && j < |rows|
    ensures FunctionRuns(v.d, Swept(v, now, rows, cs).k, rows[j].id)
  {
    ListedKnown(v.d, rows);
    SmoothErrors(v, now, rows, cs);
    var v' := Swept(v, now, rows, cs);
    var l := LastOfTarget(v.d, rows, j, |rows|);
    SweepDeploysCurrent(v, now, rows, cs, l);
    var ns := Namespace(v.d.workspaces[rows[j].workspaceId].slug);
    assert v.d.workspaces[rows[l].workspaceId].slug == v.d.workspaces[rows[j].workspaceId].slug;
    DeployedReads(v'.k, ns, SpecOfRow(v.d.functions[v.d.deployments[rows[j].id].functionId]));
  }

  lemma SmoothlyRecovered(v: World, now: int, rows: seq<ListedRow>, cs: seq<Chance>, id: int)
    requires Consistent(v.d) && IsActiveListing(v.d, rows) && |rows| == |cs| && Smooth(cs)
    requires id in v.d.deployments && Unfinished(v.d.deployments[id])
    ensures Recovered(v.d, Swept(v, now, rows, cs), id)
  {
    var j :| 0 <= j < |rows| && rows[j].id == id;
    SmoothlyRunning(v, now, rows, cs, j);
    SmoothlyDeployed(v, now, rows, cs, j);
  }

  lemma SweptKeepsFunctions(v: World, now: int, rows: seq<ListedRow>, cs: seq<Chance>)
    requires |rows| == |cs| && Distinct(rows)
    ensures var d := Swept(v, now, rows, cs).d; d.functions == v.d.functions && d.workspaces == v.d.workspaces
  {
    SweepIsTotal(v, now, rows, cs);
  }

  /** Any sweep, alone, is a run of the protocol from its start. */
  lemma SweepFrom(s: State, listing: seq<ListedRow>, cs: seq<Chance>) returns (fs: seq<Event>)
    requires s.w.Down? && IsActiveListing(s.d, listing) && |cs| == |listing| && MetaFine(cs)
    ensures WorkOnly(fs)
    ensures var v := Swept(World(s.d, s.k), s.now, listing, cs);
            Run(Next(s, Start(listing, true)), fs) == s.(d := v.d, k := v.k, w := Idle)
  {
    var s1 := s.(w := SweepNext(listing));
    SweptIsRun(s1, listing, cs);
    var v := Swept(World(s.d, s.k), s.now, listing, cs);
    fs :| WorkOnly(fs) && Run(s1, fs) == s1.(d := v.d, k := v.k, w := Idle);
  }

  lemma AfterRun(k: Cluster, es: seq<Event>, listing: seq<ListedRow>, fs: seq<Event>)
    ensures Run(Init(k), After(es, listing, fs)) == Run(Next(Run(Init(k), es), Start(listing, true)), fs)
  {
    RunSnoc(Init(k), es, Start(listing, true));
    RunAppend(Init(k), es + [Start(listing, true)], fs);
  }

  /**
    If no call fails, the sweep -- from any reachable state in which the worker starts -- leaves
    every deployment that was queued, building or deploying running, and its function running
    just as the function's row reads.
  */
  lemma {:induction false} SmoothRecovery(k: Cluster, es: seq<Event>, listing: seq<ListedRow>) returns (fs: seq<Event>)
    requires Restarts(k, es, listing, [])
    ensures WorkOnly(fs)
    ensures var s, s' := Run(Init(k), es), Run(Init(k), After(es, listing, fs));
            && s'.w.Idle? && s'.d.functions == s.d.functions && s'.d.workspaces == s.d.workspaces
            && forall id | id in s.d.deployments && Unfinished(s.d.deployments[id]) :: Recovered(s.d, World(s'.d, s'.k), id)
  {
    var s := Run(Init(k), es);
    var cs := seq(|listing|, i => SMOOTH);
    fs := SweepFrom(s, listing, cs);
    AfterRun(k, es, listing, fs);
    RunGrounded(k, es);
    var v := World(s.d, s.k);
    SweptKeepsFunctions(v, s.now, listing, cs);
    forall id | id in s.d.deployments && Unfinished(s.d.deployments[id])
      ensures Recovered(s.d, Swept(v, s.now, listing, cs), id)
    {
      SmoothlyRecovered(v, s.now, listing, cs, id);
    }
  }

  // ----- oldest first -----

  ghost predicate NotYounger(d: Db, a: int, b: int) {
    a in d.deployments && b in d.deployments ==> d.deployments[a].createdAt <= d.deployments[b].createdAt
  }

  /** What the sweep is on is no younger than what it has still to do, which is in order of age. */
  ghost predicate InOrder(s: State) {
    var rest := Remaining(s.w);
    && (forall i, j | 0 <= i < j < |rest| :: NotYounger(s.d, rest[i].id, rest[j].id))
    && (Current(s.w).Some? ==> forall i | 0 <= i < |rest| :: NotYounger(s.d, Current(s.w).value, rest[i].id))
  }

  /** The worker goes on with the rows it has, in their order. */
  ghost predicate Advances(w: Pc, w': Pc) {
    || Remaining(w') == []
    || (Remaining(w') == Remaining(w) && (Current(w') == Current(w) || Current(w').None?))
    || (Remaining(w) != [] && Remaining(w') == Remaining(w)[1..] && Current(w') == Some(Remaining(w)[0].id))
  }

  lemma AdvancesInOrder(s: State, s': State)
    requires Tracked(s) && InOrder(s) && StampsKept(s, s') && Advances(s.w, s'.w)
    ensures InOrder(s')
  {
    HandsPlaced(s);
    var rest, rest' := Remaining(s.w), Remaining(s'.w);
    if rest' != [] && rest' != rest {
      assert forall i | 0 <= i < |rest'| :: rest'[i] == rest[i + 1];
    }
    forall i, j | 0 <= i < j < |rest'|
      ensures NotYounger(s'.d, rest'[i].id, rest'[j].id)
    {
      if rest' == rest {
        assert NotYounger(s.d, rest[i].id, rest[j].id);
      } else {
        assert NotYounger(s.d, rest[i + 1].id, rest[j + 1].id);
      }
    }
  }

  /** All the worker has in hand has been handed out. */
  lemma HandsPlaced(s: State)
    requires Tracked(s)
    ensures forall i | 0 <= i < |Remaining(s.w)| :: Remaining(s.w)[i].id < s.d.nextDeployment
    ensures Current(s.w).Some? ==> Current(s.w).value < s.d.nextDeployment
  {
    match s.w
    case SweepNext(rest) => assert KnownRows(s, rest);
    case SweepFunction(_, _, rest) => assert KnownRows(s, rest);
    case Exec(_, req, src) => SourcePlaced(s, req.deploymentId, src);
    case Failing(id, _, src) => SourcePlaced(s, id, src);
    case _ =>
  }

  lemma SourcePlaced(s: State, id: int, src: Source)
    requires Placed(s) && MessagesPlaced(s) && KnownSource(s, id, src)
    ensures id < s.d.nextDeployment
    ensures src.FromSweep? ==> forall i | 0 <= i < |src.rest| :: src.rest[i].id < s.d.nextDeployment
  {
    if src.FromSweep? {
      assert KnownRows(s, src.rest);
    }
  }

  lemma WorkedAdvances(s: State, luck: Luck)
    ensures Advances(s.w, Worked(s, luck).w)
  {
    if s.w.Exec? {
      ExecStepMoves(s, luck);
    }
  }

  lemma StartInOrder(s: State, listing: seq<ListedRow>, listed: bool)
    requires InOrder(s)
    ensures InOrder(Started(s, listing, listed))
  {
    if Started(s, listing, listed).w.SweepNext? {
      assert s.w.SweepNext? || Remaining(Started(s, listing, listed).w) == listing;
    }
  }

  lemma StepInOrder(s: State, e: Event)
    requires Tracked(s) && InOrder(s)
    ensures InOrder(Next(s, e))
  {
    StampsKeptStep(s, e);
    match e
    case Work(luck) =>
      WorkedAdvances(s, luck);
      AdvancesInOrder(s, Next(s, e));
    case Start(listing, listed) => StartInOrder(s, listing, listed);
    case Deliver(_) => assert Next(s, e) != s ==> Remaining(Next(s, e).w) == [];
    case Crash =>
    case _ =>
      OthersKeepHands(s, e);
      AdvancesInOrder(s, Next(s, e));
  }

  /** In every reachable state the deployment a sweep is on was created no later than any it has still to take up. */
  lemma {:induction false} SweepsOldestFirst(k: Cluster, es: seq<Event>)
    ensures InOrder(Run(Init(k), es))
  {
    if es != [] {
      SweepsOldestFirst(k, es[..|es| - 1]);
      RunTracked(k, es[..|es| - 1]);
      StepInOrder(Run(Init(k), es[..|es| - 1]), es[|es| - 1]);
    }
  }
}
