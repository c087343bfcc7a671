/** Runs that show what rows and requests can come to. */
module PipelineWitnesses {
  import opened Wrappers
  import opened Model
  import opened Tables
  import opened Cluster
  import opened Pipeline
  import opened PipelineTables
  import opened PipelineExecute
  import opened PipelineSweep
  import opened PipelineSafety
  import opened PipelineConservation
  import opened PipelineCompensation
  import opened PipelineValidity
  import opened PipelineDivergence

  // ----- a request published for a row that is gone -----

  lemma DeletePending(k: Cluster)
    ensures ApiStep(Next(OnePending(k), BeginDelete(2, "a", "ab")), 2, true)
         == To(OnePending(k).(d := OnePending(k).d.(functions := map[], deployments := map[])), 2,
               DropService(Namespace("a"), "ab"))
  {
    ReachOnePending(k);
    RunGrounded(k, CALLS);
    var s := OnePending(k);
    assert s.d.workspaces[1].slug == "a" && s.d.functions[1].name == "ab";
    FoundWorkspace(s.d, "a");
    FoundFunction(s.d, 1, "ab");
    assert Next(s, BeginDelete(2, "a", "ab")) == To(s, 2, DeleteRow("a", 1, "ab"));
    assert DeleteFunction(s.d, 1) == s.d.(functions := map[], deployments := map[]);
  }

  /** A delete lands between a create's deployment and its publish: the request goes out for a row that is gone. */
  lemma {:induction false} PublishedWithoutRow(k: Cluster)
    ensures var s := Run(Init(k), CALLS + [BeginDelete(2, "a", "ab"), Api(2, true), Api(0, true)]);
            Carries(s, 0, 1) && 1 !in s.d.deployments
  {
    ReachOnePending(k);
    DeletePending(k);
    RunAppend(Init(k), CALLS, [BeginDelete(2, "a", "ab"), Api(2, true), Api(0, true)]);
    RunThree(OnePending(k), BeginDelete(2, "a", "ab"), Api(2, true), Api(0, true));
  }

  // ----- a compensated row that is rebuilt -----

  lemma ListPending(k: Cluster)
    ensures Next(OnePending(k), LIST_PENDING) == OnePending(k).(w := SweepNext([ListedRow(1, 1, "ab")]))
  {
    var s, rows := OnePending(k), [ListedRow(1, 1, "ab")];
    assert IsActiveListing(s.d, rows) by {
      assert rows[0].id == 1;
    }
  }

  lemma PreparePending(k: Cluster)
    ensures var s := OnePending(k).(w := SweepNext([ListedRow(1, 1, "ab")]));
            Worked(Worked(s, FINE), FINE)
            == OnePending(k).(w := Exec(ToBuilding, RequestOf(1, 1, "a", REQ), FromSweep([])))
  {
    ReachOnePending(k);
    RunGrounded(k, CALLS);
    var d, rows := OnePending(k).d, [ListedRow(1, 1, "ab")];
    assert d.functions[1].name == "ab";
    FoundFunction(d, 1, "ab");
    assert rows[1..] == [];
    var s := OnePending(k).(w := SweepNext(rows));
    assert Worked(s, FINE) == s.(w := SweepFunction(rows[0], "a", []));
  }

  /** The sweep is about to execute the row its listing found. */
  lemma SweepTakesPending(k: Cluster)
    ensures Run(OnePending(k), [LIST_PENDING, Work(FINE), Work(FINE)])
         == OnePending(k).(w := Exec(ToBuilding, RequestOf(1, 1, "a", REQ), FromSweep([])))
  {
    ListPending(k);
    PreparePending(k);
    RunThree(OnePending(k), LIST_PENDING, Work(FINE), Work(FINE));
  }

  lemma CompensatedThenBuilt(k: Cluster)
    ensures var s := OnePending(k).(w := Exec(ToBuilding, RequestOf(1, 1, "a", REQ), FromSweep([])));
            var s' := Next(Next(Next(s, Api(0, false)), Api(0, true)), Work(FINE));
            && 1 in s'.place && s'.place[1] == Compensated && 1 in s'.d.deployments
            && s'.d.deployments[1].status == Building && s'.d.deployments[1].error == Some(QUEUE_TEXT)
  {
    var s := OnePending(k).(w := Exec(ToBuilding, RequestOf(1, 1, "a", REQ), FromSweep([])));
    PublishFails(s);
    var s2 := ApiStep(ApiStep(s, 0, false), 0, true);
    assert s2.w == s.w && s2.place == map[1 := Compensated];
    assert s2.d.deployments[1] == WithError(s.d.deployments[1], QUEUE_TEXT, 0);
  }

  /** A sweep lists the row, the API compensates it, and the sweep builds it all the same: it no longer reads as it was left. */
  lemma {:induction false} ListedThenRebuilt(k: Cluster)
    ensures var s := Run(Init(k), CALLS + [LIST_PENDING, Work(FINE), Work(FINE)] + [Api(0, false), Api(0, true), Work(FINE)]);
            && 1 in s.place && s.place[1] == Compensated && 1 in s.d.deployments
            && s.d.deployments[1].status == Building && !QueueFailed(s.d.deployments[1])
  {
    ReachOnePending(k);
    SweepTakesPending(k);
    CompensatedThenBuilt(k);
    RunAppend(Init(k), CALLS, [LIST_PENDING, Work(FINE), Work(FINE)]);
    RunAppend(Init(k), CALLS + [LIST_PENDING, Work(FINE), Work(FINE)], [Api(0, false), Api(0, true), Work(FINE)]);
    RunThree(OnePending(k).(w := Exec(ToBuilding, RequestOf(1, 1, "a", REQ), FromSweep([]))),
             Api(0, false), Api(0, true), Work(FINE));
  }

  // ----- a running row with an error -----

  const STORMY := Chance(true, true, FAILS)

  lemma SweepFailsPublished(k: Cluster) returns (works: seq<Event>, s: State)
    ensures WorkOnly(works) && s == Run(Next(OnePublished(k), LIST_PENDING), works)
    ensures s.w.Idle? && s.q == OnePublished(k).q && s.now == 0
    ensures 1 in s.d.deployments && s.d.deployments[1].error.Some?
  {
    var s0, rows := OnePublished(k), [ListedRow(1, 1, "ab")];
    var s1 := s0.(w := SweepNext(rows));
    assert IsActiveListing(s0.d, rows) by {
      assert rows[0].id == 1;
    }
    assert Next(s0, LIST_PENDING) == s1;
    SweptIsRun(s1, rows, [STORMY]);
    var v := Swept(World(s0.d, k), 0, rows, [STORMY]);
    s := s1.(d := v.d, k := v.k, w := Idle);
    works :| WorkOnly(works) && Run(s1, works) == s;
    SweptWithError(k);
  }

  lemma SweptWithError(k: Cluster)
    ensures var v := Swept(World(OnePublished(k).d, k), 0, [ListedRow(1, 1, "ab")], [STORMY]);
            1 in v.d.deployments && v.d.deployments[1].error.Some?
  {
    var d, rows := OnePublished(k).d, [ListedRow(1, 1, "ab")];
    assert d.functions[1].workspaceId == 1 && d.functions[1].name == "ab";
    assert FindFunction(d, 1, "ab").Some?;
    SweepIsTotal(World(d, k), 0, rows, [STORMY]);
    assert SweepErrors(World(d, k), 0, rows, [STORMY])[0].Some?;
    assert SweptRowReads(Swept(World(d, k), 0, rows, [STORMY]).d, rows[0].id, SweepErrors(World(d, k), 0, rows, [STORMY])[0]);
  }

  /** executeDeploy leaves every error as it finds it. */
  lemma ExecutedKeepsErrors(v: World, now: int, req: DeployRequest, a: Attempt, id: int)
    requires id in v.d.deployments
    ensures var d' := Executed(v, now, req, a).0.d;
            id in d'.deployments && d'.deployments[id].error == v.d.deployments[id].error
  {
  }

  lemma ProcessedWithError(s: State)
    requires |s.q| == 1 && s.q[0].body == Some(RequestOf(1, 1, "a", REQ))
    requires 1 in s.d.deployments && s.d.deployments[1].error.Some?
    ensures var s' := Processed(s, 0, true, SMOOTH.attempt);
            && s'.q[0].settled.Acked? && 1 in s'.d.deployments
            && s'.d.deployments[1].status == Running && s'.d.deployments[1].error.Some?
  {
    var req := RequestOf(1, 1, "a", REQ);
    SmoothlyProcessed(s, 0);
    ExecutedKeepsErrors(World(s.d, s.k), s.now, req, SMOOTH.attempt, 1);
    ExecutedReads(World(s.d, s.k), s.now, req, SMOOTH.attempt);
    SmoothExecution(World(s.d, s.k), s.now, req);
  }

  /** A sweep fails the row and its message then succeeds: the row is running, with the sweep's error still on it. */
  lemma {:induction false} RunningWithError(k: Cluster) returns (es: seq<Event>)
    ensures var s := Run(Init(k), es);
            && 1 in s.d.deployments && s.d.deployments[1].status == Running && s.d.deployments[1].error.Some?
            && |s.q| == 1 && s.q[0].settled.Acked?
  {
    var before := CALLS + [Api(0, true)];
    ReachOnePublished(k);
    var works, s := SweepFailsPublished(k);
    RunSnoc(Init(k), before, LIST_PENDING);
    RunAppend(Init(k), before + [LIST_PENDING], works);
    var swept := before + [LIST_PENDING] + works;
    ProcessedWithError(s);
    var more := ProcessedAfter(Init(k), swept, 0, true, SMOOTH.attempt);
    es := swept + [Deliver(0)] + more;
  }
}
