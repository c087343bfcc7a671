/**
  Why convergence needs what it asks for.  A run in which a retried older request overtakes a
  newer one, one in which an update's request cannot be published, and one in which two updates
  overlap acknowledge every message and end with other code deployed than the row has.
*/
module PipelineDivergence {
  import opened Wrappers
  import opened Model
  import opened Tables
  import opened Cluster
  import opened Pipeline
  import opened PipelineTables
  import opened PipelineExecute
  import opened PipelineSweep
  import opened PipelineSafety
  import opened PipelineValidity
  import opened PipelineConvergence

  const TARGET := Target("a", "ab")

  const ROW_Y := FunctionRow(1, 1, "ab", PYTHON, MANAGED, Some("y"), None, false)

  const REQ_Y := FunctionSpec("ab", PYTHON, MANAGED, "y", "", false)

  // ----- runs that are orderly but for one clause -----

  /** The clause of `Orderly` a run does not keep to. */
  datatype Lapse = OutOfTurn | Unpaid | Overlap

  /** The event falls under that clause. */
  ghost predicate Excused(s: State, e: Event, lapse: Lapse) {
    match lapse
    case OutOfTurn => e.Deliver?
    case Unpaid => e.Api? && !e.ok && e.c in s.calls && s.calls[e.c].Publish?
    case Overlap => e.BeginUpdate?
  }

  ghost predicate OrderlyOrExcused(k: Cluster, es: seq<Event>, n: nat, lapse: Lapse)
    requires n < |es|
  {
    OrderlyAt(k, es, n, TARGET) || Excused(StateAt(k, es, n), es[n], lapse)
  }

  /** Every event keeps to every clause, but for events under the given one. */
  ghost predicate OrderlyBut(k: Cluster, es: seq<Event>, lapse: Lapse) {
    forall n | 0 <= n < |es| :: OrderlyOrExcused(k, es, n, lapse)
  }

  lemma OrderlyButSnoc(k: Cluster, es: seq<Event>, e: Event, lapse: Lapse)
    requires OrderlyBut(k, es, lapse)
    requires Orderly(Run(Init(k), es), e, TARGET) || Excused(Run(Init(k), es), e, lapse)
    ensures OrderlyBut(k, es + [e], lapse)
  {
    var fs := es + [e];
    forall n | 0 <= n < |fs|
      ensures OrderlyOrExcused(k, fs, n, lapse)
    {
      if n < |es| {
        assert fs[..n] == es[..n];
        assert OrderlyOrExcused(k, es, n, lapse);
      } else {
        assert fs[..n] == es;
      }
    }
  }

  /** Events that no clause speaks of. */
  predicate Harmless(e: Event) {
    e.Work? || e.Start? || e.CreateWorkspace? || (e.Api? && e.ok)
  }

  lemma {:induction false} OrderlyButHarmless(k: Cluster, es: seq<Event>, fs: seq<Event>, lapse: Lapse)
    requires OrderlyBut(k, es, lapse) && forall f | f in fs :: Harmless(f)
    ensures OrderlyBut(k, es + fs, lapse)
    decreases |fs|
  {
    if fs == [] {
      assert es + fs == es;
    } else {
      var init, last := fs[..|fs| - 1], fs[|fs| - 1];
      OrderlyButHarmless(k, es, init, lapse);
      assert Harmless(last);
      OrderlyButSnoc(k, es + init, last, lapse);
      assert es + fs == es + init + [last];
    }
  }

  /** An orderly run converges, so one that diverges has a lapse. */
  lemma DivergedIsDisorderly(k: Cluster, es: seq<Event>)
    requires Diverged(Run(Init(k), es))
    ensures !OrderlyRun(k, es, TARGET)
  {
    if OrderlyRun(k, es, TARGET) {
      var last := Convergence(k, es, 1, TARGET);
    }
  }

  /** Everything is acknowledged and the function's row says something else than the cluster. */
  ghost predicate Diverged(s: State) {
    && s.calls == map[] && s.w.Idle? && (forall i | 0 <= i < |s.q| :: s.q[i].settled.Acked?)
    && TargetRow(s.d, 1, TARGET) && !Deployed(s.k, Namespace("a"), SpecOfRow(s.d.functions[1]))
  }

  // ----- the common beginning -----

  function OnePublished(k: Cluster): State {
    OnePending(k).(calls := map[], q := [Message(Some(RequestOf(1, 1, "a", REQ)), 0, Open)], place := map[1 := Published(0)])
  }

  /** The function was created with one code and updated to another, and both requests are queued. */
  function TwoPublished(k: Cluster): State {
    State(Db(map[1 := WorkspaceRow(1, "a")], map[1 := ROW_Y],
             map[1 := DeploymentRow(1, 1, 1, Queued, None, 0, None, None),
                 2 := DeploymentRow(2, 1, 1, Queued, None, 0, None, None)], 2, 2, 3),
          k, [Message(Some(RequestOf(1, 1, "a", REQ)), 0, Open), Message(Some(RequestOf(2, 1, "a", REQ_Y)), 0, Open)],
          Down, map[], 0, map[1 := Published(0), 2 := Published(1)],
          map[1 := Written("a", ROW), 2 := Written("a", ROW_Y)])
  }

  lemma ReachOnePublished(k: Cluster)
    ensures Run(Init(k), CALLS + [Api(0, true)]) == OnePublished(k)
  {
    ReachOnePending(k);
    RunSnoc(Init(k), CALLS, Api(0, true));
    assert ApiStep(OnePending(k), 0, true) == OnePublished(k);
  }

  lemma OnePublishedOrderly(k: Cluster, lapse: Lapse)
    ensures OrderlyBut(k, CALLS + [Api(0, true)], lapse)
  {
    OrderlyButHarmless(k, [], [CreateWorkspace("a")], lapse);
    var one := [] + [CreateWorkspace("a")];
    RunSnoc(Init(k), [], CreateWorkspace("a"));
    OrderlyButSnoc(k, one, BeginCreate(0, "a", REQ), lapse);
    var apis := [Api(0, true), Api(0, true), Api(0, true), Api(0, true)];
    OrderlyButHarmless(k, one + [BeginCreate(0, "a", REQ)], apis, lapse);
    assert one + [BeginCreate(0, "a", REQ)] + apis == CALLS + [Api(0, true)];
  }

  lemma UpdateSeesRow(k: Cluster)
    ensures ApiStep(Next(OnePublished(k), BeginUpdate(1, "a", "ab", CHANGE)), 1, true)
         == To(OnePublished(k), 1, UpdateWrite("a", 1, ROW, "y", "", false))
  {
    ReachOnePublished(k);
    RunGrounded(k, CALLS + [Api(0, true)]);
    var s := OnePublished(k);
    assert s.d.workspaces[1].slug == "a" && s.d.functions[1].name == "ab";
    FoundWorkspace(s.d, "a");
    FoundFunction(s.d, 1, "ab");
    assert Next(s, BeginUpdate(1, "a", "ab", CHANGE)) == To(s, 1, UpdateLookup("a", 1, "ab", CHANGE));
  }

  lemma UpdateRewritesRow(k: Cluster)
    ensures var s := To(OnePublished(k), 1, UpdateWrite("a", 1, ROW, "y", "", false));
            ApiStep(s, 1, true)
            == To(OnePublished(k).(d := OnePublished(k).d.(functions := map[1 := ROW_Y])), 1, Enqueue("a", 1, ROW_Y, REQ_Y))
  {
    ReachOnePublished(k);
    RunGrounded(k, CALLS + [Api(0, true)]);
    var s := To(OnePublished(k), 1, UpdateWrite("a", 1, ROW, "y", "", false));
    assert s.d.functions[1].name == "ab";
    FoundFunction(s.d, 1, "ab");
    assert PutFunction(s.d, ROW_Y) == s.d.(functions := map[1 := ROW_Y]);
  }

  lemma UpdatePublishes(k: Cluster)
    ensures var s := To(OnePublished(k).(d := OnePublished(k).d.(functions := map[1 := ROW_Y])), 1, Enqueue("a", 1, ROW_Y, REQ_Y));
            ApiStep(ApiStep(s, 1, true), 1, true) == TwoPublished(k)
  {
    var s := To(OnePublished(k).(d := OnePublished(k).d.(functions := map[1 := ROW_Y])), 1, Enqueue("a", 1, ROW_Y, REQ_Y));
    var s1 := ApiStep(s, 1, true);
    assert s1.calls == map[1 := Publish(RequestOf(2, 1, "a", REQ_Y))];
    assert ApiStep(s1, 1, true).q == TwoPublished(k).q;
    assert ApiStep(s1, 1, true).calls == map[];
    assert ApiStep(s1, 1, true).d == TwoPublished(k).d;
  }

  const FIRST_UPDATE := [BeginUpdate(1, "a", "ab", CHANGE), Api(1, true), Api(1, true)]

  /** The first update has rewritten the row and has yet to insert its deployment. */
  function FirstWritten(k: Cluster): State {
    To(OnePublished(k).(d := OnePublished(k).d.(functions := map[1 := ROW_Y])), 1, Enqueue("a", 1, ROW_Y, REQ_Y))
  }

  lemma ReachFirstWritten(k: Cluster)
    ensures Run(Init(k), CALLS + [Api(0, true)] + FIRST_UPDATE) == FirstWritten(k)
  {
    ReachOnePublished(k);
    UpdateSeesRow(k);
    UpdateRewritesRow(k);
    RunThree(OnePublished(k), BeginUpdate(1, "a", "ab", CHANGE), Api(1, true), Api(1, true));
    RunAppend(Init(k), CALLS + [Api(0, true)], FIRST_UPDATE);
  }

  lemma FirstWrittenOrderly(k: Cluster, lapse: Lapse)
    ensures OrderlyBut(k, CALLS + [Api(0, true)] + FIRST_UPDATE, lapse)
  {
    var before := CALLS + [Api(0, true)];
    OnePublishedOrderly(k, lapse);
    ReachOnePublished(k);
    OrderlyButSnoc(k, before, BeginUpdate(1, "a", "ab", CHANGE), lapse);
    OrderlyButHarmless(k, before + [BeginUpdate(1, "a", "ab", CHANGE)], [Api(1, true), Api(1, true)], lapse);
    assert before + [BeginUpdate(1, "a", "ab", CHANGE)] + [Api(1, true), Api(1, true)] == before + FIRST_UPDATE;
  }

  // ----- a retried request that overtakes -----

  lemma ReachTwoPublished(k: Cluster) returns (es: seq<Event>)
    ensures Run(Init(k), es) == TwoPublished(k) && OrderlyBut(k, es, OutOfTurn)
  {
    var before := CALLS + [Api(0, true)] + FIRST_UPDATE;
    ReachFirstWritten(k);
    UpdatePublishes(k);
    FirstWrittenOrderly(k, OutOfTurn);
    RunSnoc(Init(k), before, Api(1, true));
    RunSnoc(Init(k), before + [Api(1, true)], Api(1, true));
    OrderlyButHarmless(k, before, [Api(1, true), Api(1, true)], OutOfTurn);
    es := before + [Api(1, true)] + [Api(1, true)];
    assert es == before + [Api(1, true), Api(1, true)];
  }

  /** The worker starts without a listing. */
  lemma BeginWork(k: Cluster, es: seq<Event>, lapse: Lapse)
    requires Run(Init(k), es).w.Down? && OrderlyBut(k, es, lapse)
    ensures Run(Init(k), es + [Start([], false)]) == Run(Init(k), es).(w := Idle)
    ensures OrderlyBut(k, es + [Start([], false)], lapse)
  {
    RunSnoc(Init(k), es, Start([], false));
    OrderlyButHarmless(k, es, [Start([], false)], lapse);
  }

  const BROKEN := Luck(false, "timeout", false, true)

  /** The worker takes message i while everyone else waits. */
  lemma Process(k: Cluster, es: seq<Event>, i: nat, a: Attempt, lapse: Lapse) returns (fs: seq<Event>)
    requires Deliverable(Run(Init(k), es), i) && MetaIs(a, true) && OrderlyBut(k, es, lapse)
    requires lapse.OutOfTurn? || EarlierSettled(Run(Init(k), es), i, TARGET)
    ensures Run(Init(k), fs) == Processed(Run(Init(k), es), i, true, a) && OrderlyBut(k, fs, lapse)
  {
    var works := ProcessedAfter(Init(k), es, i, true, a);
    OrderlyButSnoc(k, es, Deliver(i), lapse);
    OrderlyButHarmless(k, es + [Deliver(i)], works, lapse);
    fs := es + [Deliver(i)] + works;
  }

  lemma {:induction false} SmoothlyProcessed(s: State, i: nat)
    requires i < |s.q| && s.q[i].body.Some?
    ensures var s' := Processed(s, i, true, SMOOTH.attempt);
            var req := s.q[i].body.value;
            s'.q[i].settled.Acked? && Deployed(s'.k, req.ns, FunctionOf(req))
            && s'.w == s.w && s'.calls == s.calls && s'.d.functions == s.d.functions && s'.d.workspaces == s.d.workspaces
  {
    var req := s.q[i].body.value;
    SmoothExecution(World(s.d, s.k), s.now, req);
    ExecutedCluster(World(s.d, s.k), s.now, req, SMOOTH.attempt);
    ExecutedOnlyRow(World(s.d, s.k), s.now, req, SMOOTH.attempt);
  }

  lemma OneCodeAtATime(k: Cluster, ns: string)
    ensures !(Deployed(k, ns, REQ) && Deployed(k, ns, REQ_Y))
  {
    assert BuildData(REQ)["handler.py"] == "x" && BuildData(REQ_Y)["handler.py"] == "y";
  }

  const FAILS := Attempt(BROKEN, BROKEN, BROKEN, BROKEN)

  function Begun(k: Cluster): State { TwoPublished(k).(w := Idle) }

  function Nakd(k: Cluster): State { Processed(Begun(k), 0, true, FAILS) }

  function Overtaken(k: Cluster): State
    requires |Nakd(k).q| == 2 && Nakd(k).q[1].body.Some?
  {
    Processed(Nakd(k), 1, true, SMOOTH.attempt)
  }

  lemma NakdState(k: Cluster)
    ensures var s := Nakd(k);
            s == Begun(k).(d := s.d, k := s.k, q := [Begun(k).q[0].(delivered := 1), Begun(k).q[1]])
            && s.d.functions == Begun(k).d.functions && s.d.workspaces == Begun(k).d.workspaces
  {
  }

  lemma OvertakenState(k: Cluster)
    ensures |Nakd(k).q| == 2 && Nakd(k).q[1].body.Some?
    ensures var s := Overtaken(k);
            s == Begun(k).(d := s.d, k := s.k, q := [Begun(k).q[0].(delivered := 1), s.q[1]])
            && s.q[1].settled.Acked?
            && s.d.functions == Begun(k).d.functions && s.d.workspaces == Begun(k).d.workspaces
  {
    NakdState(k);
    SmoothlyProcessed(Nakd(k), 1);
  }

  lemma ReachOvertaken(k: Cluster) returns (es: seq<Event>)
    ensures |Nakd(k).q| == 2 && Nakd(k).q[1].body.Some?
    ensures Run(Init(k), es) == Overtaken(k) && OrderlyBut(k, es, OutOfTurn)
  {
    var before := ReachTwoPublished(k);
    BeginWork(k, before, OutOfTurn);
    var one := Process(k, before + [Start([], false)], 0, FAILS, OutOfTurn);
    NakdState(k);
    es := Process(k, one, 1, SMOOTH.attempt, OutOfTurn);
  }

  lemma ProcessedOnly(s: State, i: nat, a: Attempt)
    requires i < |s.q| && s.q[i].body.Some?
    ensures var s' := Processed(s, i, true, a);
            |s'.q| == |s.q| && forall j | 0 <= j < |s.q| && j != i :: s'.q[j] == s.q[j]
  {
  }

  lemma OlderWins(s: State)
    requires |s.q| > 0 && s.q[0].body == Some(RequestOf(1, 1, "a", REQ))
    requires forall j | 0 < j < |s.q| :: s.q[j].settled.Acked?
    requires s.calls == map[] && s.w.Idle? && s.d.functions == map[1 := ROW_Y] && s.d.workspaces == map[1 := WorkspaceRow(1, "a")]
    ensures Diverged(Processed(s, 0, true, SMOOTH.attempt))
  {
    SmoothlyProcessed(s, 0);
    ProcessedOnly(s, 0, SMOOTH.attempt);
    assert FunctionOf(s.q[0].body.value) == REQ && SpecOfRow(ROW_Y) == REQ_Y;
    OneCodeAtATime(Processed(s, 0, true, SMOOTH.attempt).k, Namespace("a"));
  }

  /**
    A run whose only lapses are deliveries out of turn -- the first request is nak'd, the second
    succeeds, and then the first is delivered again -- acknowledges every message, leaves
    nothing to do, and does not run the function's row.
  */
  lemma {:induction false} OvertakenRequestDiverges(k: Cluster) returns (es: seq<Event>)
    ensures Diverged(Run(Init(k), es)) && OrderlyBut(k, es, OutOfTurn) && !OrderlyRun(k, es, TARGET)
    ensures |Run(Init(k), es).q| == 2 && Run(Init(k), es).q[0].delivered == 2
  {
    var before := ReachOvertaken(k);
    OvertakenState(k);
    OlderWins(Overtaken(k));
    ProcessedOnly(Overtaken(k), 0, SMOOTH.attempt);
    es := Process(k, before, 0, SMOOTH.attempt, OutOfTurn);
    DivergedIsDisorderly(k, es);
  }

  // ----- a request that is never published -----

  /** The update has rewritten the row, its publish has failed, and its deployment is compensated. */
  function Unpublished(k: Cluster): State {
    State(Db(map[1 := WorkspaceRow(1, "a")], map[1 := ROW_Y],
             map[1 := DeploymentRow(1, 1, 1, Queued, None, 0, None, None),
                 2 := DeploymentRow(2, 1, 1, Failed, Some(QUEUE_TEXT), 0, None, Some(0))], 2, 2, 3),
          k, [Message(Some(RequestOf(1, 1, "a", REQ)), 0, Open)], Down, map[], 0,
          map[1 := Published(0), 2 := Compensated], map[1 := Written("a", ROW), 2 := Written("a", ROW_Y)])
  }

  lemma UpdateIsCompensated(k: Cluster)
    ensures var s1 := ApiStep(FirstWritten(k), 1, true);
            1 in s1.calls && s1.calls[1].Publish? && ApiStep(ApiStep(s1, 1, false), 1, true) == Unpublished(k)
  {
    var s1 := ApiStep(FirstWritten(k), 1, true);
    assert s1.calls == map[1 := Publish(RequestOf(2, 1, "a", REQ_Y))];
    var s2 := ApiStep(s1, 1, false);
    assert s2 == s1.(calls := map[1 := Compensate(2)]);
    var s3 := ApiStep(s2, 1, true);
    assert s3.calls == map[];
    assert s3.d.deployments == Unpublished(k).d.deployments;
  }

  lemma ReachUnpublished(k: Cluster) returns (es: seq<Event>)
    ensures Run(Init(k), es) == Unpublished(k) && OrderlyBut(k, es, Unpaid)
  {
    var before := CALLS + [Api(0, true)] + FIRST_UPDATE;
    ReachFirstWritten(k);
    FirstWrittenOrderly(k, Unpaid);
    UpdateIsCompensated(k);
    RunSnoc(Init(k), before, Api(1, true));
    RunSnoc(Init(k), before + [Api(1, true)], Api(1, false));
    RunSnoc(Init(k), before + [Api(1, true)] + [Api(1, false)], Api(1, true));
    OrderlyButHarmless(k, before, [Api(1, true)], Unpaid);
    OrderlyButSnoc(k, before + [Api(1, true)], Api(1, false), Unpaid);
    OrderlyButHarmless(k, before + [Api(1, true)] + [Api(1, false)], [Api(1, true)], Unpaid);
    es := before + [Api(1, true)] + [Api(1, false)] + [Api(1, true)];
  }

  /**
    A run whose only lapse is a publish that fails: the update is refused, its row stays
    rewritten, and once the create's request is processed every message is acknowledged and the
    function does not run its own row.
  */
  lemma {:induction false} UnpublishedUpdateDiverges(k: Cluster) returns (es: seq<Event>)
    ensures Diverged(Run(Init(k), es)) && OrderlyBut(k, es, Unpaid) && !OrderlyRun(k, es, TARGET)
  {
    var before := ReachUnpublished(k);
    BeginWork(k, before, Unpaid);
    es := Process(k, before + [Start([], false)], 0, SMOOTH.attempt, Unpaid);
    OlderWins(Unpublished(k).(w := Idle));
    DivergedIsDisorderly(k, es);
  }

  // ----- two updates that overlap -----

  const BACK := UpdateRequest("x", "", None)

  /** The second update has rewritten the row again; neither has inserted its deployment. */
  function BothWritten(k: Cluster): State {
    To(FirstWritten(k).(d := OnePublished(k).d), 2, Enqueue("a", 1, ROW, REQ))
  }

  /** The second has published, and then the first. */
  function Overlapped(k: Cluster): State {
    State(Db(map[1 := WorkspaceRow(1, "a")], map[1 := ROW],
             map[1 := DeploymentRow(1, 1, 1, Queued, None, 0, None, None),
                 2 := DeploymentRow(2, 1, 1, Queued, None, 0, None, None),
                 3 := DeploymentRow(3, 1, 1, Queued, None, 0, None, None)], 2, 2, 4),
          k, [Message(Some(RequestOf(1, 1, "a", REQ)), 0, Open), Message(Some(RequestOf(2, 1, "a", REQ)), 0, Open),
              Message(Some(RequestOf(3, 1, "a", REQ_Y)), 0, Open)],
          Down, map[], 0, map[1 := Published(0), 2 := Published(1), 3 := Published(2)],
          map[1 := Written("a", ROW), 2 := Written("a", ROW), 3 := Written("a", ROW_Y)])
  }

  const SECOND_UPDATE := [BeginUpdate(2, "a", "ab", BACK), Api(2, true), Api(2, true)]

  lemma SecondSees(k: Cluster)
    ensures ApiStep(Next(FirstWritten(k), BeginUpdate(2, "a", "ab", BACK)), 2, true)
         == To(FirstWritten(k), 2, UpdateWrite("a", 1, ROW_Y, "x", "", false))
  {
    ReachFirstWritten(k);
    RunGrounded(k, CALLS + [Api(0, true)] + FIRST_UPDATE);
    var s := FirstWritten(k);
    assert s.d.workspaces[1].slug == "a" && s.d.functions[1].name == "ab";
    FoundWorkspace(s.d, "a");
    FoundFunction(s.d, 1, "ab");
    assert Next(s, BeginUpdate(2, "a", "ab", BACK)) == To(s, 2, UpdateLookup("a", 1, "ab", BACK));
  }

  lemma SecondWrites(k: Cluster)
    ensures ApiStep(To(FirstWritten(k), 2, UpdateWrite("a", 1, ROW_Y, "x", "", false)), 2, true) == BothWritten(k)
  {
    ReachFirstWritten(k);
    RunGrounded(k, CALLS + [Api(0, true)] + FIRST_UPDATE);
    var s := To(FirstWritten(k), 2, UpdateWrite("a", 1, ROW_Y, "x", "", false));
    assert s.d.functions[1].name == "ab";
    FoundFunction(s.d, 1, "ab");
    assert PutFunction(s.d, ROW) == OnePublished(k).d;
  }

  /** Both inserted and published, in the opposite order. */
  /** The second update's deployment is in, and its request out. */
  function SecondPublished(k: Cluster): State {
    State(OnePublished(k).d.(deployments := OnePublished(k).d.deployments[
                               2 := DeploymentRow(2, 1, 1, Queued, None, 0, None, None)], nextDeployment := 3),
          k, [Message(Some(RequestOf(1, 1, "a", REQ)), 0, Open), Message(Some(RequestOf(2, 1, "a", REQ)), 0, Open)],
          Down, map[1 := Enqueue("a", 1, ROW_Y, REQ_Y)], 0, map[1 := Published(0), 2 := Published(1)],
          map[1 := Written("a", ROW), 2 := Written("a", ROW)])
  }

  lemma SecondEnqueues(k: Cluster)
    ensures var s := ApiStep(BothWritten(k), 2, true);
            && s == BothWritten(k).(d := SecondPublished(k).d, calls := s.calls, place := s.place, wrote := s.wrote)
            && s.calls == map[1 := Enqueue("a", 1, ROW_Y, REQ_Y), 2 := Publish(RequestOf(2, 1, "a", REQ))]
            && s.place == map[1 := Published(0), 2 := InCall(2)] && s.wrote == SecondPublished(k).wrote
  {
  }

  lemma SecondPublishes(k: Cluster)
    ensures ApiStep(ApiStep(BothWritten(k), 2, true), 2, true) == SecondPublished(k)
  {
    SecondEnqueues(k);
    var s := ApiStep(BothWritten(k), 2, true);
    assert s.calls - {2} == map[1 := Enqueue("a", 1, ROW_Y, REQ_Y)];
    assert ApiStep(s, 2, true) == PublishTried(s, 2, s.calls[2], true);
  }

  lemma FirstPublishes(k: Cluster, s: State)
    requires s == ApiStep(ApiStep(BothWritten(k), 2, true), 2, true)
    ensures ApiStep(ApiStep(s, 1, true), 1, true) == Overlapped(k)
  {
    SecondPublishes(k);
    var s1 := ApiStep(s, 1, true);
    assert s1.calls == map[1 := Publish(RequestOf(3, 1, "a", REQ_Y))];
    var s2 := ApiStep(s1, 1, true);
    assert s2.calls == map[];
    assert s2.d == Overlapped(k).d;
    assert s2.q == Overlapped(k).q;
  }

  const PUBLISH_BOTH := [Api(2, true), Api(2, true), Api(1, true), Api(1, true)]

  lemma ReachBothWritten(k: Cluster)
    ensures Run(Init(k), CALLS + [Api(0, true)] + FIRST_UPDATE + SECOND_UPDATE) == BothWritten(k)
  {
    ReachFirstWritten(k);
    SecondSees(k);
    SecondWrites(k);
    RunThree(FirstWritten(k), BeginUpdate(2, "a", "ab", BACK), Api(2, true), Api(2, true));
    RunAppend(Init(k), CALLS + [Api(0, true)] + FIRST_UPDATE, SECOND_UPDATE);
  }

  lemma BothWrittenOrderly(k: Cluster)
    ensures OrderlyBut(k, CALLS + [Api(0, true)] + FIRST_UPDATE + SECOND_UPDATE, Overlap)
  {
    var before := CALLS + [Api(0, true)] + FIRST_UPDATE;
    FirstWrittenOrderly(k, Overlap);
    OrderlyButSnoc(k, before, BeginUpdate(2, "a", "ab", BACK), Overlap);
    OrderlyButHarmless(k, before + [BeginUpdate(2, "a", "ab", BACK)], [Api(2, true), Api(2, true)], Overlap);
    assert before + [BeginUpdate(2, "a", "ab", BACK)] + [Api(2, true), Api(2, true)] == before + SECOND_UPDATE;
  }

  lemma ReachOverlapped(k: Cluster) returns (es: seq<Event>)
    ensures Run(Init(k), es) == Overlapped(k) && OrderlyBut(k, es, Overlap)
  {
    var before := CALLS + [Api(0, true)] + FIRST_UPDATE + SECOND_UPDATE;
    ReachBothWritten(k);
    BothWrittenOrderly(k);
    RunFour(BothWritten(k), Api(2, true), Api(2, true), Api(1, true), Api(1, true));
    FirstPublishes(k, ApiStep(ApiStep(BothWritten(k), 2, true), 2, true));
    RunAppend(Init(k), before, PUBLISH_BOTH);
    OrderlyButHarmless(k, before, PUBLISH_BOTH, Overlap);
    es := before + PUBLISH_BOTH;
  }

  /** All but message i acknowledged, message i asking for other code than the row has. */
  lemma LastDecides(s: State, i: nat)
    requires i < |s.q| && s.q[i].body == Some(RequestOf(3, 1, "a", REQ_Y))
    requires forall j | 0 <= j < |s.q| && j != i :: s.q[j].settled.Acked?
    requires s.calls == map[] && s.w.Idle? && s.d.functions == map[1 := ROW] && s.d.workspaces == map[1 := WorkspaceRow(1, "a")]
    ensures Diverged(Processed(s, i, true, SMOOTH.attempt))
  {
    SmoothlyProcessed(s, i);
    ProcessedOnly(s, i, SMOOTH.attempt);
    assert FunctionOf(s.q[i].body.value) == REQ_Y && SpecOfRow(ROW) == REQ;
    OneCodeAtATime(Processed(s, i, true, SMOOTH.attempt).k, Namespace("a"));
  }

  /** One message processed: it is acknowledged and everything else about messages, calls and functions stays. */
  lemma OneDone(s: State, i: nat)
    requires Deliverable(s, i)
    ensures var s' := Processed(s, i, true, SMOOTH.attempt);
            && s' == s.(d := s'.d, k := s'.k, q := s'.q)
            && s'.d.functions == s.d.functions && s'.d.workspaces == s.d.workspaces
            && s'.q == s.q[i := s.q[i].(delivered := s.q[i].delivered + 1, settled := Acked)]
  {
    SmoothlyProcessed(s, i);
    ProcessedOnly(s, i, SMOOTH.attempt);
  }

  /** Messages i and beyond are as they were queued, the ones before acknowledged, and nothing else is going on. */
  ghost predicate DoneUpTo(k: Cluster, s: State, i: nat) {
    && |s.q| == 3 && (forall j | 0 <= j < i && j < 3 :: s.q[j].settled.Acked?)
    && (forall j | i <= j < 3 :: s.q[j] == Overlapped(k).q[j])
    && s.calls == map[] && s.w.Idle? && s.d.functions == map[1 := ROW] && s.d.workspaces == map[1 := WorkspaceRow(1, "a")]
  }

  lemma NextDone(k: Cluster, es: seq<Event>, i: nat) returns (fs: seq<Event>)
    requires i < 3 && DoneUpTo(k, Run(Init(k), es), i) && OrderlyBut(k, es, Overlap)
    ensures Run(Init(k), fs) == Processed(Run(Init(k), es), i, true, SMOOTH.attempt)
    ensures DoneUpTo(k, Run(Init(k), fs), i + 1) && OrderlyBut(k, fs, Overlap)
  {
    var s := Run(Init(k), es);
    assert s.q[i] == Overlapped(k).q[i];
    fs := Process(k, es, i, SMOOTH.attempt, Overlap);
    OneDone(s, i);
  }

  lemma ReachOverlappedIdle(k: Cluster) returns (es: seq<Event>)
    ensures DoneUpTo(k, Run(Init(k), es), 0) && OrderlyBut(k, es, Overlap)
  {
    var before := ReachOverlapped(k);
    BeginWork(k, before, Overlap);
    es := before + [Start([], false)];
  }

  /**
    A run whose only lapse is an update begun while another is in progress: they write the row
    in one order and publish in the other, and with every delivery in turn every message is
    acknowledged and the function runs the first update, not its row.
  */
  lemma {:induction false} OverlappingUpdatesDiverge(k: Cluster) returns (es: seq<Event>)
    ensures Diverged(Run(Init(k), es)) && OrderlyBut(k, es, Overlap) && !OrderlyRun(k, es, TARGET)
  {
    var before := ReachOverlappedIdle(k);
    var one := NextDone(k, before, 0);
    var two := NextDone(k, one, 1);
    assert Run(Init(k), two).q[2] == Overlapped(k).q[2];
    es := NextDone(k, two, 2);
    LastDecides(Run(Init(k), two), 2);
    DivergedIsDisorderly(k, es);
  }
}
