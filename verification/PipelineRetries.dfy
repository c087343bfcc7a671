/**
  Every message's attempts, over whole runs in which anything may happen in between: what the
  message and its row come to is decided by how its attempts ended.
*/
module PipelineRetries {
  import opened Wrappers
  import opened Model
  import opened Tables
  import opened Cluster
  import opened Pipeline
  import opened PipelineTracking
  import opened PipelineStatus
  import opened PipelineSafety
  import opened PipelineDelivery
  import opened PipelineResting

  /** How one executeDeploy for a message ended: to the end, with an error, or with the worker's death. */
  datatype End = Ran | FailedWith(text: string) | Cut

  /** The error executeDeploy returns when its next cluster call goes wrong. */
  function FailText(s: State, luck: Luck): string
    requires s.w.Exec? && CallFails(s, luck)
  {
    var req, o := s.w.req, Outcome(luck.getFails, Failure(luck));
    match s.w.phase
    case ToNamespace => "ensure namespace: " + luck.detail
    case ToRbac => "ensure rbac: " + luck.detail
    case ToConfigMap => "deploy to knative: " + EnsureCode(s.k, req.ns, FunctionOf(req), o).1.value
    case ToService => "deploy to knative: " + EnsureService(s.k, req.ns, FunctionOf(req), o).1.value
    case _ => ""
  }

  predicate Executes(w: Pc, i: nat) {
    w.Exec? && w.src == FromMessage(i)
  }

  /** The end of an attempt for message i, if this event is one. */
  function EndOf(s: State, e: Event, i: nat): seq<End> {
    if !Executes(s.w, i) then []
    else
      match e
      case Crash => [Cut]
      case Work(luck) =>
        if s.w.phase == ToRunning then [Ran]
        else if CallFails(s, luck) then [FailedWith(FailText(s, luck))]
        else []
      case _ => []
  }

  /** The ends of all attempts for message i, in order. */
  ghost function Ends(k: Cluster, es: seq<Event>, i: nat): seq<End> {
    if es == [] then []
    else
      var init := es[..|es| - 1];
      Ends(k, init, i) + EndOf(Run(Init(k), init), es[|es| - 1], i)
  }

  // ----- what a message's attempts have come to -----

  ghost predicate RowRuns(d: Db, id: int) {
    id in d.deployments ==> d.deployments[id].status == Running
  }

  ghost predicate RowFailedWith(d: Db, id: int, text: string) {
    id in d.deployments ==> d.deployments[id].status == Failed && d.deployments[id].error == Some(text)
  }

  /** The last attempt, and the row, suit the answer. */
  ghost predicate Suits(d: Db, id: int, ends: seq<End>, to: Settlement) {
    match to
    case Open => true
    case Acked => ends != [] && ends[|ends| - 1] == Ran && RowRuns(d, id)
    case Termed => |ends| == MAX_DELIVER && ends[|ends| - 1].FailedWith? && RowFailedWith(d, id, ends[|ends| - 1].text)
  }

  ghost predicate WorkSuits(s: State, ends: seq<End>, i: nat, id: int) {
    match s.w
    case Failing(x, text, src) =>
      src == FromMessage(i) ==> x == id && |ends| == MAX_DELIVER && ends[|ends| - 1] == FailedWith(text)
    case Settling(j, to) => j == i ==> Suits(s.d, id, ends, to)
    case _ => true
  }

  /** Each delivery is an attempt that has ended or the one under way; a settled message's row is at rest. */
  ghost predicate Accounted(s: State, ends: seq<End>, i: nat) {
    if i >= |s.q| then ends == []
    else if s.q[i].body.None? then ends == [] && !Executes(s.w, i)
    else
      var id := s.q[i].body.value.deploymentId;
      && s.q[i].delivered == |ends| + (if Executes(s.w, i) then 1 else 0)
      && s.q[i].delivered <= MAX_DELIVER
      && Suits(s.d, id, ends, s.q[i].settled) && (!s.q[i].settled.Open? ==> Resting(s, id))
      && WorkSuits(s, ends, i, id)
  }

  // ----- steps of others -----

  /** Nothing Accounted looks at has moved, apart from rows that have gone. */
  ghost predicate Apart(s: State, s': State, i: nat) {
    && s'.w == s.w && |s.q| <= |s'.q| && (i < |s.q| ==> s'.q[i] == s.q[i])
    && (|s.q| <= i < |s'.q| ==> s'.q[i].settled.Open? && s'.q[i].delivered == 0)
    && (i < |s.q| && s.q[i].body.Some? ==>
          var id := s.q[i].body.value.deploymentId;
          RowStays(s, s', id) && (Resting(s, id) ==> Resting(s', id)))
  }

  lemma ApartAccounted(s: State, s': State, ends: seq<End>, i: nat)
    requires Tracked(s) && Accounted(s, ends, i) && Apart(s, s', i)
    ensures Accounted(s', ends, i)
  {
  }

  lemma KeptApart(s: State, s': State, i: nat)
    requires Placed(s) && RowsKept(s, s') && QueueKept(s, s') && MessagesPlaced(s)
    requires forall id | Resting(s, id) :: Resting(s', id)
    ensures Apart(s, s', i)
  {
    if i < |s.q| {
      assert s'.q[i] == s'.q[..|s.q|][i];
    }
  }

  lemma ApiApart(s: State, c: nat, ok: bool, i: nat)
    requires Tracked(s)
    ensures Apart(s, ApiStep(s, c, ok), i)
  {
    if c in s.calls {
      forall id | Resting(s, id)
        ensures Resting(ApiStep(s, c, ok), id)
      {
        ApiStepResting(s, c, ok, id);
      }
      if s.calls[c].Compensate? {
        assert Pending(s.calls[c]) == Some(s.calls[c].id);
        assert s.place[s.calls[c].id] == InCall(c);
      } else {
        ApiStepRowsKept(s, c, ok);
        ApiStepQueueKept(s, c, ok);
        KeptApart(s, ApiStep(s, c, ok), i);
      }
    }
  }

  lemma EventApart(s: State, e: Event, i: nat)
    requires Tracked(s)
    requires e.BeginCreate? || e.BeginUpdate? || e.BeginDelete? || e.CreateWorkspace? || e.Garbage? || e.Tick?
             || e.BeginDeleteWorkspace? || e.Abandon?
    ensures Apart(s, Next(s, e), i)
  {
    forall id | Resting(s, id)
      ensures Resting(Next(s, e), id)
    {
      EventResting(s, e, id);
    }
    QuietEventRowsKept(s, e);
    EventQueueKept(s, e);
    KeptApart(s, Next(s, e), i);
  }

  // ----- steps of the worker -----

  /** The worker moves without touching message i or its row, and is not on message i before or after. */
  ghost predicate Elsewhere(s: State, s': State, i: nat) {
    && !WorksOn(s.w, i) && !WorksOn(s'.w, i) && |s'.q| == |s.q|
    && (i < |s.q| ==> s'.q[i] == s.q[i])
    && (i < |s.q| && s.q[i].body.Some? && !s.q[i].settled.Open? ==>
          var id := s.q[i].body.value.deploymentId; RowStays(s, s', id) && Resting(s', id))
  }

  lemma ElsewhereAccounted(s: State, s': State, ends: seq<End>, i: nat)
    requires Accounted(s, ends, i) && Elsewhere(s, s', i)
    ensures Accounted(s', ends, i)
  {
  }

  lemma SettledRests(s: State, e: Event, ends: seq<End>, i: nat)
    requires Tracked(s) && Budgeted(s) && Accounted(s, ends, i)
    requires i < |s.q| && s.q[i].body.Some? && !s.q[i].settled.Open?
    ensures var id := s.q[i].body.value.deploymentId; Resting(Next(s, e), id) && RowStays(s, Next(s, e), id)
  {
    RestingStays(s, e, s.q[i].body.value.deploymentId);
  }

  /** After a step of executeDeploy the worker is on the message it was on, or on none. */
  lemma ExecStaysPut(s: State, luck: Luck, i: nat)
    requires s.w.Exec? && s.w.src != FromMessage(i)
    ensures !WorksOn(ExecStep(s, luck).w, i) && ExecStep(s, luck).q == s.q
  {
    ExecStepMoves(s, luck);
    ExecStepFrame(s, luck);
  }

  lemma ExecElsewhere(s: State, luck: Luck, ends: seq<End>, i: nat)
    requires Tracked(s) && Budgeted(s) && Accounted(s, ends, i) && s.w.Exec? && s.w.src != FromMessage(i)
    ensures Accounted(ExecStep(s, luck), ends, i)
  {
    ExecStaysPut(s, luck, i);
    if i < |s.q| && s.q[i].body.Some? && !s.q[i].settled.Open? {
      ExecStepResting(s, luck, s.q[i].body.value.deploymentId);
    }
    ElsewhereAccounted(s, ExecStep(s, luck), ends, i);
  }

  lemma StatusAccounted(s: State, status: DeployStatus, w: Pc, ends: seq<End>, i: nat)
    requires Tracked(s) && Budgeted(s) && Accounted(s, ends, i) && Executes(s.w, i)
    requires Executes(w, i)
    ensures Accounted(StatusWritten(s, status, s.w.req.deploymentId, w), ends, i)
  {
    assert WorksOn(s.w, i);
  }

  lemma RanAccounted(s: State, ends: seq<End>, i: nat)
    requires Tracked(s) && Budgeted(s) && Accounted(s, ends, i) && Executes(s.w, i)
    ensures Accounted(StatusWritten(s, Running, s.w.req.deploymentId, Settling(i, Acked)), ends + [Ran], i)
  {
    assert WorksOn(s.w, i);
  }

  lemma CalledAccounted(s: State, k: Cluster, err: Option<string>, what: string, next: Phase, luck: Luck,
                        ends: seq<End>, i: nat)
    requires Tracked(s) && Budgeted(s) && Accounted(s, ends, i) && Executes(s.w, i)
    ensures Accounted(ClusterCalled(s, k, err, what, next, luck),
                      if err.Some? then ends + [FailedWith(what + err.value)] else ends, i)
  {
    assert WorksOn(s.w, i);
  }

  lemma ExecAccounted(s: State, luck: Luck, ends: seq<End>, i: nat)
    requires Tracked(s) && Budgeted(s) && Accounted(s, ends, i) && Executes(s.w, i)
    ensures Accounted(ExecStep(s, luck), ends + EndOf(s, Work(luck), i), i)
  {
    var req, o := s.w.req, Outcome(luck.getFails, Failure(luck));
    assert ends + [] == ends;
    match s.w.phase
    case ToBuilding => StatusAccounted(s, Building, s.w.(phase := ToNamespace), ends, i);
    case ToDeploying => StatusAccounted(s, Deploying, s.w.(phase := ToConfigMap), ends, i);
    case ToRunning => RanAccounted(s, ends, i);
    case ToNamespace =>
      CalledAccounted(s, if luck.ok then s.k.(namespaces := s.k.namespaces + {req.ns}) else s.k, Failure(luck),
                      "ensure namespace: ", ToRbac, luck, ends, i);
    case ToRbac => CalledAccounted(s, s.k, Failure(luck), "ensure rbac: ", ToDeploying, luck, ends, i);
    case ToConfigMap =>
      var (k, err) := EnsureCode(s.k, req.ns, FunctionOf(req), o);
      CalledAccounted(s, k, err, "deploy to knative: ", ToService, luck, ends, i);
    case ToService =>
      var (k, err) := EnsureService(s.k, req.ns, FunctionOf(req), o);
      CalledAccounted(s, k, err, "deploy to knative: ", ToRunning, luck, ends, i);
  }

  lemma ErrorAccounted(s: State, ends: seq<End>, i: nat)
    requires Tracked(s) && Budgeted(s) && Accounted(s, ends, i) && s.w.Failing?
    ensures Accounted(ErrorRecorded(s, s.w.id, s.w.text, s.w.src), ends, i)
  {
    var s' := ErrorRecorded(s, s.w.id, s.w.text, s.w.src);
    if s.w.src == FromMessage(i) {
      assert WorksOn(s.w, i);
    } else {
      if i < |s.q| && s.q[i].body.Some? && !s.q[i].settled.Open? {
        ErrorResting(s, s.q[i].body.value.deploymentId);
      }
      ElsewhereAccounted(s, s', ends, i);
    }
  }

  lemma SettledAccounted(s: State, ok: bool, ends: seq<End>, i: nat)
    requires Tracked(s) && Budgeted(s) && Accounted(s, ends, i) && s.w.Settling?
    ensures Accounted(Settled(s, s.w.i, s.w.to, ok), ends, i)
  {
    if s.w.i == i && i < |s.q| && s.q[i].body.Some? {
      assert s.place[s.q[i].body.value.deploymentId] == Published(i);
    }
  }

  lemma SweepAccounted(s: State, luck: Luck, ends: seq<End>, i: nat)
    requires Tracked(s) && Budgeted(s) && Accounted(s, ends, i) && (s.w.SweepNext? || s.w.SweepFunction?)
    ensures Accounted(Worked(s, luck), ends, i)
  {
    if i < |s.q| && s.q[i].body.Some? && !s.q[i].settled.Open? {
      SweepResting(s, luck, s.q[i].body.value.deploymentId);
    }
    ElsewhereAccounted(s, Worked(s, luck), ends, i);
  }

  lemma WorkedAccounted(s: State, luck: Luck, ends: seq<End>, i: nat)
    requires Tracked(s) && Budgeted(s) && Accounted(s, ends, i)
    ensures Accounted(Worked(s, luck), ends + EndOf(s, Work(luck), i), i)
  {
    assert ends + [] == ends;
    match s.w
    case Exec(_, _, src) =>
      if src == FromMessage(i) {
        ExecAccounted(s, luck, ends, i);
      } else {
        ExecElsewhere(s, luck, ends, i);
      }
    case Failing(_, _, _) => ErrorAccounted(s, ends, i);
    case Settling(_, _) => SettledAccounted(s, luck.ok, ends, i);
    case SweepNext(_) => SweepAccounted(s, luck, ends, i);
    case SweepFunction(_, _, _) => SweepAccounted(s, luck, ends, i);
    case Idle =>
    case Down =>
  }

  lemma DeliveredAccounted(s: State, j: nat, ends: seq<End>, i: nat)
    requires Tracked(s) && Budgeted(s) && Accounted(s, ends, i)
    ensures Accounted(Delivered(s, j), ends, i)
  {
    if i < |s.q| && s.q[i].body.Some? && !s.q[i].settled.Open? {
      DeliveredResting(s, j, s.q[i].body.value.deploymentId);
    }
  }

  lemma StartedAccounted(s: State, listing: seq<ListedRow>, listed: bool, ends: seq<End>, i: nat)
    requires Tracked(s) && Budgeted(s) && Accounted(s, ends, i)
    ensures Accounted(Started(s, listing, listed), ends, i)
  {
    if i < |s.q| && s.q[i].body.Some? && !s.q[i].settled.Open? {
      StartedResting(s, listing, listed, s.q[i].body.value.deploymentId);
    }
  }

  lemma CrashAccounted(s: State, ends: seq<End>, i: nat)
    requires Tracked(s) && Budgeted(s) && Accounted(s, ends, i)
    ensures Accounted(s.(w := Down), ends + EndOf(s, Crash, i), i)
  {
    assert ends + [] == ends;
    if Executes(s.w, i) {
      assert WorksOn(s.w, i);
    }
  }

  /** Whatever happens next, the message's attempts still account for its deliveries, its settlement and its row. */
  lemma {:induction false} StepAccounted(s: State, e: Event, ends: seq<End>, i: nat)
    requires Tracked(s) && Budgeted(s) && Accounted(s, ends, i)
    ensures Accounted(Next(s, e), ends + EndOf(s, e, i), i)
  {
    assert ends + [] == ends;
    match e
    case Api(c, ok) =>
      ApiApart(s, c, ok, i);
      ApartAccounted(s, ApiStep(s, c, ok), ends, i);
    case Work(luck) => WorkedAccounted(s, luck, ends, i);
    case Start(listing, listed) => StartedAccounted(s, listing, listed, ends, i);
    case Deliver(j) => DeliveredAccounted(s, j, ends, i);
    case Crash => CrashAccounted(s, ends, i);
    case _ =>
      EventApart(s, e, i);
      ApartAccounted(s, Next(s, e), ends, i);
  }

  // ----- whole runs -----

  lemma {:induction false} RunAccounted(k: Cluster, es: seq<Event>, i: nat)
    ensures Tracked(Run(Init(k), es)) && Budgeted(Run(Init(k), es))
    ensures Accounted(Run(Init(k), es), Ends(k, es, i), i)
  {
    RunTracked(k, es);
    assert es[..|es|] == es;
    StrandedUpTo(k, es, |es|, i);
    if es != [] {
      var init := es[..|es| - 1];
      RunAccounted(k, init, i);
      StepAccounted(Run(Init(k), init), es[|es| - 1], Ends(k, init, i), i);
    }
  }

  /** The message carries a request. */
  ghost predicate Request(s: State, i: nat) {
    i < |s.q| && s.q[i].body.Some?
  }

  /**
    In every reachable state, over any interleaving with API calls, other messages, crashes,
    sweeps and redeliveries: a message's deliveries are its attempts, ended or under way; if it
    is acknowledged its last attempt ran to the end and its row, if still there, reads running;
    if it is terminated it has had four attempts, the last of them failed, and its row, if still
    there, reads failed with the error of that attempt.
  */
  lemma {:induction false} AnsweredMessages(k: Cluster, es: seq<Event>, i: nat)
    requires Request(Run(Init(k), es), i)
    ensures var s, ends := Run(Init(k), es), Ends(k, es, i);
            && s.q[i].delivered == |ends| + (if Executes(s.w, i) then 1 else 0)
            && Suits(s.d, s.q[i].body.value.deploymentId, ends, s.q[i].settled)
  {
    RunAccounted(k, es, i);
  }

  // ----- without losses -----

  /** The worker dies on the message, cannot settle it, or cannot read its count after the fourth failure. */
  predicate Loses(s: State, e: Event, i: nat) {
    && i < |s.q| && WorksOn(s.w, i)
    && match e
       case Crash => true
       case Work(luck) =>
         || (s.w.Settling? && !luck.ok)
         || (s.w.Exec? && !luck.meta && CallFails(s, luck) && s.q[i].delivered >= MAX_DELIVER)
       case _ => false
  }

  ghost predicate LosesAt(k: Cluster, es: seq<Event>, n: nat, i: nat)
    requires n < |es|
  {
    Loses(StateAt(k, es, n), es[n], i)
  }

  ghost predicate NothingLost(k: Cluster, es: seq<Event>, i: nat) {
    forall n | 0 <= n < |es| :: !LosesAt(k, es, n, i)
  }

  /** Only the last attempt can have succeeded, and what has ended is being answered. */
  ghost predicate Prompt(s: State, ends: seq<End>, i: nat) {
    && (forall j | 0 <= j < |ends| :: !ends[j].Cut?)
    && (forall j | 0 <= j < |ends| - 1 :: ends[j].FailedWith?)
    && (ends != [] && i < |s.q| ==>
          && (ends[|ends| - 1] == Ran ==> s.w == Settling(i, Acked) || !s.q[i].settled.Open?)
          && (|ends| == MAX_DELIVER && ends[|ends| - 1].FailedWith? ==>
                WorksOn(s.w, i) || !s.q[i].settled.Open?))
  }

  lemma NotWorkedPrompt(s: State, s': State, ends: seq<End>, i: nat)
    requires Prompt(s, ends, i) && |s.q| <= |s'.q|
    requires i < |s.q| ==> (s.q[i].settled.Open? <==> s'.q[i].settled.Open?)
    requires i >= |s.q| ==> ends == []
    requires s'.w == s.w || !WorksOn(s.w, i)
    ensures Prompt(s', ends, i)
  {
  }

  lemma StatusPrompt(s: State, s': State, ends: seq<End>, i: nat)
    requires Accounted(s, ends, i) && Budgeted(s) && Prompt(s, ends, i) && Executes(s.w, i) && Executes(s'.w, i) && s'.q == s.q
    ensures Prompt(s', ends, i)
  {
    assert WorksOn(s.w, i);
  }

  lemma RanPrompt(s: State, s': State, ends: seq<End>, i: nat)
    requires Tracked(s) && Accounted(s, ends, i) && Budgeted(s) && Prompt(s, ends, i) && Executes(s.w, i)
    requires s'.w == Settling(i, Acked) && s'.q == s.q
    ensures Prompt(s', ends + [Ran], i)
  {
    assert WorksOn(s.w, i);
    EarlierFailed(s, ends, i);
  }

  /** While an attempt is under way, all that have ended failed. */
  lemma EarlierFailed(s: State, ends: seq<End>, i: nat)
    requires Tracked(s) && Budgeted(s) && Accounted(s, ends, i) && Prompt(s, ends, i) && Executes(s.w, i)
    ensures forall j | 0 <= j < |ends| :: ends[j].FailedWith?
    ensures |ends| < MAX_DELIVER
  {
    assert WorksOn(s.w, i);
    if ends != [] {
      assert ends[|ends| - 1] != Ran;
    }
  }

  lemma CalledPrompt(s: State, k: Cluster, err: Option<string>, what: string, next: Phase, luck: Luck,
                     ends: seq<End>, i: nat)
    requires Tracked(s) && Accounted(s, ends, i) && Budgeted(s) && Prompt(s, ends, i) && Executes(s.w, i)
    requires err.Some? ==> luck.meta || s.q[i].delivered < MAX_DELIVER
    ensures Prompt(ClusterCalled(s, k, err, what, next, luck),
                   if err.Some? then ends + [FailedWith(what + err.value)] else ends, i)
  {
    assert WorksOn(s.w, i);
    EarlierFailed(s, ends, i);
  }

  lemma ExecPrompt(s: State, luck: Luck, ends: seq<End>, i: nat)
    requires Tracked(s) && Accounted(s, ends, i) && Budgeted(s) && Prompt(s, ends, i) && Executes(s.w, i)
    requires !Loses(s, Work(luck), i)
    ensures Prompt(ExecStep(s, luck), ends + EndOf(s, Work(luck), i), i)
  {
    var req, o := s.w.req, Outcome(luck.getFails, Failure(luck));
    assert ends + [] == ends;
    match s.w.phase
    case ToBuilding => StatusPrompt(s, ExecStep(s, luck), ends, i);
    case ToDeploying => StatusPrompt(s, ExecStep(s, luck), ends, i);
    case ToRunning => RanPrompt(s, ExecStep(s, luck), ends, i);
    case ToNamespace =>
      CalledPrompt(s, if luck.ok then s.k.(namespaces := s.k.namespaces + {req.ns}) else s.k, Failure(luck),
                   "ensure namespace: ", ToRbac, luck, ends, i);
    case ToRbac => CalledPrompt(s, s.k, Failure(luck), "ensure rbac: ", ToDeploying, luck, ends, i);
    case ToConfigMap =>
      var (k, err) := EnsureCode(s.k, req.ns, FunctionOf(req), o);
      CalledPrompt(s, k, err, "deploy to knative: ", ToService, luck, ends, i);
    case ToService =>
      var (k, err) := EnsureService(s.k, req.ns, FunctionOf(req), o);
      CalledPrompt(s, k, err, "deploy to knative: ", ToRunning, luck, ends, i);
  }

  lemma WorkedPrompt(s: State, luck: Luck, ends: seq<End>, i: nat)
    requires Tracked(s) && Accounted(s, ends, i) && Budgeted(s) && Prompt(s, ends, i) && !Loses(s, Work(luck), i)
    ensures Prompt(Worked(s, luck), ends + EndOf(s, Work(luck), i), i)
  {
    assert ends + [] == ends;
    match s.w
    case Exec(_, _, src) =>
      if src == FromMessage(i) {
        ExecPrompt(s, luck, ends, i);
      } else {
        ExecStaysPut(s, luck, i);
        NotWorkedPrompt(s, ExecStep(s, luck), ends, i);
      }
    case Failing(_, _, _) => ErrorPrompt(s, ends, i);
    case Settling(_, _) => SettledPrompt(s, luck.ok, ends, i);
    case SweepNext(_) => NotWorkedPrompt(s, Worked(s, luck), ends, i);
    case SweepFunction(_, _, _) => NotWorkedPrompt(s, Worked(s, luck), ends, i);
    case Idle =>
    case Down =>
  }

  lemma ErrorPrompt(s: State, ends: seq<End>, i: nat)
    requires Accounted(s, ends, i) && Prompt(s, ends, i) && s.w.Failing?
    ensures Prompt(ErrorRecorded(s, s.w.id, s.w.text, s.w.src), ends, i)
  {
  }

  lemma SettledPrompt(s: State, ok: bool, ends: seq<End>, i: nat)
    requires Tracked(s) && Budgeted(s) && Prompt(s, ends, i) && s.w.Settling? && (s.w.i == i ==> ok)
    ensures Prompt(Settled(s, s.w.i, s.w.to, ok), ends, i)
  {
  }

  lemma DeliveredPrompt(s: State, j: nat, ends: seq<End>, i: nat)
    requires Accounted(s, ends, i) && Prompt(s, ends, i)
    ensures Prompt(Delivered(s, j), ends, i)
  {
    NotWorkedPrompt(s, Delivered(s, j), ends, i);
  }

  lemma StartedPrompt(s: State, listing: seq<ListedRow>, listed: bool, ends: seq<End>, i: nat)
    requires Accounted(s, ends, i) && Prompt(s, ends, i)
    ensures Prompt(Started(s, listing, listed), ends, i)
  {
    NotWorkedPrompt(s, Started(s, listing, listed), ends, i);
  }

  lemma ApartPrompt(s: State, s': State, ends: seq<End>, i: nat)
    requires Accounted(s, ends, i) && Prompt(s, ends, i) && Apart(s, s', i)
    ensures Prompt(s', ends, i)
  {
    NotWorkedPrompt(s, s', ends, i);
  }

  lemma CrashPrompt(s: State, ends: seq<End>, i: nat)
    requires Tracked(s) && Accounted(s, ends, i) && Prompt(s, ends, i) && !Loses(s, Crash, i)
    ensures Prompt(s.(w := Down), ends + EndOf(s, Crash, i), i)
  {
    assert ends + [] == ends;
    if i < |s.q| {
      NotWorkedPrompt(s, s.(w := Down), ends, i);
    }
  }

  lemma {:induction false} StepPrompt(s: State, e: Event, ends: seq<End>, i: nat)
    requires Tracked(s) && Budgeted(s) && Accounted(s, ends, i) && Prompt(s, ends, i) && !Loses(s, e, i)
    ensures Prompt(Next(s, e), ends + EndOf(s, e, i), i)
  {
    assert ends + [] == ends;
    match e
    case Api(c, ok) =>
      ApiApart(s, c, ok, i);
      ApartPrompt(s, ApiStep(s, c, ok), ends, i);
    case Work(luck) => WorkedPrompt(s, luck, ends, i);
    case Start(listing, listed) => StartedPrompt(s, listing, listed, ends, i);
    case Deliver(j) => DeliveredPrompt(s, j, ends, i);
    case Crash => CrashPrompt(s, ends, i);
    case _ =>
      EventApart(s, e, i);
      ApartPrompt(s, Next(s, e), ends, i);
  }

  lemma PromptAt(k: Cluster, es: seq<Event>, n: nat, i: nat)
    requires n < |es| && NothingLost(k, es, i) && Prompt(StateAt(k, es, n), Ends(k, es[..n], i), i)
    ensures Prompt(StateAt(k, es, n + 1), Ends(k, es[..n + 1], i), i)
  {
    RunAccounted(k, es[..n], i);
    StateAtNext(k, es, n);
    assert !LosesAt(k, es, n, i);
    StepPrompt(StateAt(k, es, n), es[n], Ends(k, es[..n], i), i);
    assert es[..n + 1][..n] == es[..n];
  }

  lemma {:induction false} RunPrompt(k: Cluster, es: seq<Event>, n: nat, i: nat)
    requires n <= |es| && NothingLost(k, es, i)
    ensures Prompt(StateAt(k, es, n), Ends(k, es[..n], i), i)
    decreases n
  {
    if n == 0 {
      assert es[..0] == [];
    } else {
      RunPrompt(k, es, n - 1, i);
      PromptAt(k, es, n - 1, i);
    }
  }

  ghost predicate AllFailed(ends: seq<End>) {
    forall j | 0 <= j < |ends| :: ends[j].FailedWith?
  }

  /**
    The retry law, with anything else going on in between: of a message of which nothing is
    lost and which is not being worked on, the attempts are as many as its deliveries, at most
    four, and all but the last failed.  It is acknowledged, its row running, exactly when one
    succeeded; terminated, its row failed with the last error, exactly when four failed; and
    otherwise open with deliveries left.
  */
  lemma {:induction false} RetryOutcome(k: Cluster, es: seq<Event>, i: nat)
    requires NothingLost(k, es, i) && Request(Run(Init(k), es), i) && !WorksOn(Run(Init(k), es).w, i)
    ensures var s, ends := Run(Init(k), es), Ends(k, es, i);
            var id, n := s.q[i].body.value.deploymentId, |ends|;
            && s.q[i].delivered == n <= MAX_DELIVER && (n > 0 ==> AllFailed(ends[..n - 1]))
            && (s.q[i].settled.Acked? <==> exists j | 0 <= j < n :: ends[j] == Ran)
            && (s.q[i].settled.Termed? <==> n == MAX_DELIVER && AllFailed(ends))
            && (s.q[i].settled.Open? <==> n < MAX_DELIVER && AllFailed(ends))
            && (s.q[i].settled.Acked? ==> ends[n - 1] == Ran && RowRuns(s.d, id))
            && (s.q[i].settled.Termed? ==> RowFailedWith(s.d, id, ends[n - 1].text))
  {
    assert es[..|es|] == es;
    RunAccounted(k, es, i);
    RunPrompt(k, es, |es|, i);
    OutcomeOfPrompt(Run(Init(k), es), Ends(k, es, i), i);
  }

  lemma OutcomeOfPrompt(s: State, ends: seq<End>, i: nat)
    requires Accounted(s, ends, i) && Prompt(s, ends, i) && Request(s, i) && !WorksOn(s.w, i)
    ensures var id, n := s.q[i].body.value.deploymentId, |ends|;
            && s.q[i].delivered == n <= MAX_DELIVER && (n > 0 ==> AllFailed(ends[..n - 1]))
            && (s.q[i].settled.Acked? <==> exists j | 0 <= j < n :: ends[j] == Ran)
            && (s.q[i].settled.Termed? <==> n == MAX_DELIVER && AllFailed(ends))
            && (s.q[i].settled.Open? <==> n < MAX_DELIVER && AllFailed(ends))
            && (s.q[i].settled.Acked? ==> ends[n - 1] == Ran && RowRuns(s.d, id))
            && (s.q[i].settled.Termed? ==> RowFailedWith(s.d, id, ends[n - 1].text))
  {
    var n := |ends|;
    if n > 0 && ends[n - 1] == Ran {
      assert exists j | 0 <= j < n :: ends[j] == Ran;
    }
    assert n > 0 && ends[n - 1].FailedWith? ==> AllFailed(ends);
    assert AllFailed(ends) ==> forall j | 0 <= j < n :: ends[j] != Ran;
  }
}
