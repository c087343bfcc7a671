/**
  Deliveries over whole runs: a message is handed out at most four times, and it uses them up
  unsettled exactly when its fourth delivery is lost.
*/
module PipelineDelivery {
  import opened Wrappers
  import opened Model
  import opened Cluster
  import opened Pipeline
  import opened PipelineTracking
  import opened PipelineSafety

  predicate WorksOn(w: Pc, i: nat) {
    match w
    case Exec(_, _, src) => src == FromMessage(i)
    case Failing(_, _, src) => src == FromMessage(i)
    case Settling(j, _) => j == i
    case _ => false
  }

  /** Not settled, never to be delivered again, and nobody is working on it. */
  predicate Stranded(s: State, i: nat) {
    i < |s.q| && s.q[i].settled.Open? && s.q[i].delivered >= MAX_DELIVER && !WorksOn(s.w, i)
  }

  /** The cluster call that executeDeploy makes next goes wrong. */
  predicate CallFails(s: State, luck: Luck)
    requires s.w.Exec?
  {
    var req, o := s.w.req, Outcome(luck.getFails, Failure(luck));
    match s.w.phase
    case ToNamespace => !luck.ok
    case ToRbac => !luck.ok
    case ToConfigMap => EnsureCode(s.k, req.ns, FunctionOf(req), o).1.Some?
    case ToService => EnsureService(s.k, req.ns, FunctionOf(req), o).1.Some?
    case _ => false
  }

  /** The worker dies, cannot settle, or cannot tell how often the message was delivered, on its last delivery. */
  predicate LosesLast(s: State, e: Event, i: nat) {
    && i < |s.q| && s.q[i].settled.Open? && s.q[i].delivered >= MAX_DELIVER && WorksOn(s.w, i)
    && match e
       case Crash => true
       case Work(luck) =>
         (s.w.Settling? && !luck.ok) || (s.w.Exec? && !luck.meta && CallFails(s, luck))
       case _ => false
  }

  /** No message has had more than its four deliveries, and what the worker works on is open. */
  ghost predicate Budgeted(s: State) {
    && (forall i | 0 <= i < |s.q| :: s.q[i].delivered <= MAX_DELIVER)
    && (forall i | 0 <= i < |s.q| && WorksOn(s.w, i) :: s.q[i].settled.Open?)
    && (s.w.Settling? ==> !s.w.to.Open?)
  }

  ghost predicate QueueKept(s: State, s': State) {
    && s'.w == s.w && |s.q| <= |s'.q| && s'.q[..|s.q|] == s.q
    && (forall i | |s.q| <= i < |s'.q| :: s'.q[i].settled.Open? && s'.q[i].delivered == 0)
  }

  lemma QueueKeptBudget(s: State, s': State, i: nat)
    requires Budgeted(s) && QueueKept(s, s')
    ensures Budgeted(s') && (Stranded(s', i) <==> Stranded(s, i))
  {
    assert forall j | 0 <= j < |s.q| :: s'.q[j] == s'.q[..|s.q|][j];
  }

  lemma ApiStepQueueKept(s: State, c: nat, ok: bool)
    ensures QueueKept(s, ApiStep(s, c, ok))
  {
    if c in s.calls {
      if !HoldsRequest(s.calls[c], ok) {
        QuietApiStep(s, c, ok);
      }
    }
  }

  lemma EventQueueKept(s: State, e: Event)
    requires !e.Work? && !e.Deliver? && !e.Start? && !e.Crash?
    ensures QueueKept(s, Next(s, e))
  {
    if e.Api? {
      ApiStepQueueKept(s, e.c, e.ok);
    }
  }

  lemma StatusWrittenBudget(s: State, status: DeployStatus, w: Pc, i: nat)
    requires Budgeted(s) && s.w.Exec?
    requires (w.Exec? && w.src == s.w.src) || w == AfterSuccess(s.w.src)
    ensures var s' := StatusWritten(s, status, s.w.req.deploymentId, w);
            Budgeted(s') && (Stranded(s', i) <==> Stranded(s, i))
  {
    assert forall j | 0 <= j < |s.q| :: WorksOn(w, j) == WorksOn(s.w, j);
  }

  lemma ClusterCalledBudget(s: State, k: Cluster, err: Option<string>, what: string, next: Phase, luck: Luck, i: nat)
    requires Budgeted(s) && s.w.Exec?
    ensures var s' := ClusterCalled(s, k, err, what, next, luck);
            && Budgeted(s')
            && (Stranded(s', i) <==>
                  Stranded(s, i)
                  || (err.Some? && !luck.meta && i < |s.q| && s.q[i].settled.Open? && s.q[i].delivered >= MAX_DELIVER
                      && WorksOn(s.w, i)))
  {
    var s' := ClusterCalled(s, k, err, what, next, luck);
    assert forall j | WorksOn(s'.w, j) :: WorksOn(s.w, j);
  }

  /** Each phase either stays on the request, fails, or is done. */
  lemma ExecStepBudget(s: State, luck: Luck, i: nat)
    requires Budgeted(s) && s.w.Exec?
    ensures Budgeted(ExecStep(s, luck))
    ensures Stranded(ExecStep(s, luck), i) <==> Stranded(s, i) || LosesLast(s, Work(luck), i)
  {
    var req, o := s.w.req, Outcome(luck.getFails, Failure(luck));
    match s.w.phase
    case ToBuilding => StatusWrittenBudget(s, Building, s.w.(phase := ToNamespace), i);
    case ToDeploying => StatusWrittenBudget(s, Deploying, s.w.(phase := ToConfigMap), i);
    case ToRunning => StatusWrittenBudget(s, Running, AfterSuccess(s.w.src), i);
    case ToNamespace =>
      ClusterCalledBudget(s, if luck.ok then s.k.(namespaces := s.k.namespaces + {req.ns}) else s.k, Failure(luck),
                          "ensure namespace: ", ToRbac, luck, i);
    case ToRbac => ClusterCalledBudget(s, s.k, Failure(luck), "ensure rbac: ", ToDeploying, luck, i);
    case ToConfigMap =>
      var (k, err) := EnsureCode(s.k, req.ns, FunctionOf(req), o);
      ClusterCalledBudget(s, k, err, "deploy to knative: ", ToService, luck, i);
    case ToService =>
      var (k, err) := EnsureService(s.k, req.ns, FunctionOf(req), o);
      ClusterCalledBudget(s, k, err, "deploy to knative: ", ToRunning, luck, i);
  }

  lemma SettledBudget(s: State, luck: Luck, i: nat)
    requires Budgeted(s) && s.w.Settling?
    ensures var s' := Settled(s, s.w.i, s.w.to, luck.ok);
            Budgeted(s') && (Stranded(s', i) <==> Stranded(s, i) || LosesLast(s, Work(luck), i))
  {
  }

  lemma BetweenBudget(s: State, luck: Luck, i: nat)
    requires Budgeted(s) && !s.w.Exec? && !s.w.Settling?
    ensures Budgeted(Worked(s, luck))
    ensures Stranded(Worked(s, luck), i) <==> Stranded(s, i)
    ensures !LosesLast(s, Work(luck), i)
  {
  }

  lemma WorkedBudget(s: State, luck: Luck, i: nat)
    requires Budgeted(s)
    ensures Budgeted(Worked(s, luck))
    ensures Stranded(Worked(s, luck), i) <==> Stranded(s, i) || LosesLast(s, Work(luck), i)
  {
    if s.w.Exec? {
      ExecStepBudget(s, luck, i);
    } else if s.w.Settling? {
      SettledBudget(s, luck, i);
    } else {
      BetweenBudget(s, luck, i);
    }
  }

  /** One step strands a message exactly by losing its last delivery. */
  lemma {:induction false} StepStrands(s: State, e: Event, i: nat)
    requires Budgeted(s)
    ensures Budgeted(Next(s, e))
    ensures Stranded(Next(s, e), i) <==> Stranded(s, i) || LosesLast(s, e, i)
  {
    match e
    case Work(luck) => WorkedBudget(s, luck, i);
    case Deliver(_) =>
    case Start(_, _) =>
    case Crash =>
    case _ =>
      EventQueueKept(s, e);
      QueueKeptBudget(s, Next(s, e), i);
  }

  ghost predicate LosesLastAt(k: Cluster, es: seq<Event>, n: nat, i: nat)
    requires n < |es|
  {
    LosesLast(StateAt(k, es, n), es[n], i)
  }

  ghost predicate LostBefore(k: Cluster, es: seq<Event>, n: nat, i: nat)
    requires n <= |es|
  {
    exists m | 0 <= m < n :: LosesLastAt(k, es, m, i)
  }

  lemma LostBeforeNext(k: Cluster, es: seq<Event>, n: nat, i: nat)
    requires n < |es|
    ensures LostBefore(k, es, n + 1, i) <==> LostBefore(k, es, n, i) || LosesLastAt(k, es, n, i)
  {
  }

  lemma {:induction false} StrandedUpTo(k: Cluster, es: seq<Event>, n: nat, i: nat)
    requires n <= |es|
    ensures Budgeted(StateAt(k, es, n))
    ensures Stranded(StateAt(k, es, n), i) <==> LostBefore(k, es, n, i)
  {
    if n == 0 {
      assert es[..0] == [];
    } else {
      StrandedUpTo(k, es, n - 1, i);
      StateAtNext(k, es, n - 1);
      StepStrands(StateAt(k, es, n - 1), es[n - 1], i);
      LostBeforeNext(k, es, n - 1, i);
    }
  }

  /**
    In any run whatever: no message is delivered more than four times, and a message is left
    unsettled for good exactly when the worker crashed on its fourth delivery, failed to settle
    it, or could not read its delivery count.
  */
  lemma {:induction false} StrandedIff(k: Cluster, es: seq<Event>, i: nat)
    ensures forall j | 0 <= j < |Run(Init(k), es).q| :: Run(Init(k), es).q[j].delivered <= MAX_DELIVER
    ensures Stranded(Run(Init(k), es), i) <==> LostBefore(k, es, |es|, i)
  {
    assert es[..|es|] == es;
    StrandedUpTo(k, es, |es|, i);
  }

  // ----- bodies that do not decode -----

  /** A message that does not decode is not acknowledged, nor about to be. */
  ghost predicate GarbageUnacked(s: State) {
    forall i | 0 <= i < |s.q| && s.q[i].body.None? ::
      !s.q[i].settled.Acked? && (s.w.Settling? && s.w.i == i ==> s.w.to.Termed?)
  }

  lemma WorkedGarbage(s: State, luck: Luck)
    requires Tracked(s) && GarbageUnacked(s)
    ensures GarbageUnacked(Worked(s, luck))
  {
    if s.w.Exec? {
      ExecStepMoves(s, luck);
      ExecQueue(s, luck);
    }
  }

  lemma ExecQueue(s: State, luck: Luck)
    requires s.w.Exec?
    ensures ExecStep(s, luck).q == s.q
    ensures ExecStep(s, luck).w.Settling? ==> s.w.src == FromMessage(ExecStep(s, luck).w.i)
  {
    match s.w.phase
    case ToBuilding =>
    case ToNamespace =>
    case ToRbac =>
    case ToDeploying =>
    case ToConfigMap =>
    case ToService =>
    case ToRunning =>
  }

  lemma StepGarbage(s: State, e: Event)
    requires Tracked(s) && GarbageUnacked(s)
    ensures GarbageUnacked(Next(s, e))
  {
    match e
    case Work(luck) => WorkedGarbage(s, luck);
    case Start(_, _) =>
    case Deliver(_) =>
    case Crash =>
    case _ =>
      EventQueueKept(s, e);
      assert forall i | 0 <= i < |s.q| :: Next(s, e).q[i] == Next(s, e).q[..|s.q|][i];
  }

  /** Over any run a message that does not decode is never executed and never acknowledged. */
  lemma {:induction false} GarbageNeverAcked(k: Cluster, es: seq<Event>, i: nat)
    requires i < |Run(Init(k), es).q| && Run(Init(k), es).q[i].body.None?
    ensures var s := Run(Init(k), es);
            !s.q[i].settled.Acked? && (s.w.Exec? ==> s.w.src != FromMessage(i))
  {
    RunGarbage(k, es);
  }

  lemma {:induction false} RunGarbage(k: Cluster, es: seq<Event>)
    ensures Tracked(Run(Init(k), es)) && GarbageUnacked(Run(Init(k), es))
  {
    RunTracked(k, es);
    if es != [] {
      RunGarbage(k, es[..|es| - 1]);
      StepGarbage(Run(Init(k), es[..|es| - 1]), es[|es| - 1]);
    }
  }

  /** Anybody may put one into the stream. */
  lemma {:induction false} GarbageArrives(s: State)
    ensures var s' := Next(s, Garbage);
            s' == s.(q := s'.q) && |s'.q| == |s.q| + 1 && s'.q[..|s.q|] == s.q && s'.q[|s.q|] == Message(None, 0, Open)
  {
  }

  /** Its delivery terminates it as soon as it can be settled, and touches nothing else. */
  lemma {:induction false} GarbageIsTermed(s: State, i: nat, luck: Luck)
    requires s.w.Idle? && i < |s.q| && s.q[i].settled.Open? && s.q[i].body.None? && s.q[i].delivered < 4
    ensures var s' := Worked(Delivered(s, i), luck);
            s' == s.(q := s.q[i := Message(None, s.q[i].delivered + 1, if luck.ok then Termed else Open)])
  {
    var s' := Worked(Delivered(s, i), luck);
    assert s'.q == s.q[i := Message(None, s.q[i].delivered + 1, if luck.ok then Termed else Open)];
  }
}
