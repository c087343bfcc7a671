/**
  The worker's code taken whole: executeDeploy, the handling of one delivery and the retries of
  a message (internal/worker/deploy.go), each shown to be a run of the protocol in which nobody
  else moves.
*/
module PipelineExecute {
  import opened Wrappers
  import opened Model
  import opened Tables
  import opened Cluster
  import opened Pipeline

  /** How the four cluster calls of one attempt go, and whether the metadata can be read after it. */
  datatype Attempt = Attempt(ns: Luck, rbac: Luck, cm: Luck, svc: Luck)

  datatype World = World(d: Db, k: Cluster)

  function OutcomeOf(l: Luck): Outcome {
    Outcome(l.getFails, Failure(l))
  }

  /** executeDeploy: the tables and cluster it leaves, and its error. */
  function Executed(v: World, now: int, req: DeployRequest, a: Attempt): (World, Option<string>) {
    var id := req.deploymentId;
    var d1 := SetStatus(v.d, id, Building, now);
    if !a.ns.ok then (World(d1, v.k), Some("ensure namespace: " + a.ns.detail))
    else
      var k1 := v.k.(namespaces := v.k.namespaces + {req.ns});
      if !a.rbac.ok then (World(d1, k1), Some("ensure rbac: " + a.rbac.detail))
      else
        var d2 := SetStatus(d1, id, Deploying, now);
        var (k2, err) := Deploy(k1, req.ns, FunctionOf(req), OutcomeOf(a.cm), OutcomeOf(a.svc));
        if err.Some? then (World(d2, k2), Some("deploy to knative: " + err.value))
        else (World(SetStatus(d2, id, Running, now), k2), None)
  }

  // ----- executeDeploy is a run of the protocol -----

  function LuckAt(a: Attempt, p: Phase): Luck {
    match p
    case ToBuilding => a.ns
    case ToNamespace => a.ns
    case ToRbac => a.rbac
    case ToDeploying => a.rbac
    case ToConfigMap => a.cm
    case ToService => a.svc
    case ToRunning => a.svc
  }

  function StepsLeft(p: Phase): nat {
    match p
    case ToBuilding => 7
    case ToNamespace => 6
    case ToRbac => 5
    case ToDeploying => 4
    case ToConfigMap => 3
    case ToService => 2
    case ToRunning => 1
  }

  /** The worker alone, until it has finished executing. */
  function Finish(s: State, a: Attempt): State
    decreases if s.w.Exec? then StepsLeft(s.w.phase) else 0
  {
    if s.w.Exec? then Finish(ExecStep(s, LuckAt(a, s.w.phase)), a) else s
  }

  ghost predicate WorkOnly(es: seq<Event>) {
    forall e | e in es :: e.Work?
  }

  /** The worker gets from `s` to `s'` by its own steps alone. */
  ghost predicate WorksTo(s: State, s': State) {
    exists es :: WorkOnly(es) && Run(s, es) == s'
  }

  lemma WorksToSelf(s: State)
    ensures WorksTo(s, s)
  {
    assert WorkOnly([]) && Run(s, []) == s;
  }

  lemma WorksToStep(s: State, luck: Luck, s': State)
    requires WorksTo(Worked(s, luck), s')
    ensures WorksTo(s, s')
  {
    var es :| WorkOnly(es) && Run(Worked(s, luck), es) == s';
    var first := [Work(luck)];
    assert Run(s, first) == Worked(s, luck) by {
      assert first[..0] == [];
      assert Run(s, []) == s;
    }
    RunAppend(s, first, es);
    assert WorkOnly(first + es);
  }

  lemma WorksToTrans(s: State, s': State, s'': State)
    requires WorksTo(s, s') && WorksTo(s', s'')
    ensures WorksTo(s, s'')
  {
    var es :| WorkOnly(es) && Run(s, es) == s';
    var fs :| WorkOnly(fs) && Run(s', fs) == s'';
    RunAppend(s, es, fs);
    assert WorkOnly(es + fs);
  }

  lemma FinishOne(s: State, a: Attempt)
    requires s.w.Exec?
    ensures Finish(s, a) == Finish(ExecStep(s, LuckAt(a, s.w.phase)), a)
  {
  }

  lemma PhaseAdvances(s: State, luck: Luck)
    requires s.w.Exec?
    ensures ExecStep(s, luck).w.Exec? ==> StepsLeft(ExecStep(s, luck).w.phase) < StepsLeft(s.w.phase)
  {
    match s.w.phase
    case ToBuilding =>
    case ToNamespace =>
    case ToRbac =>
    case ToDeploying =>
    case ToConfigMap =>
    case ToService =>
    case ToRunning =>
  }

  lemma {:induction false} FinishIsRun(s: State, a: Attempt)
    ensures WorksTo(s, Finish(s, a))
    decreases if s.w.Exec? then StepsLeft(s.w.phase) else 0
  {
    if s.w.Exec? {
      var luck := LuckAt(a, s.w.phase);
      var s1 := ExecStep(s, luck);
      FinishOne(s, a);
      PhaseAdvances(s, luck);
      FinishIsRun(s1, a);
      assert Worked(s, luck) == s1;
      WorksToStep(s, luck, Finish(s1, a));
    } else {
      WorksToSelf(s);
    }
  }

  /** Where the worker goes with the result of an attempt. */
  function AfterExecution(s: State, v: World, err: Option<string>, meta: bool): State
    requires s.w.Exec?
  {
    s.(d := v.d, k := v.k,
       w := if err.None? then AfterSuccess(s.w.src)
            else AfterFailure(s.q, s.w.req.deploymentId, err.value, s.w.src, meta))
  }

  ghost predicate MetaIs(a: Attempt, meta: bool) {
    a.ns.meta == meta && a.rbac.meta == meta && a.cm.meta == meta && a.svc.meta == meta
  }

  lemma FinishFromService(s: State, a: Attempt, meta: bool)
    requires s.w.Exec? && s.w.phase == ToService && MetaIs(a, meta)
    ensures var req := s.w.req;
            var (k, err) := EnsureService(s.k, req.ns, FunctionOf(req), OutcomeOf(a.svc));
            Finish(s, a)
            == if err.Some? then AfterExecution(s, World(s.d, k), Some("deploy to knative: " + err.value), meta)
               else AfterExecution(s, World(SetStatus(s.d, req.deploymentId, Running, s.now), k), None, meta)
  {
    var s1 := ExecStep(s, a.svc);
    if s1.w.Exec? {
      var s2 := ExecStep(s1, a.svc);
      assert Finish(s1, a) == Finish(s2, a);
      assert Finish(s2, a) == s2;
    }
  }

  lemma FinishFromConfigMap(s: State, a: Attempt, meta: bool)
    requires s.w.Exec? && s.w.phase == ToConfigMap && MetaIs(a, meta)
    ensures var req := s.w.req;
            var (k, err) := Deploy(s.k, req.ns, FunctionOf(req), OutcomeOf(a.cm), OutcomeOf(a.svc));
            Finish(s, a)
            == if err.Some? then AfterExecution(s, World(s.d, k), Some("deploy to knative: " + err.value), meta)
               else AfterExecution(s, World(SetStatus(s.d, req.deploymentId, Running, s.now), k), None, meta)
  {
    FinishOne(s, a);
    var (k, err) := EnsureCode(s.k, s.w.req.ns, FunctionOf(s.w.req), OutcomeOf(a.cm));
    if err.None? {
      FinishFromService(s.(k := k, w := s.w.(phase := ToService)), a, meta);
    }
  }

  lemma FinishFromRbac(s: State, a: Attempt, meta: bool)
    requires s.w.Exec? && s.w.phase == ToRbac && MetaIs(a, meta) && a.rbac.ok
    ensures var s' := StatusWritten(s, Deploying, s.w.req.deploymentId, s.w.(phase := ToConfigMap));
            Finish(s, a) == Finish(s', a)
  {
    var s1 := ExecStep(s, a.rbac);
    assert Finish(s, a) == Finish(s1, a);
    assert Finish(s1, a) == Finish(ExecStep(s1, a.rbac), a);
  }

  lemma FinishFromBuilding(s: State, a: Attempt, meta: bool)
    requires s.w.Exec? && s.w.phase == ToBuilding && MetaIs(a, meta) && a.ns.ok
    ensures var s' := s.(d := SetStatus(s.d, s.w.req.deploymentId, Building, s.now),
                         k := s.k.(namespaces := s.k.namespaces + {s.w.req.ns}), w := s.w.(phase := ToRbac));
            Finish(s, a) == Finish(s', a)
  {
    var s1 := ExecStep(s, a.ns);
    assert Finish(s, a) == Finish(s1, a);
    assert Finish(s1, a) == Finish(ExecStep(s1, a.ns), a);
  }

  /** Left alone, the small steps of an execution add up to executeDeploy. */
  lemma {:induction false} FinishIsExecuted(s: State, a: Attempt, meta: bool)
    requires s.w.Exec? && s.w.phase == ToBuilding && MetaIs(a, meta)
    ensures var (v, err) := Executed(World(s.d, s.k), s.now, s.w.req, a);
            Finish(s, a) == AfterExecution(s, v, err, meta)
  {
    var s1 := ExecStep(s, a.ns);
    assert Finish(s, a) == Finish(s1, a);
    if !a.ns.ok {
      var s2 := ExecStep(s1, a.ns);
      assert Finish(s1, a) == Finish(s2, a);
      assert Finish(s2, a) == s2;
    } else {
      FinishFromBuilding(s, a, meta);
      var s2 := s.(d := SetStatus(s.d, s.w.req.deploymentId, Building, s.now),
                   k := s.k.(namespaces := s.k.namespaces + {s.w.req.ns}), w := s.w.(phase := ToRbac));
      if !a.rbac.ok {
        var s3 := ExecStep(s2, a.rbac);
        assert Finish(s2, a) == Finish(s3, a);
        assert Finish(s3, a) == s3;
      } else {
        FinishFromRbac(s2, a, meta);
        FinishFromConfigMap(StatusWritten(s2, Deploying, s.w.req.deploymentId, s2.w.(phase := ToConfigMap)), a, meta);
      }
    }
  }

  // ----- one delivery -----

  /** handleMessage for a decodable message on its n-th delivery: the world, and the settlement. */
  function Handled(v: World, now: int, req: DeployRequest, n: nat, meta: bool, a: Attempt): (World, Settlement) {
    var (v', err) := Executed(v, now, req, a);
    if err.None? then (v', Acked)
    else if meta && n >= MAX_DELIVER then (v'.(d := SetError(v'.d, req.deploymentId, err.value, now)), Termed)
    else (v', Open)
  }

  ghost predicate Deliverable(s: State, i: nat) {
    && s.w.Idle? && i < |s.q| && s.q[i].settled.Open? && s.q[i].delivered < MAX_DELIVER && s.q[i].body.Some?
  }

  /** A delivery of message i and everything the worker does about it. */
  function Processed(s: State, i: nat, meta: bool, a: Attempt): State
    requires i < |s.q| && s.q[i].body.Some?
  {
    var n := s.q[i].delivered + 1;
    var (v, to) := Handled(World(s.d, s.k), s.now, s.q[i].body.value, n, meta, a);
    s.(d := v.d, k := v.k, q := s.q[i := s.q[i].(delivered := n, settled := to)])
  }

  /** The worker when the attempt of a delivery has ended. */
  lemma AttemptEnds(s: State, i: nat, meta: bool, a: Attempt)
    requires Deliverable(s, i) && MetaIs(a, meta)
    ensures var s1 := Delivered(s, i);
            var (v, err) := Executed(World(s.d, s.k), s.now, s.q[i].body.value, a);
            var s2 := s1.(d := v.d, k := v.k,
                          w := if err.None? then Settling(i, Acked)
                               else if meta && s.q[i].delivered + 1 >= MAX_DELIVER
                                    then Failing(s.q[i].body.value.deploymentId, err.value, FromMessage(i))
                               else Idle);
            WorksTo(s1, s2)
  {
    FinishIsRun(Delivered(s, i), a);
    FinishIsExecuted(Delivered(s, i), a, meta);
  }

  /** From the end of the attempt to the answer. */
  lemma AnswerIsRun(s: State, i: nat)
    requires i < |s.q|
    ensures s.w == Settling(i, Acked) ==> WorksTo(s, s.(q := s.q[i := s.q[i].(settled := Acked)], w := Idle))
    ensures s.w.Failing? && s.w.src == FromMessage(i) ==>
              WorksTo(s, s.(d := SetError(s.d, s.w.id, s.w.text, s.now),
                            q := s.q[i := s.q[i].(settled := Termed)], w := Idle))
    ensures WorksTo(s, s)
  {
    WorksToSelf(s);
    if s.w == Settling(i, Acked) {
      SettledIsRun(s, i, Acked);
    } else if s.w.Failing? && s.w.src == FromMessage(i) {
      var s1 := ErrorRecorded(s, s.w.id, s.w.text, s.w.src);
      SettledIsRun(s1, i, Termed);
      WorksToStep(s, Luck(true, "", false, true), Settled(s1, i, Termed, true));
    }
  }

  lemma {:induction false} ProcessedIsRun(s: State, i: nat, meta: bool, a: Attempt)
    requires Deliverable(s, i) && MetaIs(a, meta)
    ensures WorksTo(Delivered(s, i), Processed(s, i, meta, a))
  {
    AttemptEnds(s, i, meta, a);
    var s1, q1 := Delivered(s, i), s.q[i := s.q[i].(delivered := s.q[i].delivered + 1)];
    var (v, err) := Executed(World(s.d, s.k), s.now, s.q[i].body.value, a);
    var w := if err.None? then Settling(i, Acked)
             else if meta && s.q[i].delivered + 1 >= MAX_DELIVER
                  then Failing(s.q[i].body.value.deploymentId, err.value, FromMessage(i))
             else Idle;
    var s2 := s1.(d := v.d, k := v.k, w := w);
    AnswerIsRun(s2, i);
    assert s2.q[i := s2.q[i].(settled := Open)] == s2.q;
    WorksToTrans(s1, s2, Processed(s, i, meta, a));
  }

  lemma SettledIsRun(s: State, i: nat, to: Settlement)
    requires s.w == Settling(i, to)
    ensures WorksTo(s, Settled(s, i, to, true))
  {
    var luck := Luck(true, "", false, true);
    WorksToSelf(Worked(s, luck));
    WorksToStep(s, luck, Settled(s, i, to, true));
  }

  /** A run goes on with message i handled whole. */
  lemma ProcessedAfter(s0: State, es: seq<Event>, i: nat, meta: bool, a: Attempt) returns (works: seq<Event>)
    requires Deliverable(Run(s0, es), i) && MetaIs(a, meta)
    ensures WorkOnly(works) && Run(s0, es + [Deliver(i)] + works) == Processed(Run(s0, es), i, meta, a)
  {
    var s := Run(s0, es);
    ProcessedIsRun(s, i, meta, a);
    works :| WorkOnly(works) && Run(Delivered(s, i), works) == Processed(s, i, meta, a);
    RunSnoc(s0, es, Deliver(i));
    RunAppend(s0, es + [Deliver(i)], works);
  }

  // ----- retries -----

  /** Deliveries of message i, one after another, until it is settled or the attempts run out. */
  function Retried(s: State, i: nat, attempts: seq<Attempt>): (r: State)
    requires i < |s.q| && s.q[i].body.Some?
    ensures |r.q| == |s.q| && r.q[i].body == s.q[i].body
  {
    if attempts == [] then s
    else
      var init := Retried(s, i, attempts[..|attempts| - 1]);
      if init.q[i].settled.Open? then Processed(init, i, true, attempts[|attempts| - 1]) else init
  }

  /** The error of attempt j, made after the j attempts before it. */
  function ErrorOf(s: State, i: nat, attempts: seq<Attempt>, j: nat): Option<string>
    requires i < |s.q| && s.q[i].body.Some? && j < |attempts|
  {
    var before := Retried(s, i, attempts[..j]);
    Executed(World(before.d, before.k), s.now, s.q[i].body.value, attempts[j]).1
  }

  ghost predicate AllFail(s: State, i: nat, attempts: seq<Attempt>, n: nat)
    requires i < |s.q| && s.q[i].body.Some? && n <= |attempts|
  {
    forall j | 0 <= j < n :: ErrorOf(s, i, attempts, j).Some?
  }

  ghost predicate RowReads(d: Db, id: int, status: DeployStatus) {
    id in d.deployments ==> d.deployments[id].status == status
  }

  /** What the message and its row look like once the first success, or its absence, is known. */
  ghost predicate SettledAs(s: State, r: State, i: nat, attempts: seq<Attempt>)
    requires i < |s.q| && s.q[i].body.Some? && |r.q| == |s.q|
  {
    var id, n := s.q[i].body.value.deploymentId, |attempts|;
    match r.q[i].settled
    case Open => AllFail(s, i, attempts, n) && r.q[i].delivered == n && n < MAX_DELIVER
    case Acked =>
      exists j | 0 <= j < n ::
        && AllFail(s, i, attempts, j) && ErrorOf(s, i, attempts, j).None?
        && r.q[i].delivered == j + 1 && RowReads(r.d, id, Running)
    case Termed =>
      && n >= MAX_DELIVER && AllFail(s, i, attempts, MAX_DELIVER) && r.q[i].delivered == MAX_DELIVER
      && RowReads(r.d, id, Failed)
      && (id in r.d.deployments ==> r.d.deployments[id].error == ErrorOf(s, i, attempts, MAX_DELIVER - 1))
  }

  lemma ExecutedReads(v: World, now: int, req: DeployRequest, a: Attempt)
    ensures var (v', err) := Executed(v, now, req, a);
            && v'.d.deployments.Keys == v.d.deployments.Keys
            && (err.None? ==> RowReads(v'.d, req.deploymentId, Running))
  {
  }

  lemma ErrorOfPrefix(s: State, i: nat, attempts: seq<Attempt>, a: Attempt, n: nat)
    requires i < |s.q| && s.q[i].body.Some? && n <= |attempts|
    ensures AllFail(s, i, attempts + [a], n) == AllFail(s, i, attempts, n)
    ensures n < |attempts| ==> ErrorOf(s, i, attempts + [a], n) == ErrorOf(s, i, attempts, n)
  {
    forall j | 0 <= j < |attempts|
      ensures ErrorOf(s, i, attempts + [a], j) == ErrorOf(s, i, attempts, j)
    {
      assert (attempts + [a])[..j] == attempts[..j];
    }
  }

  lemma {:induction false} RetriedNow(s: State, i: nat, attempts: seq<Attempt>)
    requires i < |s.q| && s.q[i].body.Some?
    ensures Retried(s, i, attempts).now == s.now && Retried(s, i, attempts).w == s.w
  {
    if attempts != [] {
      RetriedNow(s, i, attempts[..|attempts| - 1]);
    }
  }

  /**
    Whatever fails: the message is acknowledged on its first successful attempt, with its row
    running; it is terminated on the fourth failure, with its row failed and the last error;
    and it is never out of deliveries while unsettled.
  */
  lemma {:induction false} RetriesAlone(s: State, i: nat, attempts: seq<Attempt>)
    requires i < |s.q| && s.q[i].body.Some? && s.q[i].settled.Open? && s.q[i].delivered == 0
    ensures SettledAs(s, Retried(s, i, attempts), i, attempts)
  {
    if attempts != [] {
      var m := |attempts| - 1;
      var init, a := attempts[..m], attempts[m];
      assert attempts == init + [a];
      RetriesAlone(s, i, init);
      RetriedNow(s, i, init);
      var mid := Retried(s, i, init);
      forall n | 0 <= n <= m {
        ErrorOfPrefix(s, i, init, a, n);
      }
      if mid.q[i].settled.Open? {
        RetryStep(s, i, init, a);
      } else if mid.q[i].settled.Acked? {
        var j :| 0 <= j < m && AllFail(s, i, init, j) && ErrorOf(s, i, init, j).None?
                 && mid.q[i].delivered == j + 1 && RowReads(mid.d, s.q[i].body.value.deploymentId, Running);
        assert AllFail(s, i, attempts, j) && ErrorOf(s, i, attempts, j).None?;
      }
    }
  }

  lemma RetryStep(s: State, i: nat, init: seq<Attempt>, a: Attempt)
    requires i < |s.q| && s.q[i].body.Some?
    requires Retried(s, i, init).q[i].settled.Open? && Retried(s, i, init).now == s.now
    requires SettledAs(s, Retried(s, i, init), i, init)
    ensures SettledAs(s, Retried(s, i, init + [a]), i, init + [a])
  {
    var attempts, m := init + [a], |init|;
    var mid, req := Retried(s, i, init), s.q[i].body.value;
    assert attempts[..m] == init;
    ErrorOfPrefix(s, i, init, a, m);
    ExecutedReads(World(mid.d, mid.k), s.now, req, a);
    var (v, err) := Executed(World(mid.d, mid.k), s.now, req, a);
    assert ErrorOf(s, i, attempts, m) == err;
    var r := Retried(s, i, attempts);
    assert r == Processed(mid, i, true, a);
    if err.Some? && m + 1 >= MAX_DELIVER {
      assert AllFail(s, i, attempts, MAX_DELIVER);
    }
  }

  ghost predicate RetriesOnly(es: seq<Event>, i: nat) {
    forall e | e in es :: e.Work? || e == Deliver(i)
  }

  /** The deliveries of a message, with nothing else going on, are a run of the protocol. */
  lemma {:induction false} RetriedIsRun(s: State, i: nat, attempts: seq<Attempt>) returns (es: seq<Event>)
    requires i < |s.q| && s.q[i].body.Some? && s.q[i].settled.Open? && s.q[i].delivered == 0 && s.w.Idle?
    requires forall j | 0 <= j < |attempts| :: MetaIs(attempts[j], true)
    ensures RetriesOnly(es, i) && Run(s, es) == Retried(s, i, attempts)
  {
    if attempts == [] {
      es := [];
    } else {
      var init, a := attempts[..|attempts| - 1], attempts[|attempts| - 1];
      var fs := RetriedIsRun(s, i, init);
      var mid := Retried(s, i, init);
      RetriedNow(s, i, init);
      RetriesAlone(s, i, init);
      if mid.q[i].settled.Open? {
        var works := ProcessedAfter(s, fs, i, true, a);
        es := fs + [Deliver(i)] + works;
      } else {
        es := fs;
      }
    }
  }
}
