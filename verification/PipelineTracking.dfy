/** Rows and requests: where the request of every deployment row is, in every reachable state. */
module PipelineTracking {
  import opened Wrappers
  import opened Model
  import opened Tables
  import opened Cluster
  import opened Pipeline

  // ----- every identifier ever handed out has exactly one place -----

  ghost predicate Placed(s: State) {
    && 1 <= s.d.nextDeployment
    && (forall id :: id in s.place <==> 1 <= id < s.d.nextDeployment)
    && (forall id | id in s.d.deployments :: id in s.place)
  }

  /** The history `place` says of each call and message what it holds, and nothing else is held. */
  ghost predicate CallsPlaced(s: State) {
    && (forall c | c in s.calls && Pending(s.calls[c]).Some? ::
          Pending(s.calls[c]).value in s.place && s.place[Pending(s.calls[c]).value] == InCall(c))
    && (forall id | id in s.place && s.place[id].InCall? ::
          s.place[id].c in s.calls && Pending(s.calls[s.place[id].c]) == Some(id))
  }

  ghost predicate MessagesPlaced(s: State) {
    && (forall i | 0 <= i < |s.q| && s.q[i].body.Some? ::
          s.q[i].body.value.deploymentId in s.place && s.place[s.q[i].body.value.deploymentId] == Published(i))
    && (forall id | id in s.place && s.place[id].Published? ::
          s.place[id].i < |s.q| && s.q[s.place[id].i].body.Some?
          && s.q[s.place[id].i].body.value.deploymentId == id)
  }

  /** The worker works only on rows that were handed out, and on the message it was given. */
  ghost predicate KnownRows(s: State, rows: seq<ListedRow>) {
    forall i | 0 <= i < |rows| :: rows[i].id in s.place
  }

  ghost predicate KnownSource(s: State, id: int, src: Source) {
    match src
    case FromMessage(i) => i < |s.q| && s.q[i].body.Some? && s.q[i].body.value.deploymentId == id
    case FromSweep(rest) => id in s.place && KnownRows(s, rest)
  }

  ghost predicate WorkerPlaced(s: State) {
    match s.w
    case Down => true
    case Idle => true
    case SweepNext(rest) => KnownRows(s, rest)
    case SweepFunction(row, _, rest) => row.id in s.place && KnownRows(s, rest)
    case Exec(_, req, src) =>
      KnownSource(s, req.deploymentId, src) && (src.FromMessage? ==> s.q[src.i].body == Some(req))
    case Failing(id, _, src) => KnownSource(s, id, src)
    case Settling(i, _) => i < |s.q|
  }

  ghost predicate Tracked(s: State) {
    Placed(s) && CallsPlaced(s) && MessagesPlaced(s) && WorkerPlaced(s)
  }

  // ----- steps that do not touch the bookkeeping -----

  /** Nothing that `Tracked` looks at has changed, apart from calls that hold nothing. */
  ghost predicate Untouched(s: State, s': State) {
    && s'.place == s.place && s'.w == s.w
    && s'.d.nextDeployment == s.d.nextDeployment
    && (forall id | id in s'.d.deployments :: id in s.d.deployments)
    && s'.q == s.q
    && (forall c | c in s.calls && Pending(s.calls[c]).Some? :: c in s'.calls && s'.calls[c] == s.calls[c])
    && (forall c | c in s'.calls && Pending(s'.calls[c]).Some? :: c in s.calls && s'.calls[c] == s.calls[c])
  }

  lemma UntouchedTracked(s: State, s': State)
    requires Tracked(s) && Untouched(s, s')
    ensures Tracked(s')
  {
  }

  /** The worker's own steps: messages keep their bodies, and the tables keep their keys. */
  ghost predicate WorkerMoved(s: State, s': State) {
    && s'.place == s.place && s'.calls == s.calls
    && s'.d.nextDeployment == s.d.nextDeployment && s'.d.deployments.Keys == s.d.deployments.Keys
    && |s'.q| == |s.q| && (forall i | 0 <= i < |s.q| :: s'.q[i].body == s.q[i].body)
  }

  lemma WorkerMovedTracked(s: State, s': State)
    requires Tracked(s) && WorkerMoved(s, s') && WorkerPlaced(s')
    ensures Tracked(s')
  {
  }

  lemma SourceKept(s: State, s': State, id: int, src: Source)
    requires WorkerMoved(s, s') && KnownSource(s, id, src)
    ensures KnownSource(s', id, src)
  {
  }

  // ----- API steps -----

  lemma EnqueuedTracked(s: State, c: nat)
    requires Tracked(s) && c in s.calls && s.calls[c].Enqueue?
    ensures Tracked(Enqueued(s, c, s.calls[c]))
  {
    var s' := Enqueued(s, c, s.calls[c]);
    if s'.place != s.place {
      assert s.d.nextDeployment !in s.place;
      assert Placed(s') && CallsPlaced(s');
    }
  }

  lemma PublishTriedTracked(s: State, c: nat, ok: bool)
    requires Tracked(s) && c in s.calls && s.calls[c].Publish?
    ensures Tracked(PublishTried(s, c, s.calls[c], ok))
  {
    var s', id := PublishTried(s, c, s.calls[c], ok), s.calls[c].body.deploymentId;
    assert Pending(s.calls[c]) == Some(id);
    assert s.place[id] == InCall(c);
    assert Placed(s') && CallsPlaced(s') && MessagesPlaced(s');
  }

  lemma CompensatedTracked(s: State, c: nat)
    requires Tracked(s) && c in s.calls && s.calls[c].Compensate?
    ensures Tracked(CompensationWritten(s, c, s.calls[c]))
  {
    var s', id := CompensationWritten(s, c, s.calls[c]), s.calls[c].id;
    assert Pending(s.calls[c]) == Some(id);
    assert s.place[id] == InCall(c);
    assert Placed(s') && CallsPlaced(s') && MessagesPlaced(s');
  }

  lemma CallLostTracked(s: State, c: nat)
    requires Tracked(s)
    ensures Tracked(CallLost(s, c))
  {
    var s' := CallLost(s, c);
    if c in s.calls && Pending(s.calls[c]).Some? {
      assert s.place[Pending(s.calls[c]).value] == InCall(c);
      assert Placed(s') && CallsPlaced(s') && MessagesPlaced(s');
    } else {
      UntouchedTracked(s, s');
    }
  }

  lemma ApiStepTracked(s: State, c: nat, ok: bool)
    requires Tracked(s)
    ensures Tracked(ApiStep(s, c, ok))
  {
    if c in s.calls {
      var a := s.calls[c];
      if a.Publish? {
        PublishTriedTracked(s, c, ok);
      } else if a.Compensate? {
        CompensatedTracked(s, c);
      } else if ok && a.Enqueue? {
        EnqueuedTracked(s, c);
      } else {
        QuietApiStep(s, c, ok);
        QuietUntouched(s, c, ApiStep(s, c, ok));
        UntouchedTracked(s, ApiStep(s, c, ok));
      }
    }
  }

  /** A call that holds no request ends, or goes on to a statement that holds none. */
  ghost predicate QuietlyMoved(s: State, c: nat, s': State) {
    && s'.place == s.place && s'.wrote == s.wrote && s'.w == s.w && s'.q == s.q && s'.now == s.now
    && s'.d.nextDeployment == s.d.nextDeployment
    && (forall id | id in s'.d.deployments :: id in s.d.deployments && s'.d.deployments[id] == s.d.deployments[id])
    && (forall x | x != c :: (x in s'.calls <==> x in s.calls) && (x in s.calls ==> s'.calls[x] == s.calls[x]))
    && (c in s'.calls ==> Pending(s'.calls[c]).None?)
  }

  lemma QuietUntouched(s: State, c: nat, s': State)
    requires c in s.calls && Pending(s.calls[c]).None? && QuietlyMoved(s, c, s')
    ensures Untouched(s, s')
  {
  }

  lemma QuietCreate(s: State, c: nat, a: Call)
    ensures a.CreateLookup? ==> QuietlyMoved(s, c, CreateLookedUp(s, c, a))
    ensures a.CreateInsert? ==> QuietlyMoved(s, c, CreateInserted(s, c, a))
    ensures QuietlyMoved(s, c, End(s, c))
  {
  }

  lemma QuietUpdate(s: State, c: nat, a: Call)
    ensures a.UpdateLookup? ==> QuietlyMoved(s, c, UpdateLookedUp(s, c, a))
    ensures a.UpdateWrite? ==> QuietlyMoved(s, c, UpdateWritten(s, c, a))
  {
  }

  lemma QuietDelete(s: State, c: nat, a: Call)
    ensures a.DeleteRow? ==> QuietlyMoved(s, c, RowDeleted(s, c, a))
    ensures a.DropService? ==> QuietlyMoved(s, c, ServiceDropped(s, c, a))
  {
  }

  lemma QuietDrop(s: State, c: nat, a: Call)
    ensures a.DropConfigMap? ==> QuietlyMoved(s, c, ConfigMapDropped(s, c, a))
    ensures a.DropNamespace? ==> QuietlyMoved(s, c, NamespaceDropped(s, c, a))
  {
  }

  predicate HoldsRequest(a: Call, ok: bool) {
    a.Publish? || a.Compensate? || (ok && a.Enqueue?)
  }

  lemma QuietApiStep(s: State, c: nat, ok: bool)
    requires c in s.calls && !HoldsRequest(s.calls[c], ok)
    ensures QuietlyMoved(s, c, ApiStep(s, c, ok))
  {
    var a := s.calls[c];
    if a.DeleteRow? || a.DropService? || a.DropConfigMap? || a.DropNamespace? {
      QuietDelete(s, c, a);
      QuietDrop(s, c, a);
    } else if a.UpdateLookup? || a.UpdateWrite? {
      QuietUpdate(s, c, a);
    }
    QuietCreate(s, c, a);
  }

  // ----- worker steps -----

  lemma StartedTracked(s: State, listing: seq<ListedRow>, listed: bool)
    requires Tracked(s)
    ensures Tracked(Started(s, listing, listed))
  {
    WorkerMovedTracked(s, Started(s, listing, listed));
  }

  lemma DeliveredTracked(s: State, i: nat)
    requires Tracked(s)
    ensures Tracked(Delivered(s, i))
  {
    WorkerMovedTracked(s, Delivered(s, i));
  }

  /** After a step of executeDeploy the worker is still on the same request, or done with it. */
  ghost predicate StaysOrLeaves(s: State, s': State)
    requires s.w.Exec?
  {
    var id, src := s.w.req.deploymentId, s.w.src;
    || (s'.w.Exec? && s'.w.req == s.w.req && s'.w.src == src)
    || (s'.w.Failing? && s'.w.id == id && s'.w.src == src)
    || (s'.w.Idle? && src.FromMessage?)
    || s'.w == AfterSuccess(src)
  }

  lemma StatusWrittenMoves(s: State, status: DeployStatus, id: int, w: Pc)
    ensures WorkerMoved(s, StatusWritten(s, status, id, w))
  {
  }

  lemma ClusterCalledMoves(s: State, k: Cluster, err: Option<string>, what: string, next: Phase, luck: Luck)
    requires s.w.Exec?
    ensures var s' := ClusterCalled(s, k, err, what, next, luck); WorkerMoved(s, s') && StaysOrLeaves(s, s')
  {
  }

  lemma ExecStepMoves(s: State, luck: Luck)
    requires s.w.Exec?
    ensures WorkerMoved(s, ExecStep(s, luck)) && StaysOrLeaves(s, ExecStep(s, luck))
  {
    var req, o := s.w.req, Outcome(luck.getFails, Failure(luck));
    match s.w.phase
    case ToBuilding => StatusWrittenMoves(s, Building, req.deploymentId, s.w.(phase := ToNamespace));
    case ToDeploying => StatusWrittenMoves(s, Deploying, req.deploymentId, s.w.(phase := ToConfigMap));
    case ToRunning => StatusWrittenMoves(s, Running, req.deploymentId, AfterSuccess(s.w.src));
    case ToNamespace =>
      ClusterCalledMoves(s, if luck.ok then s.k.(namespaces := s.k.namespaces + {req.ns}) else s.k, Failure(luck),
                         "ensure namespace: ", ToRbac, luck);
    case ToRbac => ClusterCalledMoves(s, s.k, Failure(luck), "ensure rbac: ", ToDeploying, luck);
    case ToConfigMap =>
      var (k, err) := EnsureCode(s.k, req.ns, FunctionOf(req), o);
      ClusterCalledMoves(s, k, err, "deploy to knative: ", ToService, luck);
    case ToService =>
      var (k, err) := EnsureService(s.k, req.ns, FunctionOf(req), o);
      ClusterCalledMoves(s, k, err, "deploy to knative: ", ToRunning, luck);
  }

  lemma StaysOrLeavesPlaced(s: State, s': State)
    requires WorkerPlaced(s) && s.w.Exec? && WorkerMoved(s, s') && StaysOrLeaves(s, s')
    ensures WorkerPlaced(s')
  {
    SourceKept(s, s', s.w.req.deploymentId, s.w.src);
  }

  lemma ExecStepTracked(s: State, luck: Luck)
    requires Tracked(s) && s.w.Exec?
    ensures Tracked(ExecStep(s, luck))
  {
    ExecStepMoves(s, luck);
    StaysOrLeavesPlaced(s, ExecStep(s, luck));
    WorkerMovedTracked(s, ExecStep(s, luck));
  }

  lemma SweepTracked(s: State, luck: Luck)
    requires Tracked(s)
    ensures s.w.SweepNext? ==> Tracked(SweepLookedUp(s, s.w.rest, luck.ok))
    ensures s.w.SweepFunction? ==> Tracked(SweepPrepared(s, s.w.row, s.w.slug, s.w.rest, luck.ok))
  {
    if s.w.SweepNext? {
      WorkerMovedTracked(s, SweepLookedUp(s, s.w.rest, luck.ok));
    } else if s.w.SweepFunction? {
      WorkerMovedTracked(s, SweepPrepared(s, s.w.row, s.w.slug, s.w.rest, luck.ok));
    }
  }

  lemma SettleTracked(s: State, luck: Luck)
    requires Tracked(s)
    ensures s.w.Failing? ==> Tracked(ErrorRecorded(s, s.w.id, s.w.text, s.w.src))
    ensures s.w.Settling? ==> Tracked(Settled(s, s.w.i, s.w.to, luck.ok))
  {
    if s.w.Failing? {
      var s' := ErrorRecorded(s, s.w.id, s.w.text, s.w.src);
      SourceKept(s, s', s.w.id, s.w.src);
      WorkerMovedTracked(s, s');
    } else if s.w.Settling? {
      WorkerMovedTracked(s, Settled(s, s.w.i, s.w.to, luck.ok));
    }
  }

  lemma WorkedTracked(s: State, luck: Luck)
    requires Tracked(s)
    ensures Tracked(Worked(s, luck))
  {
    match s.w
    case Down =>
    case Idle =>
    case SweepNext(_) => SweepTracked(s, luck);
    case SweepFunction(_, _, _) => SweepTracked(s, luck);
    case Exec(_, _, _) => ExecStepTracked(s, luck);
    case Failing(_, _, _) => SettleTracked(s, luck);
    case Settling(_, _) => SettleTracked(s, luck);
  }

  lemma NewCallTracked(s: State, c: nat, a: Call)
    requires Tracked(s) && c !in s.calls && Pending(a).None?
    ensures Tracked(To(s, c, a))
  {
    UntouchedTracked(s, To(s, c, a));
  }

  lemma BegunTracked(s: State, e: Event)
    requires Tracked(s) && (e.BeginCreate? || e.BeginUpdate? || e.BeginDelete?)
    ensures Tracked(Next(s, e))
  {
    if Next(s, e) != s {
      NewCallTracked(s, e.c, Next(s, e).calls[e.c]);
    }
  }

  lemma EnvironmentTracked(s: State, e: Event)
    requires Tracked(s) && (e.BeginDeleteWorkspace? || e.CreateWorkspace? || e.Tick?)
    ensures Tracked(Next(s, e))
  {
    UntouchedTracked(s, Next(s, e));
  }

  lemma {:induction false} NextTracked(s: State, e: Event)
    requires Tracked(s)
    ensures Tracked(Next(s, e))
  {
    match e
    case Api(c, ok) => ApiStepTracked(s, c, ok);
    case Abandon(c) => CallLostTracked(s, c);
    case Start(listing, listed) => StartedTracked(s, listing, listed);
    case Deliver(i) => DeliveredTracked(s, i);
    case Work(luck) => WorkedTracked(s, luck);
    case Garbage => GarbageTracked(s);
    case Crash => WorkerMovedTracked(s, Next(s, e));
    case BeginCreate(_, _, _) => BegunTracked(s, e);
    case BeginUpdate(_, _, _, _) => BegunTracked(s, e);
    case BeginDelete(_, _, _) => BegunTracked(s, e);
    case BeginDeleteWorkspace(_, _) => EnvironmentTracked(s, e);
    case CreateWorkspace(_) => EnvironmentTracked(s, e);
    case Tick(_) => EnvironmentTracked(s, e);
  }

  lemma GarbageTracked(s: State)
    requires Tracked(s)
    ensures Tracked(Next(s, Garbage))
  {
  }

  lemma {:induction false} RunTracked(k: Cluster, es: seq<Event>)
    ensures Tracked(Run(Init(k), es))
  {
    if es != [] {
      RunTracked(k, es[..|es| - 1]);
      NextTracked(Run(Init(k), es[..|es| - 1]), es[|es| - 1]);
    }
  }
}
