/**
  Convergence: once everything published for a function has been processed in order, the
  cluster runs the function as the tables have it -- whatever failed, crashed, was redelivered
  or swept on the way.
*/
module PipelineConvergence {
  import opened Wrappers
  import opened Model
  import opened Tables
  import opened Cluster
  import opened Pipeline
  import opened PipelineTracking
  import opened PipelineTables
  import opened PipelineExecute
  import opened PipelineSweep
  import opened PipelineSafety
  import opened PipelineDelivery

  /** A function, by its workspace's slug and its name. */
  datatype Target = Target(slug: string, name: string)

  predicate Asks(req: DeployRequest, t: Target) {
    req.ns == Namespace(t.slug) && req.functionName == t.name
  }

  predicate For(m: Message, t: Target) {
    m.body.Some? && Asks(m.body.value, t)
  }

  predicate About(a: Call, t: Target) {
    match a
    case CreateLookup(slug, _, req) => slug == t.slug && req.name == t.name
    case CreateInsert(slug, _, req) => slug == t.slug && req.name == t.name
    case UpdateLookup(slug, _, name, _) => slug == t.slug && name == t.name
    case UpdateWrite(slug, _, seen, _, _, _) => slug == t.slug && seen.name == t.name
    case Enqueue(slug, _, row, _) => slug == t.slug && row.name == t.name
    case Publish(body) => Asks(body, t)
    case Compensate(_) => false
    case DeleteRow(slug, _, name) => slug == t.slug && name == t.name
    case DropService(ns, name) => ns == Namespace(t.slug) && name == t.name
    case DropConfigMap(ns, name) => ns == Namespace(t.slug) && name == t.name
    case DropNamespace(ns) => ns == Namespace(t.slug)
  }

  predicate Destroys(a: Call, t: Target) {
    About(a, t) && (a.DeleteRow? || a.DropService? || a.DropConfigMap? || a.DropNamespace?)
  }

  /** The call has written the function and still has to publish its request. */
  predicate Owes(a: Call, t: Target) {
    About(a, t) && (a.Enqueue? || a.Publish?)
  }

  function Owed(a: Call): FunctionSpec
    requires a.Enqueue? || a.Publish?
  {
    if a.Enqueue? then a.spec else FunctionOf(a.body)
  }

  ghost predicate NothingOwed(s: State, t: Target) {
    forall c | c in s.calls :: !Owes(s.calls[c], t)
  }

  ghost predicate TargetRow(d: Db, f: int, t: Target) {
    && f in d.functions && d.functions[f].name == t.name
    && d.functions[f].workspaceId in d.workspaces && d.workspaces[d.functions[f].workspaceId].slug == t.slug
  }

  ghost predicate IsLast(q: seq<Message>, i: int, t: Target) {
    0 <= i < |q| && For(q[i], t) && forall j | i < j < |q| :: !For(q[j], t)
  }

  // ----- what orderly means -----

  /** No call about the function is in progress, other than c. */
  ghost predicate Free(s: State, c: nat, t: Target) {
    forall x | x in s.calls && x != c :: !About(s.calls[x], t)
  }

  ghost predicate EarlierSettled(s: State, i: nat, t: Target)
    requires i < |s.q|
  {
    forall j | 0 <= j < i && For(s.q[j], t) :: !s.q[j].settled.Open?
  }

  /**
    Calls on the function do not overlap and do not delete it; what they have written they get
    published; and its messages are handed out in order.  Nothing is asked of the worker.
  */
  ghost predicate Orderly(s: State, e: Event, t: Target) {
    match e
    case BeginCreate(c, slug, req) => slug == t.slug && req.name == t.name ==> Free(s, c, t)
    case BeginUpdate(c, slug, name, _) => slug == t.slug && name == t.name ==> Free(s, c, t)
    case BeginDelete(_, slug, name) => !(slug == t.slug && name == t.name)
    case BeginDeleteWorkspace(_, slug) => slug != t.slug
    case Api(c, ok) => c in s.calls && Owes(s.calls[c], t) ==> ok
    case Abandon(c) => c in s.calls ==> !Owes(s.calls[c], t)
    case Deliver(i) => i < |s.q| && For(s.q[i], t) ==> EarlierSettled(s, i, t)
    case _ => true
  }

  // ----- the invariant -----

  ghost predicate CallsGood(s: State, t: Target) {
    && (forall c | c in s.calls && About(s.calls[c], t) :: Free(s, c, t) && !Destroys(s.calls[c], t))
    && (forall c | c in s.calls && Owes(s.calls[c], t) && s.calls[c].Enqueue? :: TargetRow(s.d, s.calls[c].row.id, t))
    && (forall c, f | c in s.calls && Owes(s.calls[c], t) && TargetRow(s.d, f, t) ::
          Owed(s.calls[c]) == SpecOfRow(s.d.functions[f]))
  }

  ghost predicate InOrder(q: seq<Message>, t: Target) {
    forall i, j | 0 <= i < j < |q| && For(q[i], t) && For(q[j], t) && q[j].delivered > 0 :: !q[i].settled.Open?
  }

  ghost predicate Says(q: seq<Message>, i: int, t: Target, fn: FunctionSpec) {
    IsLast(q, i, t) && FunctionOf(q[i].body.value) == fn
  }

  ghost predicate QueueGood(s: State, t: Target) {
    && InOrder(s.q, t)
    && (forall i | 0 <= i < |s.q| && !s.q[i].settled.Open? :: s.q[i].delivered > 0)
    && (NothingOwed(s, t) ==>
          forall f | TargetRow(s.d, f, t) :: exists i :: Says(s.q, i, t, SpecOfRow(s.d.functions[f])))
  }

  ghost predicate CodeReady(k: Cluster, ns: string, fn: FunctionSpec) {
    fn.deployType == MANAGED ==> CodeKey(ns, fn) in k.configMaps && k.configMaps[CodeKey(ns, fn)].data == BuildData(fn)
  }

  /** A swept request still says what the tables say, unless a newer request is on its way. */
  ghost predicate SweepsCurrent(s: State, req: DeployRequest, t: Target) {
    forall f, i | TargetRow(s.d, f, t) && NothingOwed(s, t) && IsLast(s.q, i, t) && !s.q[i].settled.Open? ::
      FunctionOf(req) == SpecOfRow(s.d.functions[f])
  }

  ghost predicate ExecGood(s: State, t: Target)
    requires s.w.Exec?
  {
    var ns, fn := s.w.req.ns, FunctionOf(s.w.req);
    && (s.w.src.FromMessage? ==> s.w.src.i < |s.q| ==> s.q[s.w.src.i].delivered > 0)
    && (Asks(s.w.req, t) ==>
          && (s.w.phase == ToService ==> CodeReady(s.k, ns, fn))
          && (s.w.phase == ToRunning ==> Deployed(s.k, ns, fn))
          && (s.w.src.FromSweep? ==> SweepsCurrent(s, s.w.req, t)))
  }

  ghost predicate WorkerGood(s: State, t: Target) {
    match s.w
    case Exec(_, _, _) => ExecGood(s, t)
    case SweepFunction(row, slug, _) =>
      slug == t.slug ==> row.workspaceId in s.d.workspaces && s.d.workspaces[row.workspaceId].slug == t.slug
    case Failing(_, _, src) => src.FromMessage? && src.i < |s.q| ==> s.q[src.i].delivered > 0
    case Settling(i, to) =>
      i < |s.q| ==>
        && s.q[i].delivered > 0
        && (to.Acked? && For(s.q[i], t) ==>
              Deployed(s.k, s.q[i].body.value.ns, FunctionOf(s.q[i].body.value)))
    case _ => true
  }

  ghost predicate Landed(s: State, t: Target) {
    forall f, i | TargetRow(s.d, f, t) && NothingOwed(s, t) && IsLast(s.q, i, t) && s.q[i].settled.Acked? ::
      Deployed(s.k, Namespace(t.slug), SpecOfRow(s.d.functions[f]))
  }

  ghost predicate Converging(s: State, t: Target) {
    CallsGood(s, t) && QueueGood(s, t) && WorkerGood(s, t) && Landed(s, t)
  }

  // ----- steps beside the function -----

  ghost predicate SameObjects(k: Cluster, k': Cluster, t: Target) {
    var svc, code := Key(Namespace(t.slug), ServiceName(t.name)), Key(Namespace(t.slug), ConfigMapName(t.name));
    && k'.hash == k.hash
    && (svc in k.services ==> svc in k'.services && k'.services[svc] == k.services[svc])
    && (code in k.configMaps ==> code in k'.configMaps && k'.configMaps[code] == k.configMaps[code])
  }

  lemma SameObjectsDeployed(k: Cluster, k': Cluster, t: Target, fn: FunctionSpec)
    requires SameObjects(k, k', t) && fn.name == t.name
    ensures Deployed(k, Namespace(t.slug), fn) ==> Deployed(k', Namespace(t.slug), fn)
    ensures CodeReady(k, Namespace(t.slug), fn) ==> CodeReady(k', Namespace(t.slug), fn)
  {
  }

  ghost predicate SameRows(d: Db, d': Db, t: Target) {
    && (forall f :: TargetRow(d', f, t) <==> TargetRow(d, f, t))
    && (forall f | TargetRow(d, f, t) :: d'.functions[f] == d.functions[f])
    && (forall w | w in d.workspaces && d.workspaces[w].slug == t.slug :: w in d'.workspaces && d'.workspaces[w].slug == t.slug)
  }

  /** Only call c moves, and it neither takes on, pays nor gives up a debt about the function. */
  ghost predicate SameDebts(s: State, s': State, c: nat, t: Target) {
    && (forall x | x != c :: (x in s'.calls <==> x in s.calls) && (x in s.calls ==> s'.calls[x] == s.calls[x]))
    && (c in s'.calls ==>
          || (c in s.calls && s'.calls[c] == s.calls[c])
          || (!Owes(s'.calls[c], t) && !Destroys(s'.calls[c], t) && (About(s'.calls[c], t) ==> Free(s, c, t))))
    && (c in s.calls && Owes(s.calls[c], t) ==> c in s'.calls && s'.calls[c] == s.calls[c])
  }

  /** New messages are not for the function, and the rest are as they were. */
  ghost predicate SameQueue(q: seq<Message>, q': seq<Message>, t: Target) {
    && |q| <= |q'| && (forall i | 0 <= i < |q| :: q'[i] == q[i])
    && (forall i | |q| <= i < |q'| :: !For(q'[i], t) && q'[i].settled.Open?)
  }

  ghost predicate Aside(s: State, s': State, c: nat, t: Target) {
    s'.w == s.w && SameRows(s.d, s'.d, t) && SameDebts(s, s', c, t) && SameQueue(s.q, s'.q, t) && SameObjects(s.k, s'.k, t)
  }

  lemma AsideDebts(s: State, s': State, c: nat, t: Target)
    requires CallsGood(s, t) && SameRows(s.d, s'.d, t) && SameDebts(s, s', c, t)
    ensures CallsGood(s', t) && (NothingOwed(s', t) <==> NothingOwed(s, t))
  {
  }

  lemma AsideLast(q: seq<Message>, q': seq<Message>, t: Target)
    requires SameQueue(q, q', t)
    ensures forall i :: IsLast(q', i, t) <==> IsLast(q, i, t)
  {
  }

  lemma AsideQueue(s: State, s': State, c: nat, t: Target)
    requires CallsGood(s, t) && QueueGood(s, t) && Aside(s, s', c, t)
    ensures QueueGood(s', t)
  {
    AsideDebts(s, s', c, t);
    AsideLast(s.q, s'.q, t);
    assert InOrder(s'.q, t);
    if NothingOwed(s', t) {
      forall f | TargetRow(s'.d, f, t)
        ensures exists i :: Says(s'.q, i, t, SpecOfRow(s'.d.functions[f]))
      {
        var i :| Says(s.q, i, t, SpecOfRow(s.d.functions[f]));
        assert Says(s'.q, i, t, SpecOfRow(s'.d.functions[f]));
      }
    }
  }

  lemma AsideSweeps(s: State, s': State, c: nat, req: DeployRequest, t: Target)
    requires CallsGood(s, t) && Aside(s, s', c, t) && SweepsCurrent(s, req, t)
    ensures SweepsCurrent(s', req, t)
  {
    AsideDebts(s, s', c, t);
    AsideLast(s.q, s'.q, t);
  }

  lemma AsideWorker(s: State, s': State, c: nat, t: Target)
    requires Tracked(s) && CallsGood(s, t) && WorkerGood(s, t) && Aside(s, s', c, t)
    ensures WorkerGood(s', t)
  {
    AsideDebts(s, s', c, t);
    AsideLast(s.q, s'.q, t);
    match s.w
    case Exec(_, req, _) =>
      if Asks(req, t) {
        SameObjectsDeployed(s.k, s'.k, t, FunctionOf(req));
        if SweepsCurrent(s, req, t) {
          AsideSweeps(s, s', c, req, t);
        }
      }
    case Settling(i, _) =>
      if i < |s.q| && For(s.q[i], t) {
        SameObjectsDeployed(s.k, s'.k, t, FunctionOf(s.q[i].body.value));
      }
    case _ =>
  }

  lemma AsideKept(s: State, s': State, c: nat, t: Target)
    requires Tracked(s) && Converging(s, t) && Aside(s, s', c, t)
    ensures Converging(s', t)
  {
    AsideDebts(s, s', c, t);
    AsideQueue(s, s', c, t);
    AsideWorker(s, s', c, t);
    AsideLast(s.q, s'.q, t);
    forall f, i | TargetRow(s'.d, f, t) && NothingOwed(s', t) && IsLast(s'.q, i, t) && s'.q[i].settled.Acked?
      ensures Deployed(s'.k, Namespace(t.slug), SpecOfRow(s'.d.functions[f]))
    {
      SameObjectsDeployed(s.k, s'.k, t, SpecOfRow(s.d.functions[f]));
    }
  }

  lemma OneTargetRow(d: Db, f: int, g: int, t: Target)
    requires Consistent(d) && TargetRow(d, f, t) && TargetRow(d, g, t)
    ensures f == g
  {
  }

  lemma EndAside(s: State, c: nat, t: Target)
    requires CallsGood(s, t) && (c in s.calls ==> !Owes(s.calls[c], t))
    ensures Aside(s, End(s, c), c, t)
  {
  }

  /** Call c goes on to `a`, which is about the function only if c was. */
  lemma ToAside(s: State, c: nat, a: Call, t: Target)
    requires CallsGood(s, t) && c in s.calls && !Owes(s.calls[c], t)
    requires !Owes(a, t) && !Destroys(a, t) && (About(a, t) ==> About(s.calls[c], t))
    ensures Aside(s, To(s, c, a), c, t)
  {
  }

  lemma CreateLookupAside(s: State, c: nat, t: Target)
    requires CallsGood(s, t) && c in s.calls && s.calls[c].CreateLookup?
    ensures Aside(s, CreateLookedUp(s, c, s.calls[c]), c, t)
  {
    EndAside(s, c, t);
    var a := s.calls[c];
    ToAside(s, c, CreateInsert(a.slug, a.ws, a.req), t);
  }

  lemma UpdateLookupAside(s: State, c: nat, t: Target)
    requires CallsGood(s, t) && c in s.calls && s.calls[c].UpdateLookup?
    ensures Aside(s, UpdateLookedUp(s, c, s.calls[c]), c, t)
  {
    EndAside(s, c, t);
    var s' := UpdateLookedUp(s, c, s.calls[c]);
    if c in s'.calls {
      ToAside(s, c, s'.calls[c], t);
    }
  }

  /** Inserting another function, or failing to insert this one. */
  lemma InsertAside(s: State, c: nat, t: Target)
    requires Grounded(s) && CallsGood(s, t) && c in s.calls && s.calls[c].CreateInsert?
    requires !About(s.calls[c], t) || !CanInsertFunction(s.d, s.calls[c].ws, s.calls[c].req.name)
    ensures Aside(s, CreateInserted(s, c, s.calls[c]), c, t)
  {
    var a := s.calls[c];
    if CanInsertFunction(s.d, a.ws, a.req.name) {
      assert CallGrounded(s.d, a);
      assert !TargetRow(InsertFunction(s.d, a.ws, a.req), s.d.nextFunction, t);
      assert s.d.nextFunction !in s.d.functions;
    } else {
      EndAside(s, c, t);
    }
  }

  lemma WriteAside(s: State, c: nat, t: Target)
    requires Grounded(s) && CallsGood(s, t) && c in s.calls && s.calls[c].UpdateWrite?
    requires !About(s.calls[c], t) || FindFunction(s.d, s.calls[c].ws, s.calls[c].seen.name).None?
    ensures Aside(s, UpdateWritten(s, c, s.calls[c]), c, t)
  {
    var a := s.calls[c];
    if FindFunction(s.d, a.ws, a.seen.name).Some? {
      assert CallGrounded(s.d, a);
      FoundFunction(s.d, a.ws, a.seen.name);
      var row := FindFunction(s.d, a.ws, a.seen.name).value;
      assert !TargetRow(s.d, row.id, t);
    } else {
      EndAside(s, c, t);
    }
  }

  lemma EnqueueAside(s: State, c: nat, t: Target)
    requires Grounded(s) && CallsGood(s, t) && c in s.calls && s.calls[c].Enqueue? && !About(s.calls[c], t)
    ensures Aside(s, Enqueued(s, c, s.calls[c]), c, t)
  {
    var a := s.calls[c];
    assert CallGrounded(s.d, a);
    NamespaceInjective(a.slug, t.slug);
    EndAside(s, c, t);
  }

  lemma PublishAside(s: State, c: nat, ok: bool, t: Target)
    requires CallsGood(s, t) && c in s.calls && s.calls[c].Publish? && !About(s.calls[c], t)
    ensures Aside(s, PublishTried(s, c, s.calls[c], ok), c, t)
  {
    ToAside(s, c, Compensate(s.calls[c].body.deploymentId), t);
  }

  lemma CompensateAside(s: State, c: nat, t: Target)
    requires CallsGood(s, t) && c in s.calls && s.calls[c].Compensate?
    ensures Aside(s, CompensationWritten(s, c, s.calls[c]), c, t)
  {
  }

  lemma DeleteOtherRow(d: Db, f: int, t: Target)
    requires !TargetRow(d, f, t)
    ensures SameRows(d, DeleteFunction(d, f), t)
  {
  }

  lemma DeleteAside(s: State, c: nat, t: Target)
    requires Grounded(s) && CallsGood(s, t) && c in s.calls && s.calls[c].DeleteRow? && !About(s.calls[c], t)
    ensures Aside(s, RowDeleted(s, c, s.calls[c]), c, t)
  {
    var a := s.calls[c];
    if FindFunction(s.d, a.ws, a.name).Some? {
      assert CallGrounded(s.d, a);
      FoundFunction(s.d, a.ws, a.name);
      DeleteOtherRow(s.d, FindFunction(s.d, a.ws, a.name).value.id, t);
      NamespaceInjective(a.slug, t.slug);
      ToAside(s, c, DropService(Namespace(a.slug), a.name), t);
    } else {
      EndAside(s, c, t);
    }
  }

  lemma DropServiceKeepsObjects(k: Cluster, ns: string, name: string, t: Target)
    requires !(ns == Namespace(t.slug) && name == t.name)
    ensures SameObjects(k, k.(services := k.services - {Key(ns, ServiceName(name))}), t)
    ensures SameObjects(k, k.(configMaps := k.configMaps - {Key(ns, ConfigMapName(name))}), t)
  {
    ServiceNameInjective(name, t.name);
  }

  lemma DropServiceAside(s: State, c: nat, t: Target)
    requires CallsGood(s, t) && c in s.calls && s.calls[c].DropService? && !About(s.calls[c], t)
    ensures Aside(s, ServiceDropped(s, c, s.calls[c]), c, t)
  {
    var a := s.calls[c];
    DropServiceKeepsObjects(s.k, a.ns, a.name, t);
    EndAside(s, c, t);
    ToAside(s, c, DropConfigMap(a.ns, a.name), t);
  }

  lemma DropRestAside(s: State, c: nat, t: Target)
    requires CallsGood(s, t) && c in s.calls && !About(s.calls[c], t)
    ensures s.calls[c].DropConfigMap? ==> Aside(s, ConfigMapDropped(s, c, s.calls[c]), c, t)
    ensures s.calls[c].DropNamespace? ==> Aside(s, NamespaceDropped(s, c, s.calls[c]), c, t)
  {
    var a := s.calls[c];
    EndAside(s, c, t);
    if a.DropConfigMap? {
      DropServiceKeepsObjects(s.k, a.ns, a.name, t);
    } else if a.DropNamespace? {
      assert SameObjects(s.k, NamespaceDropped(s, c, a).k, t);
    }
  }

  // ----- steps of a call on the function -----

  /** The call writes the function's row, and now owes the request that says so. */
  ghost predicate Writes(s: State, s': State, c: nat, t: Target) {
    && s'.w == s.w && s'.q == s.q && s'.k == s.k && s'.d.workspaces == s.d.workspaces
    && c in s.calls && About(s.calls[c], t)
    && c in s'.calls && s'.calls[c].Enqueue? && s'.calls == s.calls[c := s'.calls[c]]
    && Owes(s'.calls[c], t) && TargetRow(s'.d, s'.calls[c].row.id, t)
    && (forall f | TargetRow(s'.d, f, t) :: SpecOfRow(s'.d.functions[f]) == s'.calls[c].spec)
  }

  lemma WritesKept(s: State, s': State, c: nat, t: Target)
    requires Converging(s, t) && Writes(s, s', c, t)
    ensures Converging(s', t)
  {
    assert !NothingOwed(s', t);
    assert Free(s, c, t);
    assert CallsGood(s', t);
  }

  lemma InsertKept(s: State, c: nat, t: Target)
    requires Grounded(s) && Converging(s, t) && c in s.calls && s.calls[c].CreateInsert? && About(s.calls[c], t)
    requires CanInsertFunction(s.d, s.calls[c].ws, s.calls[c].req.name)
    ensures Converging(CreateInserted(s, c, s.calls[c]), t)
  {
    var a := s.calls[c];
    var s' := CreateInserted(s, c, a);
    assert CallGrounded(s.d, a);
    InsertFunctionKeeps(s.d, a.ws, a.req);
    NullRoundTrip(a.req.code);
    NullRoundTrip(a.req.image);
    forall f | TargetRow(s'.d, f, t)
      ensures SpecOfRow(s'.d.functions[f]) == a.req
    {
      OneTargetRow(s'.d, f, s.d.nextFunction, t);
    }
    WritesKept(s, s', c, t);
  }

  lemma UpdateKept(s: State, c: nat, t: Target)
    requires Grounded(s) && Converging(s, t) && c in s.calls && s.calls[c].UpdateWrite? && About(s.calls[c], t)
    requires FindFunction(s.d, s.calls[c].ws, s.calls[c].seen.name).Some?
    ensures Converging(UpdateWritten(s, c, s.calls[c]), t)
  {
    var a := s.calls[c];
    var s' := UpdateWritten(s, c, a);
    assert CallGrounded(s.d, a);
    FoundFunction(s.d, a.ws, a.seen.name);
    var row := FindFunction(s.d, a.ws, a.seen.name).value;
    PutFunctionKeeps(s.d, row, a.code, a.image, a.public);
    NullRoundTrip(a.code);
    NullRoundTrip(a.image);
    assert TargetRow(s'.d, row.id, t);
    forall f | TargetRow(s'.d, f, t)
      ensures SpecOfRow(s'.d.functions[f]) == s'.calls[c].spec
    {
      OneTargetRow(s'.d, f, row.id, t);
    }
    WritesKept(s, s', c, t);
  }

  lemma EnqueueKept(s: State, c: nat, t: Target)
    requires Grounded(s) && Converging(s, t) && c in s.calls && s.calls[c].Enqueue? && About(s.calls[c], t)
    ensures Converging(Enqueued(s, c, s.calls[c]), t)
  {
    var a := s.calls[c];
    var s' := Enqueued(s, c, a);
    assert CallGrounded(s.d, a);
    assert TargetRow(s.d, a.row.id, t);
    assert Owes(s'.calls[c], t) && Owed(s'.calls[c]) == a.spec;
    assert Free(s, c, t);
    assert CallsGood(s', t);
    assert !NothingOwed(s', t);
  }

  lemma PublishKept(s: State, c: nat, t: Target)
    requires Tracked(s) && Converging(s, t) && c in s.calls && s.calls[c].Publish? && About(s.calls[c], t)
    ensures Converging(PublishTried(s, c, s.calls[c], true), t)
  {
    var s' := PublishTried(s, c, s.calls[c], true);
    assert Free(s, c, t);
    assert For(s'.q[|s.q|], t);
    assert forall i :: IsLast(s'.q, i, t) <==> i == |s.q|;
    assert QueueGood(s', t) by {
      assert forall f | TargetRow(s'.d, f, t) :: Says(s'.q, |s.q|, t, SpecOfRow(s'.d.functions[f]));
    }
    assert WorkerGood(s', t);
  }

  lemma ApiStepConverges(s: State, c: nat, ok: bool, t: Target)
    requires Tracked(s) && Grounded(s) && Converging(s, t) && Orderly(s, Api(c, ok), t)
    ensures Converging(ApiStep(s, c, ok), t)
  {
    if c in s.calls {
      var a := s.calls[c];
      if !ok && !a.Publish? && !a.Compensate? {
        EndAside(s, c, t);
        AsideKept(s, End(s, c), c, t);
      } else {
        match a
        case CreateLookup(_, _, _) => CreateConverges(s, c, t);
        case CreateInsert(_, _, _) => CreateConverges(s, c, t);
        case UpdateLookup(_, _, _, _) => UpdateConverges(s, c, t);
        case UpdateWrite(_, _, _, _, _, _) => UpdateConverges(s, c, t);
        case Enqueue(_, _, _, _) => RequestConverges(s, c, ok, t);
        case Publish(_) => RequestConverges(s, c, ok, t);
        case Compensate(_) => RequestConverges(s, c, ok, t);
        case DeleteRow(_, _, _) => DeleteConverges(s, c, t);
        case DropService(_, _) => DeleteConverges(s, c, t);
        case DropConfigMap(_, _) => DeleteConverges(s, c, t);
        case DropNamespace(_) => DeleteConverges(s, c, t);
      }
    }
  }

  lemma CreateConverges(s: State, c: nat, t: Target)
    requires Tracked(s) && Grounded(s) && Converging(s, t) && c in s.calls
    ensures s.calls[c].CreateLookup? ==> Converging(CreateLookedUp(s, c, s.calls[c]), t)
    ensures s.calls[c].CreateInsert? ==> Converging(CreateInserted(s, c, s.calls[c]), t)
  {
    var a := s.calls[c];
    if a.CreateLookup? {
      CreateLookupAside(s, c, t);
      AsideKept(s, CreateLookedUp(s, c, a), c, t);
    } else if a.CreateInsert? {
      if About(a, t) && CanInsertFunction(s.d, a.ws, a.req.name) {
        InsertKept(s, c, t);
      } else {
        InsertAside(s, c, t);
        AsideKept(s, CreateInserted(s, c, a), c, t);
      }
    }
  }

  lemma UpdateConverges(s: State, c: nat, t: Target)
    requires Tracked(s) && Grounded(s) && Converging(s, t) && c in s.calls
    ensures s.calls[c].UpdateLookup? ==> Converging(UpdateLookedUp(s, c, s.calls[c]), t)
    ensures s.calls[c].UpdateWrite? ==> Converging(UpdateWritten(s, c, s.calls[c]), t)
  {
    var a := s.calls[c];
    if a.UpdateLookup? {
      UpdateLookupAside(s, c, t);
      AsideKept(s, UpdateLookedUp(s, c, a), c, t);
    } else if a.UpdateWrite? {
      if About(a, t) && FindFunction(s.d, a.ws, a.seen.name).Some? {
        UpdateKept(s, c, t);
      } else {
        WriteAside(s, c, t);
        AsideKept(s, UpdateWritten(s, c, a), c, t);
      }
    }
  }

  lemma RequestConverges(s: State, c: nat, ok: bool, t: Target)
    requires Tracked(s) && Grounded(s) && Converging(s, t) && c in s.calls && (Owes(s.calls[c], t) ==> ok)
    ensures s.calls[c].Enqueue? ==> Converging(Enqueued(s, c, s.calls[c]), t)
    ensures s.calls[c].Publish? ==> Converging(PublishTried(s, c, s.calls[c], ok), t)
    ensures s.calls[c].Compensate? ==> Converging(CompensationWritten(s, c, s.calls[c]), t)
  {
    var a := s.calls[c];
    if a.Enqueue? {
      if About(a, t) {
        EnqueueKept(s, c, t);
      } else {
        EnqueueAside(s, c, t);
        AsideKept(s, Enqueued(s, c, a), c, t);
      }
    } else if a.Publish? {
      if About(a, t) {
        PublishKept(s, c, t);
      } else {
        PublishAside(s, c, ok, t);
        AsideKept(s, PublishTried(s, c, a, ok), c, t);
      }
    } else if a.Compensate? {
      CompensateAside(s, c, t);
      AsideKept(s, CompensationWritten(s, c, a), c, t);
    }
  }

  lemma DeleteConverges(s: State, c: nat, t: Target)
    requires Tracked(s) && Grounded(s) && Converging(s, t) && c in s.calls
    ensures s.calls[c].DeleteRow? ==> Converging(RowDeleted(s, c, s.calls[c]), t)
    ensures s.calls[c].DropService? ==> Converging(ServiceDropped(s, c, s.calls[c]), t)
    ensures s.calls[c].DropConfigMap? ==> Converging(ConfigMapDropped(s, c, s.calls[c]), t)
    ensures s.calls[c].DropNamespace? ==> Converging(NamespaceDropped(s, c, s.calls[c]), t)
  {
    var a := s.calls[c];
    if a.DeleteRow? {
      DeleteAside(s, c, t);
      AsideKept(s, RowDeleted(s, c, a), c, t);
    } else if a.DropService? {
      DropServiceAside(s, c, t);
      AsideKept(s, ServiceDropped(s, c, a), c, t);
    } else if a.DropConfigMap? {
      DropRestAside(s, c, t);
      AsideKept(s, ConfigMapDropped(s, c, a), c, t);
    } else if a.DropNamespace? {
      DropRestAside(s, c, t);
      AsideKept(s, NamespaceDropped(s, c, a), c, t);
    }
  }

  // ----- the other events -----

  lemma BegunConverges(s: State, e: Event, t: Target)
    requires Tracked(s) && Grounded(s) && Converging(s, t) && Orderly(s, e, t)
    requires e.BeginCreate? || e.BeginUpdate? || e.BeginDelete?
    ensures Converging(Next(s, e), t)
  {
    if e.c in s.calls {
      assert Next(s, e) == s;
    } else {
      BegunAside(s, e, t);
      AsideKept(s, Next(s, e), e.c, t);
    }
  }

  lemma NewCallAside(s: State, c: nat, a: Call, t: Target)
    requires CallsGood(s, t) && c !in s.calls
    requires !Owes(a, t) && !Destroys(a, t) && (About(a, t) ==> Free(s, c, t))
    ensures Aside(s, To(s, c, a), c, t)
  {
  }

  lemma BegunCreateAside(s: State, c: nat, slug: string, req: FunctionSpec, t: Target)
    requires CallsGood(s, t) && Orderly(s, BeginCreate(c, slug, req), t) && c !in s.calls
    ensures Aside(s, BegunCreate(s, c, slug, req), c, t)
  {
    EndAside(s, c, t);
    assert End(s, c) == s;
    if FindWorkspace(s.d, slug).Some? {
      NewCallAside(s, c, CreateLookup(slug, FindWorkspace(s.d, slug).value.id, req), t);
    }
  }

  lemma BegunUpdateAside(s: State, c: nat, slug: string, name: string, change: UpdateRequest, t: Target)
    requires CallsGood(s, t) && Orderly(s, BeginUpdate(c, slug, name, change), t) && c !in s.calls
    ensures Aside(s, BegunUpdate(s, c, slug, name, change), c, t)
  {
    EndAside(s, c, t);
    assert End(s, c) == s;
    if FindWorkspace(s.d, slug).Some? {
      NewCallAside(s, c, UpdateLookup(slug, FindWorkspace(s.d, slug).value.id, name, change), t);
    }
  }

  lemma BegunDeleteAside(s: State, c: nat, slug: string, name: string, t: Target)
    requires CallsGood(s, t) && Orderly(s, BeginDelete(c, slug, name), t) && c !in s.calls
    ensures Aside(s, BegunDelete(s, c, slug, name), c, t)
  {
    EndAside(s, c, t);
    assert End(s, c) == s;
    if FindWorkspace(s.d, slug).Some? {
      NewCallAside(s, c, DeleteRow(slug, FindWorkspace(s.d, slug).value.id, name), t);
    }
  }

  lemma BegunAside(s: State, e: Event, t: Target)
    requires CallsGood(s, t) && Orderly(s, e, t) && (e.BeginCreate? || e.BeginUpdate? || e.BeginDelete?)
    requires e.c !in s.calls
    ensures Aside(s, Next(s, e), e.c, t)
  {
    match e
    case BeginCreate(c, slug, req) => BegunCreateAside(s, c, slug, req, t);
    case BeginUpdate(c, slug, name, change) => BegunUpdateAside(s, c, slug, name, change, t);
    case BeginDelete(c, slug, name) => BegunDeleteAside(s, c, slug, name, t);
  }

  lemma DeleteWorkspaceAside(s: State, c: nat, slug: string, t: Target)
    requires Grounded(s) && CallsGood(s, t) && slug != t.slug
    ensures Aside(s, BegunDeleteWorkspace(s, c, slug), c, t)
  {
    NamespaceInjective(slug, t.slug);
    if c !in s.calls && FindWorkspace(s.d, slug).Some? {
      FoundWorkspace(s.d, slug);
      var d' := DeleteWorkspace(s.d, FindWorkspace(s.d, slug).value.id);
      assert SameRows(s.d, d', t);
    }
  }

  lemma CreateWorkspaceAside(s: State, slug: string, t: Target)
    requires Grounded(s) && CallsGood(s, t)
    ensures Aside(s, Next(s, CreateWorkspace(slug)), 0, t)
  {
    var d' := InsertWorkspace(s.d, slug);
    assert s.d.nextWorkspace !in s.d.workspaces;
    assert SameRows(s.d, d', t);
  }

  lemma LostAside(s: State, c: nat, t: Target)
    requires CallsGood(s, t) && Orderly(s, Abandon(c), t)
    ensures Aside(s, CallLost(s, c), c, t)
  {
  }

  lemma WorkspaceConverges(s: State, e: Event, t: Target)
    requires Tracked(s) && Grounded(s) && Converging(s, t) && Orderly(s, e, t)
    requires e.BeginDeleteWorkspace? || e.CreateWorkspace?
    ensures Converging(Next(s, e), t)
  {
    match e
    case BeginDeleteWorkspace(c, slug) =>
      DeleteWorkspaceAside(s, c, slug, t);
      AsideKept(s, BegunDeleteWorkspace(s, c, slug), c, t);
    case CreateWorkspace(slug) =>
      CreateWorkspaceAside(s, slug, t);
      AsideKept(s, Next(s, e), 0, t);
  }

  lemma LostConverges(s: State, c: nat, t: Target)
    requires Tracked(s) && Converging(s, t) && Orderly(s, Abandon(c), t)
    ensures Converging(CallLost(s, c), t)
  {
    LostAside(s, c, t);
    AsideKept(s, CallLost(s, c), c, t);
  }

  lemma EnvironmentConverges(s: State, e: Event, t: Target)
    requires Tracked(s) && Converging(s, t) && (e.Garbage? || e.Tick?)
    ensures Converging(Next(s, e), t)
  {
    AsideKept(s, Next(s, e), 0, t);
  }

  // ----- worker steps -----

  /** Messages may be delivered and settled, but say what they said. */
  ghost predicate SameBodies(q: seq<Message>, q': seq<Message>) {
    |q'| == |q| && forall i | 0 <= i < |q| :: q'[i].body == q[i].body
  }

  ghost predicate WorkerStepped(s: State, s': State) {
    && s'.calls == s.calls && s'.d.functions == s.d.functions && s'.d.workspaces == s.d.workspaces
    && SameBodies(s.q, s'.q)
  }

  lemma SteppedCalls(s: State, s': State, t: Target)
    requires CallsGood(s, t) && WorkerStepped(s, s')
    ensures CallsGood(s', t) && (NothingOwed(s', t) <==> NothingOwed(s, t))
    ensures forall f :: TargetRow(s'.d, f, t) <==> TargetRow(s.d, f, t)
    ensures forall i :: IsLast(s'.q, i, t) <==> IsLast(s.q, i, t)
  {
  }

  lemma SteppedQueue(s: State, s': State, t: Target)
    requires CallsGood(s, t) && QueueGood(s, t) && WorkerStepped(s, s') && InOrder(s'.q, t)
    requires forall i | 0 <= i < |s'.q| && !s'.q[i].settled.Open? :: s'.q[i].delivered > 0
    ensures QueueGood(s', t)
  {
    SteppedCalls(s, s', t);
    if NothingOwed(s', t) {
      forall f | TargetRow(s'.d, f, t)
        ensures exists i :: Says(s'.q, i, t, SpecOfRow(s'.d.functions[f]))
      {
        var i :| Says(s.q, i, t, SpecOfRow(s.d.functions[f]));
        assert Says(s'.q, i, t, SpecOfRow(s'.d.functions[f]));
      }
    }
  }

  /** Only the tables' deployments and the worker move. */
  lemma WorkerMoves(s: State, s': State, t: Target)
    requires Converging(s, t) && WorkerStepped(s, s') && s'.q == s.q && s'.k == s.k && WorkerGood(s', t)
    ensures Converging(s', t)
  {
    SteppedCalls(s, s', t);
    SteppedQueue(s, s', t);
  }

  /** While a message for the function is being worked on, its last message is not settled. */
  lemma LastStaysOpen(s: State, j: nat, i: int, t: Target)
    requires Budgeted(s) && QueueGood(s, t) && WorksOn(s.w, j) && j < |s.q| && For(s.q[j], t) && IsLast(s.q, i, t)
    ensures s.q[i].settled.Open?
  {
    assert j <= i;
    assert s.q[j].settled.Open?;
  }

  /** When the last request is done with and nothing is owed, the worker can only be deploying what is current. */
  lemma ExecutesCurrent(s: State, f: int, i: int, t: Target)
    requires Tracked(s) && Budgeted(s) && Converging(s, t) && s.w.Exec? && Asks(s.w.req, t)
    requires TargetRow(s.d, f, t) && NothingOwed(s, t) && IsLast(s.q, i, t) && s.q[i].settled.Acked?
    ensures FunctionOf(s.w.req) == SpecOfRow(s.d.functions[f])
    ensures s.w.src.FromSweep?
  {
    match s.w.src
    case FromSweep(_) => assert SweepsCurrent(s, s.w.req, t);
    case FromMessage(j) =>
      LastStaysOpen(s, j, i, t);
      assert false;
  }

  /** A cluster call leaves the function as well deployed as it was, if it is for another or says the same. */
  ghost predicate CallKeeps(k: Cluster, k': Cluster, req: DeployRequest, t: Target) {
    if Asks(req, t) then Deployed(k, req.ns, FunctionOf(req)) ==> Deployed(k', req.ns, FunctionOf(req))
    else SameObjects(k, k', t)
  }

  lemma ClusterCalledConverges(s: State, k: Cluster, err: Option<string>, what: string, next: Phase, luck: Luck, t: Target)
    requires Tracked(s) && Budgeted(s) && Converging(s, t) && s.w.Exec? && CallKeeps(s.k, k, s.w.req, t)
    requires err.None? && Asks(s.w.req, t) && next == ToService ==> CodeReady(k, s.w.req.ns, FunctionOf(s.w.req))
    requires err.None? && Asks(s.w.req, t) && next == ToRunning ==> Deployed(k, s.w.req.ns, FunctionOf(s.w.req))
    ensures Converging(ClusterCalled(s, k, err, what, next, luck), t)
  {
    var s' := ClusterCalled(s, k, err, what, next, luck);
    SteppedCalls(s, s', t);
    SteppedQueue(s, s', t);
    assert WorkerGood(s', t);
    forall f, i | TargetRow(s'.d, f, t) && NothingOwed(s', t) && IsLast(s'.q, i, t) && s'.q[i].settled.Acked?
      ensures Deployed(s'.k, Namespace(t.slug), SpecOfRow(s'.d.functions[f]))
    {
      if Asks(s.w.req, t) {
        ExecutesCurrent(s, f, i, t);
      } else {
        SameObjectsDeployed(s.k, k, t, SpecOfRow(s.d.functions[f]));
      }
    }
  }

  lemma EnsureCodeKeeps(k: Cluster, req: DeployRequest, o: Outcome, t: Target)
    ensures var (k', err) := EnsureCode(k, req.ns, FunctionOf(req), o);
            CallKeeps(k, k', req, t) && (err.None? ==> CodeReady(k', req.ns, FunctionOf(req)))
  {
    CodeEnsured(k, req.ns, FunctionOf(req), o);
    ServiceNameInjective(req.functionName, t.name);
  }

  lemma EnsureServiceKeeps(k: Cluster, req: DeployRequest, o: Outcome, t: Target)
    ensures var (k', err) := EnsureService(k, req.ns, FunctionOf(req), o);
            && CallKeeps(k, k', req, t)
            && (err.None? && CodeReady(k, req.ns, FunctionOf(req)) ==> Deployed(k', req.ns, FunctionOf(req)))
  {
    ServiceEnsured(k, req.ns, FunctionOf(req), o);
    ServiceNameInjective(req.functionName, t.name);
  }

  lemma StatusWrittenConverges(s: State, status: DeployStatus, w: Pc, t: Target)
    requires Tracked(s) && Converging(s, t) && s.w.Exec?
    requires (w == AfterSuccess(s.w.src) && s.w.phase == ToRunning)
             || w == s.w.(phase := ToNamespace) || w == s.w.(phase := ToConfigMap)
    ensures Converging(StatusWritten(s, status, s.w.req.deploymentId, w), t)
  {
    var s' := StatusWritten(s, status, s.w.req.deploymentId, w);
    SteppedCalls(s, s', t);
    WorkerMoves(s, s', t);
  }

  lemma ExecStepConverges(s: State, luck: Luck, t: Target)
    requires Tracked(s) && Budgeted(s) && Converging(s, t) && s.w.Exec?
    ensures Converging(ExecStep(s, luck), t)
  {
    var req, o := s.w.req, Outcome(luck.getFails, Failure(luck));
    match s.w.phase
    case ToBuilding => StatusWrittenConverges(s, Building, s.w.(phase := ToNamespace), t);
    case ToDeploying => StatusWrittenConverges(s, Deploying, s.w.(phase := ToConfigMap), t);
    case ToRunning => StatusWrittenConverges(s, Running, AfterSuccess(s.w.src), t);
    case ToNamespace =>
      ClusterCalledConverges(s, if luck.ok then s.k.(namespaces := s.k.namespaces + {req.ns}) else s.k, Failure(luck),
                             "ensure namespace: ", ToRbac, luck, t);
    case ToRbac => ClusterCalledConverges(s, s.k, Failure(luck), "ensure rbac: ", ToDeploying, luck, t);
    case ToConfigMap =>
      var (k, err) := EnsureCode(s.k, req.ns, FunctionOf(req), o);
      EnsureCodeKeeps(s.k, req, o, t);
      ClusterCalledConverges(s, k, err, "deploy to knative: ", ToService, luck, t);
    case ToService =>
      var (k, err) := EnsureService(s.k, req.ns, FunctionOf(req), o);
      EnsureServiceKeeps(s.k, req, o, t);
      ClusterCalledConverges(s, k, err, "deploy to knative: ", ToRunning, luck, t);
  }

  lemma SettledConverges(s: State, i: nat, to: Settlement, ok: bool, t: Target)
    requires Tracked(s) && Budgeted(s) && Converging(s, t) && s.w == Settling(i, to)
    ensures Converging(Settled(s, i, to, ok), t)
  {
    var s' := Settled(s, i, to, ok);
    SteppedCalls(s, s', t);
    SteppedQueue(s, s', t);
    forall f, l | TargetRow(s'.d, f, t) && NothingOwed(s', t) && IsLast(s'.q, l, t) && s'.q[l].settled.Acked?
      ensures Deployed(s'.k, Namespace(t.slug), SpecOfRow(s'.d.functions[f]))
    {
      var l' :| Says(s.q, l', t, SpecOfRow(s.d.functions[f]));
      assert l' == l;
    }
  }

  lemma DeliveredConverges(s: State, i: nat, t: Target)
    requires Tracked(s) && Converging(s, t) && Orderly(s, Deliver(i), t)
    ensures Converging(Delivered(s, i), t)
  {
    var s' := Delivered(s, i);
    if s' != s {
      SteppedCalls(s, s', t);
      assert InOrder(s'.q, t);
      SteppedQueue(s, s', t);
      assert forall j | 0 <= j < |s.q| :: s'.q[j].settled == s.q[j].settled;
    }
  }

  lemma SweepLookupConverges(s: State, ok: bool, t: Target)
    requires Converging(s, t) && s.w.SweepNext?
    ensures Converging(SweepLookedUp(s, s.w.rest, ok), t)
  {
    WorkerMoves(s, SweepLookedUp(s, s.w.rest, ok), t);
  }

  /** The request a sweep prepares for the function says what its row says now. */
  lemma PreparedIsCurrent(s: State, found: FunctionRow, t: Target)
    requires Grounded(s) && WorkerGood(s, t) && s.w.SweepFunction?
    requires FindFunction(s.d, s.w.row.workspaceId, s.w.row.functionName) == Some(found)
    requires Asks(SweepRequest(s.w.row, s.w.slug, found), t)
    ensures forall f | TargetRow(s.d, f, t) ::
              FunctionOf(SweepRequest(s.w.row, s.w.slug, found)) == SpecOfRow(s.d.functions[f])
  {
    NamespaceInjective(s.w.slug, t.slug);
    FoundFunction(s.d, s.w.row.workspaceId, s.w.row.functionName);
    assert TargetRow(s.d, found.id, t);
    forall f | TargetRow(s.d, f, t)
      ensures f == found.id
    {
      OneTargetRow(s.d, f, found.id, t);
    }
  }

  lemma SweepPreparedConverges(s: State, ok: bool, t: Target)
    requires Grounded(s) && Converging(s, t) && s.w.SweepFunction?
    ensures Converging(SweepPrepared(s, s.w.row, s.w.slug, s.w.rest, ok), t)
  {
    var found := FindFunction(s.d, s.w.row.workspaceId, s.w.row.functionName);
    var s' := SweepPrepared(s, s.w.row, s.w.slug, s.w.rest, ok);
    if ok && found.Some? {
      var req := SweepRequest(s.w.row, s.w.slug, found.value);
      if Asks(req, t) {
        PreparedIsCurrent(s, found.value, t);
        assert SweepsCurrent(s', req, t);
      }
      assert ExecGood(s', t);
    }
    WorkerMoves(s, s', t);
  }

  lemma WorkedConverges(s: State, luck: Luck, t: Target)
    requires Tracked(s) && Grounded(s) && Budgeted(s) && Converging(s, t)
    ensures Converging(Worked(s, luck), t)
  {
    match s.w
    case Exec(_, _, _) => ExecStepConverges(s, luck, t);
    case Failing(_, _, _) => WorkerMoves(s, ErrorRecorded(s, s.w.id, s.w.text, s.w.src), t);
    case Settling(i, to) => SettledConverges(s, i, to, luck.ok, t);
    case SweepNext(_) => SweepLookupConverges(s, luck.ok, t);
    case SweepFunction(_, _, _) => SweepPreparedConverges(s, luck.ok, t);
    case Idle =>
    case Down =>
  }

  lemma StartedConverges(s: State, listing: seq<ListedRow>, listed: bool, t: Target)
    requires Converging(s, t)
    ensures Converging(Started(s, listing, listed), t)
  {
    WorkerMoves(s, Started(s, listing, listed), t);
  }

  lemma {:induction false} StepConverges(s: State, e: Event, t: Target)
    requires Tracked(s) && Grounded(s) && Budgeted(s) && Converging(s, t) && Orderly(s, e, t)
    ensures Converging(Next(s, e), t)
  {
    match e
    case Api(c, ok) => ApiStepConverges(s, c, ok, t);
    case Work(luck) => WorkedConverges(s, luck, t);
    case Deliver(i) => DeliveredConverges(s, i, t);
    case Start(listing, listed) => StartedConverges(s, listing, listed, t);
    case Crash => WorkerMoves(s, s.(w := Down), t);
    case BeginCreate(_, _, _) => BegunConverges(s, e, t);
    case BeginUpdate(_, _, _, _) => BegunConverges(s, e, t);
    case BeginDelete(_, _, _) => BegunConverges(s, e, t);
    case BeginDeleteWorkspace(_, _) => WorkspaceConverges(s, e, t);
    case CreateWorkspace(_) => WorkspaceConverges(s, e, t);
    case Abandon(c) => LostConverges(s, c, t);
    case Garbage => EnvironmentConverges(s, e, t);
    case Tick(_) => EnvironmentConverges(s, e, t);
  }

  // ----- whole runs -----

  ghost predicate OrderlyAt(k: Cluster, es: seq<Event>, n: nat, t: Target)
    requires n < |es|
  {
    Orderly(StateAt(k, es, n), es[n], t)
  }

  ghost predicate OrderlyRun(k: Cluster, es: seq<Event>, t: Target) {
    forall n | 0 <= n < |es| :: OrderlyAt(k, es, n, t)
  }

  lemma InvariantsAt(k: Cluster, es: seq<Event>, n: nat)
    requires n <= |es|
    ensures Tracked(StateAt(k, es, n)) && Grounded(StateAt(k, es, n)) && Budgeted(StateAt(k, es, n))
  {
    RunTracked(k, es[..n]);
    RunGrounded(k, es[..n]);
    StrandedUpTo(k, es, n, 0);
  }

  lemma StepConvergesAt(k: Cluster, es: seq<Event>, n: nat, t: Target)
    requires n < |es| && OrderlyRun(k, es, t) && Converging(StateAt(k, es, n), t)
    ensures Converging(StateAt(k, es, n + 1), t)
  {
    InvariantsAt(k, es, n);
    StateAtNext(k, es, n);
    assert OrderlyAt(k, es, n, t);
    StepConverges(StateAt(k, es, n), es[n], t);
  }

  lemma {:induction false} RunConverges(k: Cluster, es: seq<Event>, n: nat, t: Target)
    requires n <= |es| && OrderlyRun(k, es, t)
    ensures Converging(StateAt(k, es, n), t)
  {
    if n == 0 {
      assert es[..0] == [];
    } else {
      RunConverges(k, es, n - 1, t);
      StepConvergesAt(k, es, n - 1, t);
    }
  }

  /**
    After any orderly run, with whatever failures, crashes, redeliveries and sweeps: if nothing
    is owed, the last request for a function says what its row says; and once that request is
    acknowledged, the cluster runs exactly that row.
  */
  lemma {:induction false} Convergence(k: Cluster, es: seq<Event>, f: int, t: Target) returns (last: int)
    requires OrderlyRun(k, es, t)
    requires TargetRow(Run(Init(k), es).d, f, t) && NothingOwed(Run(Init(k), es), t)
    ensures var s := Run(Init(k), es);
            && IsLast(s.q, last, t) && FunctionOf(s.q[last].body.value) == SpecOfRow(s.d.functions[f])
            && (s.q[last].settled.Acked? ==> Deployed(s.k, Namespace(t.slug), SpecOfRow(s.d.functions[f])))
  {
    assert es[..|es|] == es;
    RunConverges(k, es, |es|, t);
    var s := Run(Init(k), es);
    last :| Says(s.q, last, t, SpecOfRow(s.d.functions[f]));
  }

  // ----- exactly when one message brings the cluster up to date -----

  /**
    From any state, orderly or not: the attempt that gets a message acknowledged leaves the
    function running its row exactly when the request cannot be told apart from the row.
  */
  lemma {:induction false} AcknowledgedIsCurrentIff(s: State, i: nat, meta: bool, a: Attempt, f: int, t: Target)
    requires i < |s.q| && For(s.q[i], t) && TargetRow(s.d, f, t)
    requires Processed(s, i, meta, a).q[i].settled.Acked?
    ensures Deployed(Processed(s, i, meta, a).k, Namespace(t.slug), SpecOfRow(s.d.functions[f]))
       <==> Alike(s.k.hash, FunctionOf(s.q[i].body.value), SpecOfRow(s.d.functions[f]))
  {
    var req := s.q[i].body.value;
    var k1 := s.k.(namespaces := s.k.namespaces + {req.ns});
    DeployedIffAlike(k1, req.ns, FunctionOf(req), OutcomeOf(a.cm), OutcomeOf(a.svc), SpecOfRow(s.d.functions[f]));
  }
}
