/**
  What the cluster runs after any run whatever, told by the last write of a function's service
  and the last write of its code: the history of `Cluster` carried over to the protocol.
*/
module PipelineCluster {
  import opened Wrappers
  import opened Model
  import opened Tables
  import opened Cluster
  import opened Pipeline
  import opened PipelineConvergence

  /** What an object of the function holds: what it held at first, what the last write put there, or nothing. */
  datatype Content = Initial | Holds(fn: FunctionSpec) | Gone

  function OutcomeNow(luck: Luck): Outcome {
    Outcome(luck.getFails, Failure(luck))
  }

  /** The function's service after this event, if the event writes or deletes it. */
  ghost function ServiceWritten(s: State, e: Event, t: Target): Option<Content> {
    match e
    case Work(luck) =>
      if s.w.Exec? && s.w.phase == ToService && Asks(s.w.req, t)
         && EnsureService(s.k, s.w.req.ns, FunctionOf(s.w.req), OutcomeNow(luck)).1.None?
      then Some(Holds(FunctionOf(s.w.req))) else None
    case Api(c, ok) =>
      if ok && c in s.calls && About(s.calls[c], t) && (s.calls[c].DropService? || s.calls[c].DropNamespace?)
      then Some(Gone) else None
    case _ => None
  }

  /** And its code. */
  ghost function CodeWritten(s: State, e: Event, t: Target): Option<Content> {
    match e
    case Work(luck) =>
      if s.w.Exec? && s.w.phase == ToConfigMap && Asks(s.w.req, t) && s.w.req.deployType == MANAGED
         && EnsureCode(s.k, s.w.req.ns, FunctionOf(s.w.req), OutcomeNow(luck)).1.None?
      then Some(Holds(FunctionOf(s.w.req))) else None
    case Api(c, ok) =>
      if ok && c in s.calls && About(s.calls[c], t) && (s.calls[c].DropConfigMap? || s.calls[c].DropNamespace?)
      then Some(Gone) else None
    case _ => None
  }

  ghost function LastService(k: Cluster, es: seq<Event>, t: Target): Content {
    if es == [] then Initial
    else
      var init := es[..|es| - 1];
      var now := ServiceWritten(Run(Init(k), init), es[|es| - 1], t);
      if now.Some? then now.value else LastService(k, init, t)
  }

  ghost function LastCode(k: Cluster, es: seq<Event>, t: Target): Content {
    if es == [] then Initial
    else
      var init := es[..|es| - 1];
      var now := CodeWritten(Run(Init(k), init), es[|es| - 1], t);
      if now.Some? then now.value else LastCode(k, init, t)
  }

  function TargetService(t: Target): Key { Key(Namespace(t.slug), ServiceName(t.name)) }

  function TargetCode(t: Target): Key { Key(Namespace(t.slug), ConfigMapName(t.name)) }

  ghost predicate ServiceIs(k0: Cluster, k: Cluster, t: Target, h: Content) {
    var key := TargetService(t);
    match h
    case Initial => (key in k.services <==> key in k0.services) && (key in k0.services ==> k.services[key] == k0.services[key])
    case Holds(fn) => key in k.services && Serves(k.services[key], k0.hash, fn)
    case Gone => key !in k.services
  }

  ghost predicate CodeIs(k0: Cluster, k: Cluster, t: Target, h: Content) {
    var key := TargetCode(t);
    match h
    case Initial =>
      && (key in k.configMaps <==> key in k0.configMaps)
      && (key in k0.configMaps ==> k.configMaps[key] == k0.configMaps[key])
    case Holds(fn) => key in k.configMaps && k.configMaps[key].data == BuildData(fn)
    case Gone => key !in k.configMaps
  }

  ghost predicate ClusterIs(k0: Cluster, k: Cluster, t: Target, service: Content, code: Content) {
    k.hash == k0.hash && ServiceIs(k0, k, t, service) && CodeIs(k0, k, t, code)
  }

  function Or(now: Option<Content>, before: Content): Content {
    if now.Some? then now.value else before
  }

  // ----- one step -----

  lemma OthersKeepCluster(s: State, e: Event)
    requires !e.Api? && !e.Work?
    ensures Next(s, e).k == s.k
  {
  }

  predicate Drops(a: Call) {
    a.DropService? || a.DropConfigMap? || a.DropNamespace?
  }

  lemma CallsKeepCluster(s: State, c: nat, ok: bool)
    requires c in s.calls && !(ok && Drops(s.calls[c]))
    ensures ApiStep(s, c, ok).k == s.k
  {
  }

  lemma DropServiceStep(k0: Cluster, s: State, c: nat, t: Target, service: Content, code: Content)
    requires c in s.calls && s.calls[c].DropService? && ClusterIs(k0, s.k, t, service, code)
    ensures ClusterIs(k0, ServiceDropped(s, c, s.calls[c]).k, t, if About(s.calls[c], t) then Gone else service, code)
  {
    ServiceNameInjective(s.calls[c].name, t.name);
  }

  lemma DropConfigMapStep(k0: Cluster, s: State, c: nat, t: Target, service: Content, code: Content)
    requires c in s.calls && s.calls[c].DropConfigMap? && ClusterIs(k0, s.k, t, service, code)
    ensures ClusterIs(k0, ConfigMapDropped(s, c, s.calls[c]).k, t, service, if About(s.calls[c], t) then Gone else code)
  {
    ServiceNameInjective(s.calls[c].name, t.name);
  }

  lemma DropNamespaceStep(k0: Cluster, s: State, c: nat, t: Target, service: Content, code: Content)
    requires c in s.calls && s.calls[c].DropNamespace? && ClusterIs(k0, s.k, t, service, code)
    ensures ClusterIs(k0, NamespaceDropped(s, c, s.calls[c]).k, t, if About(s.calls[c], t) then Gone else service,
                      if About(s.calls[c], t) then Gone else code)
  {
  }

  lemma DropStep(k0: Cluster, s: State, c: nat, t: Target, service: Content, code: Content)
    requires c in s.calls && Drops(s.calls[c]) && ClusterIs(k0, s.k, t, service, code)
    ensures ClusterIs(k0, ApiStep(s, c, true).k, t, Or(ServiceWritten(s, Api(c, true), t), service),
                      Or(CodeWritten(s, Api(c, true), t), code))
  {
    if s.calls[c].DropService? {
      DropServiceStep(k0, s, c, t, service, code);
    } else if s.calls[c].DropConfigMap? {
      DropConfigMapStep(k0, s, c, t, service, code);
    } else {
      DropNamespaceStep(k0, s, c, t, service, code);
    }
  }

  lemma ApiClusterIs(k0: Cluster, s: State, c: nat, ok: bool, t: Target, service: Content, code: Content)
    requires ClusterIs(k0, s.k, t, service, code)
    ensures ClusterIs(k0, ApiStep(s, c, ok).k, t, Or(ServiceWritten(s, Api(c, ok), t), service),
                      Or(CodeWritten(s, Api(c, ok), t), code))
  {
    if c in s.calls {
      if ok && Drops(s.calls[c]) {
        DropStep(k0, s, c, t, service, code);
      } else {
        CallsKeepCluster(s, c, ok);
      }
    }
  }

  lemma CodeStep(k0: Cluster, s: State, luck: Luck, t: Target, service: Content, code: Content)
    requires s.w.Exec? && s.w.phase == ToConfigMap && ClusterIs(k0, s.k, t, service, code)
    ensures ClusterIs(k0, EnsureCode(s.k, s.w.req.ns, FunctionOf(s.w.req), OutcomeNow(luck)).0, t, service,
                      Or(CodeWritten(s, Work(luck), t), code))
  {
    var fn := FunctionOf(s.w.req);
    CodeEnsured(s.k, s.w.req.ns, fn, OutcomeNow(luck));
    ServiceNameInjective(fn.name, t.name);
  }

  lemma ServiceStep(k0: Cluster, s: State, luck: Luck, t: Target, service: Content, code: Content)
    requires s.w.Exec? && s.w.phase == ToService && ClusterIs(k0, s.k, t, service, code)
    ensures ClusterIs(k0, EnsureService(s.k, s.w.req.ns, FunctionOf(s.w.req), OutcomeNow(luck)).0, t,
                      Or(ServiceWritten(s, Work(luck), t), service), code)
  {
    var fn := FunctionOf(s.w.req);
    ServiceEnsured(s.k, s.w.req.ns, fn, OutcomeNow(luck));
    ServiceNameInjective(fn.name, t.name);
  }

  lemma ExecCluster(s: State, luck: Luck)
    requires s.w.Exec?
    ensures var req := s.w.req;
            ExecStep(s, luck).k
            == match s.w.phase
               case ToNamespace => if luck.ok then s.k.(namespaces := s.k.namespaces + {req.ns}) else s.k
               case ToConfigMap => EnsureCode(s.k, req.ns, FunctionOf(req), OutcomeNow(luck)).0
               case ToService => EnsureService(s.k, req.ns, FunctionOf(req), OutcomeNow(luck)).0
               case _ => s.k
  {
    match s.w.phase
    case ToBuilding =>
    case ToNamespace =>
    case ToRbac =>
    case ToDeploying =>
    case ToConfigMap =>
    case ToService =>
    case ToRunning =>
  }

  lemma WorkedClusterIs(k0: Cluster, s: State, luck: Luck, t: Target, service: Content, code: Content)
    requires ClusterIs(k0, s.k, t, service, code)
    ensures ClusterIs(k0, Worked(s, luck).k, t, Or(ServiceWritten(s, Work(luck), t), service),
                      Or(CodeWritten(s, Work(luck), t), code))
  {
    if s.w.Exec? {
      ExecCluster(s, luck);
      if s.w.phase == ToConfigMap {
        CodeStep(k0, s, luck, t, service, code);
      } else if s.w.phase == ToService {
        ServiceStep(k0, s, luck, t, service, code);
      }
    }
  }

  lemma StepClusterIs(k0: Cluster, s: State, e: Event, t: Target, service: Content, code: Content)
    requires ClusterIs(k0, s.k, t, service, code)
    ensures ClusterIs(k0, Next(s, e).k, t, Or(ServiceWritten(s, e, t), service), Or(CodeWritten(s, e, t), code))
  {
    match e
    case Api(c, ok) => ApiClusterIs(k0, s, c, ok, t, service, code);
    case Work(luck) => WorkedClusterIs(k0, s, luck, t, service, code);
    case _ => OthersKeepCluster(s, e);
  }

  // ----- whole runs -----

  /** After any run the function's service and code are what their last writes made them. */
  lemma {:induction false} ClusterIsLastWritten(k: Cluster, es: seq<Event>, t: Target)
    ensures ClusterIs(k, Run(Init(k), es).k, t, LastService(k, es, t), LastCode(k, es, t))
  {
    if es != [] {
      var init := es[..|es| - 1];
      ClusterIsLastWritten(k, init, t);
      StepClusterIs(k, Run(Init(k), init), es[|es| - 1], t, LastService(k, init, t), LastCode(k, init, t));
    }
  }

  /** The service asks for the same: same content hash and pod, labels and visibility. */
  predicate SameService(hash: (string, string) -> string, fn: FunctionSpec, g: FunctionSpec) {
    BuildSpec(hash, fn) == BuildSpec(hash, g) && BuildLabels(fn) == BuildLabels(g) && fn.public == g.public
  }

  ghost predicate ServiceSuits(k0: Cluster, t: Target, h: Content, g: FunctionSpec) {
    match h
    case Initial => TargetService(t) in k0.services && Serves(k0.services[TargetService(t)], k0.hash, g)
    case Holds(fn) => SameService(k0.hash, fn, g)
    case Gone => false
  }

  ghost predicate CodeSuits(k0: Cluster, t: Target, h: Content, g: FunctionSpec) {
    match h
    case Initial => TargetCode(t) in k0.configMaps && k0.configMaps[TargetCode(t)].data == BuildData(g)
    case Holds(fn) => BuildData(fn) == BuildData(g)
    case Gone => false
  }

  /**
    After any run whatever, orderly or not, with deletes or without: the cluster runs a given
    version of the function exactly if the last service write asked for the same service and,
    for a managed one, the last code write wrote the same code.
  */
  lemma {:induction false} RunsVersionIff(k: Cluster, es: seq<Event>, t: Target, g: FunctionSpec)
    requires g.name == t.name
    ensures Deployed(Run(Init(k), es).k, Namespace(t.slug), g)
       <==> ServiceSuits(k, t, LastService(k, es, t), g)
            && (g.deployType == MANAGED ==> CodeSuits(k, t, LastCode(k, es, t), g))
  {
    ClusterIsLastWritten(k, es, t);
    SuitsIff(k, Run(Init(k), es).k, t, LastService(k, es, t), LastCode(k, es, t), g);
  }

  lemma SuitsIff(k0: Cluster, k: Cluster, t: Target, service: Content, code: Content, g: FunctionSpec)
    requires ClusterIs(k0, k, t, service, code) && g.name == t.name
    ensures Deployed(k, Namespace(t.slug), g)
       <==> ServiceSuits(k0, t, service, g) && (g.deployType == MANAGED ==> CodeSuits(k0, t, code, g))
  {
  }

  /** In particular it runs its own row exactly if the last writes cannot be told apart from it. */
  lemma {:induction false} RunsRowIff(k: Cluster, es: seq<Event>, t: Target, f: int)
    requires TargetRow(Run(Init(k), es).d, f, t)
    ensures var s := Run(Init(k), es);
            var row := SpecOfRow(s.d.functions[f]);
            Deployed(s.k, Namespace(t.slug), row)
            <==> ServiceSuits(k, t, LastService(k, es, t), row)
                 && (row.deployType == MANAGED ==> CodeSuits(k, t, LastCode(k, es, t), row))
  {
    RunsVersionIff(k, es, t, SpecOfRow(Run(Init(k), es).d.functions[f]));
  }

  /** Dropping a namespace takes it and all that is in it, and nothing of any other. */
  lemma {:induction false} NamespaceGone(s: State, c: nat, ns: string)
    requires c in s.calls && s.calls[c] == DropNamespace(ns)
    ensures var k, k' := s.k, ApiStep(s, c, true).k;
            && k'.namespaces == k.namespaces - {ns} && k'.hash == k.hash
            && (forall key :: key in k'.services <==> key in k.services && key.ns != ns)
            && (forall key :: key in k'.configMaps <==> key in k.configMaps && key.ns != ns)
            && (forall key | key in k'.services :: k'.services[key] == k.services[key])
            && (forall key | key in k'.configMaps :: k'.configMaps[key] == k.configMaps[key])
  {
  }

  /** Deleting a workspace takes its row, its functions' rows and then, if that works, all that ran in its namespace. */
  lemma {:induction false} WorkspaceGone(s: State, c: nat, slug: string)
    requires Consistent(s.d) && c !in s.calls && SlugTaken(s.d, slug)
    ensures var s1 := Next(s, BeginDeleteWorkspace(c, slug));
            var s2 := Next(s1, Api(c, true));
            var ws := FindWorkspace(s.d, slug).value.id;
            && !SlugTaken(s1.d, slug) && (forall f | f in s1.d.functions :: s1.d.functions[f].workspaceId != ws)
            && s1.k == s.k && s2.d == s1.d
            && "fn-" + slug !in s2.k.namespaces
            && (forall key | key in s2.k.services || key in s2.k.configMaps :: key.ns != "fn-" + slug)
  {
    DeleteWorkspaceKeeps(s.d, FindWorkspace(s.d, slug).value.id);
    var s1 := Next(s, BeginDeleteWorkspace(c, slug));
    assert s1.calls[c] == DropNamespace("fn-" + slug);
    NamespaceGone(s1, c, "fn-" + slug);
  }
}
