/**
  The cluster objects of a function and what the deployer does to them
  (internal/deployer/knative.go).

  A call is a read followed by a write.  The read can fail for a reason other than "not
  found", and then the code goes on to create; the write can fail, and then nothing changes.
  The digest of code and image is whatever function `hash` is.
*/
module Cluster {
  import opened Wrappers
  import opened Model

  const RUNTIME_IMAGE_PYTHON := "ghcr.io/tracklimit/runtime-python:latest"
  const RUNTIME_IMAGE_NODEJS := "ghcr.io/tracklimit/runtime-nodejs:latest"
  const LABEL_MANAGED_BY := "app.kubernetes.io/managed-by"
  const LABEL_RUNTIME := "platform.tracklimit.io/runtime"
  const LABEL_DEPLOY_TYPE := "platform.tracklimit.io/deploy-type"
  const ANNOTATION_VISIBILITY := "networking.knative.dev/visibility"
  const PLATFORM := "serverless-platform"
  const CLUSTER_LOCAL := "cluster-local"

  /** `codeVolume` is the ConfigMap mounted read-only at /var/function. */
  datatype PodSpec = PodSpec(image: string, codeVolume: Option<string>)
  datatype ServiceSpec = ServiceSpec(contentHash: string, pod: PodSpec)
  datatype Service = Service(
    labels: map<string, string>, annotations: map<string, string>, spec: ServiceSpec, url: string)
  datatype ConfigMap = ConfigMap(labels: map<string, string>, data: map<string, string>)

  /** Namespace and object name. */
  datatype Key = Key(ns: string, name: string)

  datatype Cluster = Cluster(
    hash: (string, string) -> string, namespaces: set<string>,
    services: map<Key, Service>, configMaps: map<Key, ConfigMap>)

  /** How one read-then-write goes. */
  datatype Outcome = Outcome(getFails: bool, writeFails: Option<string>)

  // ----- names and builders -----

  function ServiceName(name: string): string { "fn-" + name }

  function ConfigMapName(name: string): string { "fn-" + name + "-code" }

  lemma {:induction false} ServiceNameInjective(a: string, b: string)
    ensures ServiceName(a) == ServiceName(b) <==> a == b
    ensures ConfigMapName(a) == ConfigMapName(b) <==> a == b
    ensures ServiceName(a)[3..] == a
  {
    assert ServiceName(a)[3..] == a && ServiceName(b)[3..] == b;
    assert ConfigMapName(a)[3..3 + |a|] == a && ConfigMapName(b)[3..3 + |b|] == b;
  }

  function RuntimeImage(runtime: string): string {
    if runtime == PYTHON then RUNTIME_IMAGE_PYTHON
    else if runtime == NODEJS then RUNTIME_IMAGE_NODEJS
    else ""
  }

  function CodeFileName(runtime: string): string {
    if runtime == PYTHON then "handler.py" else if runtime == NODEJS then "index.js" else "handler"
  }

  function BasePodSpec(fn: FunctionSpec): PodSpec {
    if fn.deployType == BYOI then PodSpec(fn.image, None)
    else PodSpec(RuntimeImage(fn.runtime), Some(ConfigMapName(fn.name)))
  }

  function BuildSpec(hash: (string, string) -> string, fn: FunctionSpec): ServiceSpec {
    ServiceSpec(hash(fn.code, fn.image), BasePodSpec(fn))
  }

  function BuildLabels(fn: FunctionSpec): map<string, string> {
    map[LABEL_MANAGED_BY := PLATFORM, LABEL_RUNTIME := fn.runtime, LABEL_DEPLOY_TYPE := fn.deployType]
  }

  function BuildAnnotations(fn: FunctionSpec): map<string, string> {
    if fn.public then map[] else map[ANNOTATION_VISIBILITY := CLUSTER_LOCAL]
  }

  function BuildService(hash: (string, string) -> string, fn: FunctionSpec): Service {
    Service(BuildLabels(fn), BuildAnnotations(fn), BuildSpec(hash, fn), "")
  }

  function BuildData(fn: FunctionSpec): map<string, string> {
    map[CodeFileName(fn.runtime) := fn.code]
  }

  function ServiceKey(ns: string, fn: FunctionSpec): Key { Key(ns, ServiceName(fn.name)) }

  function CodeKey(ns: string, fn: FunctionSpec): Key { Key(ns, ConfigMapName(fn.name)) }

  // ----- calls -----

  function EnsureConfigMap(k: Cluster, ns: string, fn: FunctionSpec, o: Outcome): (Cluster, Option<string>) {
    var key := CodeKey(ns, fn);
    if o.writeFails.Some? then (k, o.writeFails)
    else if key !in k.configMaps then
      (k.(configMaps := k.configMaps[key := ConfigMap(map[LABEL_MANAGED_BY := PLATFORM], BuildData(fn))]), None)
    else if o.getFails then (k, Some("already exists"))
    else (k.(configMaps := k.configMaps[key := k.configMaps[key].(data := BuildData(fn))]), None)
  }

  /** The stored service with the desired spec and labels, and only its visibility annotation adjusted. */
  function Updated(existing: Service, hash: (string, string) -> string, fn: FunctionSpec): Service {
    existing.(spec := BuildSpec(hash, fn), labels := BuildLabels(fn),
              annotations := if fn.public then existing.annotations - {ANNOTATION_VISIBILITY}
                             else existing.annotations[ANNOTATION_VISIBILITY := CLUSTER_LOCAL])
  }

  function EnsureService(k: Cluster, ns: string, fn: FunctionSpec, o: Outcome): (Cluster, Option<string>) {
    var key := ServiceKey(ns, fn);
    var updating := key in k.services && !o.getFails;
    if o.writeFails.Some? then
      (k, Some((if updating then "update knative service: " else "create knative service: ") + o.writeFails.value))
    else if key !in k.services then
      (k.(services := k.services[key := BuildService(k.hash, fn)]), None)
    else if o.getFails then (k, Some("create knative service: already exists"))
    else (k.(services := k.services[key := Updated(k.services[key], k.hash, fn)]), None)
  }

  /** A managed function's code is written first; its failure ends the deploy. */
  function EnsureCode(k: Cluster, ns: string, fn: FunctionSpec, o: Outcome): (Cluster, Option<string>) {
    if fn.deployType != MANAGED then (k, None)
    else
      var (k1, err) := EnsureConfigMap(k, ns, fn, o);
      (k1, if err.Some? then Some("create configmap: " + err.value) else None)
  }

  function Deploy(k: Cluster, ns: string, fn: FunctionSpec, cm: Outcome, svc: Outcome): (Cluster, Option<string>) {
    var (k1, err) := EnsureCode(k, ns, fn, cm);
    if err.Some? then (k1, err) else EnsureService(k1, ns, fn, svc)
  }

  /** The cluster runs exactly `fn`: the service it asks for and, if managed, its code. */
  ghost predicate Deployed(k: Cluster, ns: string, fn: FunctionSpec) {
    && ServiceKey(ns, fn) in k.services
    && Serves(k.services[ServiceKey(ns, fn)], k.hash, fn)
    && (fn.deployType == MANAGED ==> CodeKey(ns, fn) in k.configMaps && k.configMaps[CodeKey(ns, fn)].data == BuildData(fn))
  }

  ghost predicate Serves(s: Service, hash: (string, string) -> string, fn: FunctionSpec) {
    && s.spec == BuildSpec(hash, fn) && s.labels == BuildLabels(fn)
    && (ANNOTATION_VISIBILITY in s.annotations <==> !fn.public)
    && (!fn.public ==> s.annotations[ANNOTATION_VISIBILITY] == CLUSTER_LOCAL)
  }

  /**
    What the stored objects read when the cluster runs `fn`, column by column: the client's own
    image, or the runtime's image over the mounted code; the digest of code and image; labels;
    visibility; and the file the runtime loads.
  */
  ghost predicate StoredAs(k: Cluster, ns: string, fn: FunctionSpec) {
    var service, code := Key(ns, "fn-" + fn.name), Key(ns, "fn-" + fn.name + "-code");
    && service in k.services
    && k.services[service].spec.contentHash == k.hash(fn.code, fn.image)
    && k.services[service].spec.pod == PodOf(fn)
    && k.services[service].labels == map["app.kubernetes.io/managed-by" := "serverless-platform",
                                         "platform.tracklimit.io/runtime" := fn.runtime,
                                         "platform.tracklimit.io/deploy-type" := fn.deployType]
    && (if fn.public then "networking.knative.dev/visibility" !in k.services[service].annotations
        else "networking.knative.dev/visibility" in k.services[service].annotations
             && k.services[service].annotations["networking.knative.dev/visibility"] == "cluster-local")
    && (fn.deployType == "managed" ==> code in k.configMaps && k.configMaps[code].data == FileOf(fn))
  }

  function PodOf(fn: FunctionSpec): PodSpec {
    if fn.deployType == "byoi" then PodSpec(fn.image, None)
    else PodSpec(match fn.runtime
                 case "python" => "ghcr.io/tracklimit/runtime-python:latest"
                 case "nodejs" => "ghcr.io/tracklimit/runtime-nodejs:latest"
                 case _ => "",
                 Some("fn-" + fn.name + "-code"))
  }

  function FileOf(fn: FunctionSpec): map<string, string> {
    match fn.runtime
    case "python" => map["handler.py" := fn.code]
    case "nodejs" => map["index.js" := fn.code]
    case _ => map["handler" := fn.code]
  }

  lemma {:induction false} DeployedReads(k: Cluster, ns: string, fn: FunctionSpec)
    ensures Deployed(k, ns, fn) <==> StoredAs(k, ns, fn)
  {
    PodReads(fn);
    assert BuildData(fn) == FileOf(fn);
  }

  lemma PodReads(fn: FunctionSpec)
    ensures BasePodSpec(fn) == PodOf(fn)
  {
  }

  lemma {:induction false} ServiceEnsured(k: Cluster, ns: string, fn: FunctionSpec, o: Outcome)
    ensures var (k', err) := EnsureService(k, ns, fn, o);
            && k'.hash == k.hash && k'.configMaps == k.configMaps
            && (err.None? ==> ServiceKey(ns, fn) in k'.services && Serves(k'.services[ServiceKey(ns, fn)], k.hash, fn))
            && (forall key | key != ServiceKey(ns, fn) ::
                  && (key in k'.services <==> key in k.services)
                  && (key in k.services ==> k'.services[key] == k.services[key]))
  {
  }

  lemma {:induction false} CodeEnsured(k: Cluster, ns: string, fn: FunctionSpec, o: Outcome)
    ensures var (k', err) := EnsureCode(k, ns, fn, o);
            && k'.hash == k.hash && k'.services == k.services
            && (err.None? && fn.deployType == MANAGED ==>
                  CodeKey(ns, fn) in k'.configMaps && k'.configMaps[CodeKey(ns, fn)].data == BuildData(fn))
            && (forall key | key != CodeKey(ns, fn) ::
                  && (key in k'.configMaps <==> key in k.configMaps)
                  && (key in k.configMaps ==> k'.configMaps[key] == k.configMaps[key]))
  {
  }

  /** A successful deploy brings its function up, whatever was there before. */
  lemma {:induction false} DeploySucceeds(k: Cluster, ns: string, fn: FunctionSpec, cm: Outcome, svc: Outcome)
    requires Deploy(k, ns, fn, cm, svc).1.None?
    ensures Deployed(Deploy(k, ns, fn, cm, svc).0, ns, fn)
    ensures StoredAs(Deploy(k, ns, fn, cm, svc).0, ns, fn)
  {
    CodeEnsured(k, ns, fn, cm);
    ServiceEnsured(EnsureCode(k, ns, fn, cm).0, ns, fn, svc);
    DeployedReads(Deploy(k, ns, fn, cm, svc).0, ns, fn);
  }

  /** Nothing the deployer writes tells the two apart. */
  predicate Alike(hash: (string, string) -> string, fn: FunctionSpec, g: FunctionSpec) {
    && BuildSpec(hash, fn) == BuildSpec(hash, g) && BuildLabels(fn) == BuildLabels(g) && fn.public == g.public
    && (g.deployType == MANAGED ==> BuildData(fn) == BuildData(g))
  }

  /** After a successful deploy the cluster runs another version of the function only if it cannot be told apart. */
  lemma {:induction false} DeployedIffAlike(k: Cluster, ns: string, fn: FunctionSpec, cm: Outcome, svc: Outcome, g: FunctionSpec)
    requires Deploy(k, ns, fn, cm, svc).1.None? && g.name == fn.name
    ensures Deployed(Deploy(k, ns, fn, cm, svc).0, ns, g) <==> Alike(k.hash, fn, g)
  {
    CodeEnsured(k, ns, fn, cm);
    ServiceEnsured(EnsureCode(k, ns, fn, cm).0, ns, fn, svc);
    DeploySucceeds(k, ns, fn, cm, svc);
    assert BuildLabels(fn)[LABEL_DEPLOY_TYPE] == fn.deployType && BuildLabels(g)[LABEL_DEPLOY_TYPE] == g.deployType;
  }

  /** Deploying one function, successfully or not, leaves the others deployed as they were. */
  lemma {:induction false} DeployKeepsOthers(k: Cluster, ns: string, fn: FunctionSpec, cm: Outcome, svc: Outcome,
                                               ns': string, fn': FunctionSpec)
    requires Deployed(k, ns', fn') && (ns != ns' || fn.name != fn'.name)
    ensures Deployed(Deploy(k, ns, fn, cm, svc).0, ns', fn')
  {
    CodeEnsured(k, ns, fn, cm);
    ServiceEnsured(EnsureCode(k, ns, fn, cm).0, ns, fn, svc);
    ServiceNameInjective(fn.name, fn'.name);
  }

  // ----- a service is its last successful deploy -----

  datatype DeployCall = DeployCall(ns: string, fn: FunctionSpec, cm: Outcome, svc: Outcome)

  function Apply(k: Cluster, c: DeployCall): (Cluster, Option<string>) {
    Deploy(k, c.ns, c.fn, c.cm, c.svc)
  }

  function Replay(k: Cluster, calls: seq<DeployCall>): Cluster {
    if calls == [] then k else Apply(Replay(k, calls[..|calls| - 1]), calls[|calls| - 1]).0
  }

  /** The function of the last call that succeeded for this namespace and name. */
  function LastDeployed(k: Cluster, calls: seq<DeployCall>, ns: string, name: string): Option<FunctionSpec> {
    if calls == [] then None
    else
      var init, c := calls[..|calls| - 1], calls[|calls| - 1];
      if c.ns == ns && c.fn.name == name && Apply(Replay(k, init), c).1.None? then Some(c.fn)
      else LastDeployed(k, init, ns, name)
  }

  /** The last call for this namespace and name whose ConfigMap was written, failed afterwards or not. */
  function LastCode(k: Cluster, calls: seq<DeployCall>, ns: string, name: string): Option<FunctionSpec> {
    if calls == [] then None
    else
      var init, c := calls[..|calls| - 1], calls[|calls| - 1];
      if c.ns == ns && c.fn.name == name && c.fn.deployType == MANAGED
         && EnsureConfigMap(Replay(k, init), ns, c.fn, c.cm).1.None? then Some(c.fn)
      else LastCode(k, init, ns, name)
  }

  /** A stored service says exactly what `fn` asks for; its other annotations are `others`. */
  ghost predicate Describes(s: Service, hash: (string, string) -> string, fn: FunctionSpec, others: map<string, string>) {
    && s.spec == BuildSpec(hash, fn)
    && s.labels == BuildLabels(fn)
    && s.annotations == others - {ANNOTATION_VISIBILITY} + BuildAnnotations(fn)
  }

  ghost function OtherAnnotations(k: Cluster, key: Key): map<string, string> {
    if key in k.services then k.services[key].annotations else map[]
  }

  ghost predicate ServiceIsLast(k0: Cluster, k: Cluster, key: Key, last: Option<FunctionSpec>) {
    match last
    case None => (key in k.services <==> key in k0.services) && (key in k0.services ==> k.services[key] == k0.services[key])
    case Some(fn) => key in k.services && Describes(k.services[key], k0.hash, fn, OtherAnnotations(k0, key))
  }

  /** One call moves only its own service, and only when it succeeds. */
  lemma ApplyService(k: Cluster, c: DeployCall, key: Key)
    ensures Apply(k, c).0.hash == k.hash
    ensures Apply(k, c).1.None? && key == ServiceKey(c.ns, c.fn) ==>
              && key in Apply(k, c).0.services
              && Apply(k, c).0.services[key]
                 == if key in k.services then Updated(k.services[key], k.hash, c.fn) else BuildService(k.hash, c.fn)
    ensures !(Apply(k, c).1.None? && key == ServiceKey(c.ns, c.fn)) ==>
              && (key in Apply(k, c).0.services <==> key in k.services)
              && (key in k.services ==> Apply(k, c).0.services[key] == k.services[key])
  {
    var k1 := if c.fn.deployType == MANAGED then EnsureConfigMap(k, c.ns, c.fn, c.cm).0 else k;
    assert k1.services == k.services && k1.hash == k.hash;
  }

  lemma {:induction false} ReplayHash(k: Cluster, calls: seq<DeployCall>)
    ensures Replay(k, calls).hash == k.hash
  {
    if calls != [] {
      ReplayHash(k, calls[..|calls| - 1]);
      ApplyService(Replay(k, calls[..|calls| - 1]), calls[|calls| - 1], Key("", ""));
    }
  }

  lemma UpdatedDescribes(s: Service, hash: (string, string) -> string, fn: FunctionSpec, others: map<string, string>)
    requires s.annotations - {ANNOTATION_VISIBILITY} == others - {ANNOTATION_VISIBILITY}
    ensures Describes(Updated(s, hash, fn), hash, fn, others)
    ensures Updated(s, hash, fn).annotations - {ANNOTATION_VISIBILITY} == others - {ANNOTATION_VISIBILITY}
  {
    var a := Updated(s, hash, fn).annotations;
    assert a - {ANNOTATION_VISIBILITY} == s.annotations - {ANNOTATION_VISIBILITY};
    assert a == (a - {ANNOTATION_VISIBILITY}) + BuildAnnotations(fn);
  }

  /**
    Over any sequence of calls on any functions, each call failing anywhere: a service is what
    the last successful call for its own namespace and name asked for, unrelated annotations
    survive, and without such a call it is as it was.
  */
  lemma {:induction false} ServiceIsLastDeployed(k: Cluster, calls: seq<DeployCall>, ns: string, name: string)
    ensures ServiceIsLast(k, Replay(k, calls), Key(ns, ServiceName(name)), LastDeployed(k, calls, ns, name))
  {
    if calls != [] {
      var init, c := calls[..|calls| - 1], calls[|calls| - 1];
      var key, mid := Key(ns, ServiceName(name)), Replay(k, init);
      ServiceIsLastDeployed(k, init, ns, name);
      ReplayHash(k, init);
      ApplyService(mid, c, key);
      ServiceNameInjective(name, c.fn.name);
      if c.ns == ns && c.fn.name == name && Apply(mid, c).1.None? {
        DeployedDescribes(k, mid, key, LastDeployed(k, init, ns, name), c.fn);
      }
    }
  }

  lemma DeployedDescribes(k0: Cluster, k: Cluster, key: Key, last: Option<FunctionSpec>, fn: FunctionSpec)
    requires ServiceIsLast(k0, k, key, last) && k.hash == k0.hash
    ensures Describes(if key in k.services then Updated(k.services[key], k.hash, fn) else BuildService(k.hash, fn),
                      k0.hash, fn, OtherAnnotations(k0, key))
  {
    var others := OtherAnnotations(k0, key);
    if key in k.services {
      var s := k.services[key];
      if last.Some? {
        assert s.annotations - {ANNOTATION_VISIBILITY} == others - {ANNOTATION_VISIBILITY};
      }
      UpdatedDescribes(s, k.hash, fn, others);
    } else {
      assert others - {ANNOTATION_VISIBILITY} + BuildAnnotations(fn) == BuildAnnotations(fn);
    }
  }

  ghost predicate CodeIsLast(k0: Cluster, k: Cluster, key: Key, last: Option<FunctionSpec>) {
    match last
    case None =>
      && (key in k.configMaps <==> key in k0.configMaps)
      && (key in k0.configMaps ==> k.configMaps[key] == k0.configMaps[key])
    case Some(fn) =>
      && key in k.configMaps && k.configMaps[key].data == BuildData(fn)
      && k.configMaps[key].labels
         == if key in k0.configMaps then k0.configMaps[key].labels else map[LABEL_MANAGED_BY := PLATFORM]
  }

  /** A ConfigMap holds the code of the last call that got as far as writing it, even one that failed later. */
  lemma {:induction false} CodeIsLastWritten(k: Cluster, calls: seq<DeployCall>, ns: string, name: string)
    ensures CodeIsLast(k, Replay(k, calls), Key(ns, ConfigMapName(name)), LastCode(k, calls, ns, name))
  {
    if calls != [] {
      var init, c := calls[..|calls| - 1], calls[|calls| - 1];
      CodeIsLastWritten(k, init, ns, name);
      ServiceNameInjective(name, c.fn.name);
      ApplyCode(Replay(k, init), c);
    }
  }

  lemma ApplyCode(k: Cluster, c: DeployCall)
    ensures Apply(k, c).0.configMaps
         == if c.fn.deployType == MANAGED then EnsureConfigMap(k, c.ns, c.fn, c.cm).0.configMaps else k.configMaps
  {
  }

  /** A failed deploy leaves every service alone and at most rewrites its own ConfigMap. */
  lemma {:induction false} FailedDeployKeeps(k: Cluster, c: DeployCall)
    requires Apply(k, c).1.Some?
    ensures Apply(k, c).0.services == k.services
    ensures forall key | key != CodeKey(c.ns, c.fn) ::
              && (key in Apply(k, c).0.configMaps <==> key in k.configMaps)
              && (key in k.configMaps ==> Apply(k, c).0.configMaps[key] == k.configMaps[key])
    ensures Apply(k, c).0.namespaces == k.namespaces
  {
  }

  lemma ConfigMapTwice(k: Cluster, ns: string, fn: FunctionSpec, o: Outcome)
    requires EnsureConfigMap(k, ns, fn, o).1.None?
    ensures EnsureConfigMap(EnsureConfigMap(k, ns, fn, o).0, ns, fn, Outcome(false, None))
         == (EnsureConfigMap(k, ns, fn, o).0, None)
  {
    var k1, key := EnsureConfigMap(k, ns, fn, o).0, CodeKey(ns, fn);
    assert k1.configMaps[key := k1.configMaps[key].(data := BuildData(fn))] == k1.configMaps;
  }

  lemma ServiceTwice(k: Cluster, ns: string, fn: FunctionSpec, o: Outcome)
    requires EnsureService(k, ns, fn, o).1.None?
    ensures EnsureService(EnsureService(k, ns, fn, o).0, ns, fn, Outcome(false, None))
         == (EnsureService(k, ns, fn, o).0, None)
  {
    var k1, key := EnsureService(k, ns, fn, o).0, ServiceKey(ns, fn);
    var s := k1.services[key];
    assert s.annotations == if fn.public then s.annotations - {ANNOTATION_VISIBILITY}
                            else s.annotations[ANNOTATION_VISIBILITY := CLUSTER_LOCAL];
    assert Updated(s, k1.hash, fn) == s;
    assert k1.services[key := s] == k1.services;
  }

  /** Repeating a successful deploy succeeds again and changes nothing. */
  lemma {:induction false} DeployTwice(k: Cluster, c: DeployCall)
    requires Apply(k, c).1.None?
    ensures var ok := Outcome(false, None);
            Apply(Apply(k, c).0, c.(cm := ok, svc := ok)) == (Apply(k, c).0, None)
  {
    if c.fn.deployType == MANAGED {
      ConfigMapTwice(k, c.ns, c.fn, c.cm);
      var k1 := EnsureConfigMap(k, c.ns, c.fn, c.cm).0;
      ServiceTwice(k1, c.ns, c.fn, c.svc);
      SettledConfigMap(EnsureService(k1, c.ns, c.fn, c.svc).0, k1, c.ns, c.fn);
    } else {
      ServiceTwice(k, c.ns, c.fn, c.svc);
    }
  }

  lemma SettledConfigMap(k: Cluster, k1: Cluster, ns: string, fn: FunctionSpec)
    requires k.configMaps == k1.configMaps
    requires EnsureConfigMap(k1, ns, fn, Outcome(false, None)) == (k1, None)
    ensures EnsureConfigMap(k, ns, fn, Outcome(false, None)) == (k, None)
  {
    var key := CodeKey(ns, fn);
    assert key in EnsureConfigMap(k1, ns, fn, Outcome(false, None)).0.configMaps;
    assert EnsureConfigMap(k1, ns, fn, Outcome(false, None)).0.configMaps == k1.configMaps;
  }

  /** What the platform reads back from a service. */
  function ServiceToFunction(name: string, s: Service): FunctionSpec
    requires |name| >= 3
  {
    FunctionSpec(name[3..],
                 if LABEL_RUNTIME in s.labels then s.labels[LABEL_RUNTIME] else "",
                 if LABEL_DEPLOY_TYPE in s.labels then s.labels[LABEL_DEPLOY_TYPE] else "", "", "", false)
  }

  /** Reading back a deployed service recovers name, runtime and deploy type. */
  lemma {:induction false} ReadBack(s: Service, hash: (string, string) -> string, fn: FunctionSpec, others: map<string, string>)
    requires Describes(s, hash, fn, others)
    ensures var r := ServiceToFunction(ServiceName(fn.name), s);
            r.name == fn.name && r.runtime == fn.runtime && r.deployType == fn.deployType
  {
    ServiceNameInjective(fn.name, fn.name);
  }

  /** The pod has an image to run, and a managed function's code under a name its runtime loads. */
  predicate PodRuns(fn: FunctionSpec) {
    && BasePodSpec(fn) == PodOf(fn) && PodOf(fn).image != ""
    && (fn.deployType == "managed" ==>
          && BuildData(fn) == FileOf(fn) && ("handler.py" in FileOf(fn) || "index.js" in FileOf(fn))
          && 1 <= |fn.code| <= 1_000_000)
  }

  /** A validated function has a pod that runs it. */
  lemma {:induction false} ValidFunctionRuns(fn: FunctionSpec)
    requires Runnable(fn)
    ensures PodRuns(fn)
  {
  }
}
