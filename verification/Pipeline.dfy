/**
  The deploy pipeline as one protocol: API calls (internal/service/function.go), the request
  stream, the worker (internal/worker/deploy.go), the tables and the cluster.

  `Next` performs one atomic statement, publish, cluster call or settlement of one party; a
  run is any sequence of events, so it interleaves any number of API calls with the single
  worker, its crashes, restarts, sweeps and redeliveries, and lets every call fail.  Status
  writes of the worker and the compensating write of the API are taken to succeed.  An event
  that is not enabled changes nothing.
*/
module Pipeline {
  import opened Wrappers
  import opened Model
  import opened Tables
  import opened Cluster

  const MAX_DELIVER := 4
  const QUEUE_TEXT := "failed to queue deployment"
  const NO_WORKSPACE_TEXT := "workspace not found during recovery"
  const NO_FUNCTION_TEXT := "function not found during recovery"

  datatype Settlement = Open | Acked | Termed

  /** A body that does not decode is None. */
  datatype Message = Message(body: Option<DeployRequest>, delivered: nat, settled: Settlement)

  /** What the worker is executing for: a delivered message, or a row of its start-up sweep. */
  datatype Source = FromMessage(i: nat) | FromSweep(rest: seq<ListedRow>)

  /** The next thing executeDeploy will do. */
  datatype Phase = ToBuilding | ToNamespace | ToRbac | ToDeploying | ToConfigMap | ToService | ToRunning

  datatype Pc =
    | Down
    | Idle
    | SweepNext(rest: seq<ListedRow>)
    | SweepFunction(row: ListedRow, slug: string, rest: seq<ListedRow>)
    | Exec(phase: Phase, req: DeployRequest, src: Source)
    | Failing(id: int, text: string, src: Source)
    | Settling(i: nat, to: Settlement)

  /** An API call between two of its statements. */
  datatype Call =
    | CreateLookup(slug: string, ws: int, req: FunctionSpec)
    | CreateInsert(slug: string, ws: int, req: FunctionSpec)
    | UpdateLookup(slug: string, ws: int, name: string, change: UpdateRequest)
    | UpdateWrite(slug: string, ws: int, seen: FunctionRow, code: string, image: string, public: bool)
    | Enqueue(slug: string, ws: int, row: FunctionRow, spec: FunctionSpec)
    | Publish(body: DeployRequest)
    | Compensate(id: int)
    | DeleteRow(slug: string, ws: int, name: string)
    | DropService(ns: string, name: string)
    | DropConfigMap(ns: string, name: string)
    | DropNamespace(ns: string)

  /** Where the request of a deployment row is. */
  datatype Place = InCall(c: nat) | Published(i: nat) | Compensated | Abandoned

  /** The function row, and its workspace's slug, that the call behind a deployment had just written. */
  datatype Written = Written(slug: string, row: FunctionRow)

  /** `place` and `wrote` are history; no step looks at them. */
  datatype State = State(
    d: Db, k: Cluster, q: seq<Message>, w: Pc, calls: map<nat, Call>, now: int,
    place: map<int, Place>, wrote: map<int, Written>)

  /** How one worker step goes: `meta` is whether the message's metadata can be read. */
  datatype Luck = Luck(ok: bool, detail: string, getFails: bool, meta: bool)

  datatype Event =
    | BeginCreate(c: nat, slug: string, req: FunctionSpec)
    | BeginUpdate(c: nat, slug: string, name: string, change: UpdateRequest)
    | BeginDelete(c: nat, slug: string, name: string)
    | BeginDeleteWorkspace(c: nat, slug: string)
    | CreateWorkspace(slug: string)
    | Api(c: nat, ok: bool)
    | Abandon(c: nat)
    | Garbage
    | Tick(elapsed: nat)
    | Start(listing: seq<ListedRow>, listed: bool)
    | Deliver(i: nat)
    | Work(luck: Luck)
    | Crash

  function Init(k: Cluster): State {
    State(EmptyDb(), k, [], Down, map[], 0, map[], map[])
  }

  // ----- requests -----

  function Namespace(slug: string): string { "fn-" + slug }

  function RequestOf(id: int, ws: int, slug: string, spec: FunctionSpec): DeployRequest {
    DeployRequest(id, ws, spec.name, Namespace(slug), spec.runtime, spec.deployType, spec.code, spec.image, spec.public)
  }

  /** The request the sweep rebuilds from the listed row and the function as it is now. */
  function SweepRequest(row: ListedRow, slug: string, fn: FunctionRow): DeployRequest {
    RequestOf(row.id, row.workspaceId, slug, SpecOfRow(fn).(name := row.functionName))
  }

  function FunctionOf(req: DeployRequest): FunctionSpec {
    FunctionSpec(req.functionName, req.runtime, req.deployType, req.code, req.image, req.public)
  }

  // ----- API steps -----

  function To(s: State, c: nat, call: Call): State { s.(calls := s.calls[c := call]) }

  function End(s: State, c: nat): State { s.(calls := s.calls - {c}) }

  ghost function BegunCreate(s: State, c: nat, slug: string, req: FunctionSpec): State {
    if c in s.calls || ValidateCreate(req).Some? || FindWorkspace(s.d, slug).None? then s
    else To(s, c, CreateLookup(slug, FindWorkspace(s.d, slug).value.id, req))
  }

  ghost function BegunUpdate(s: State, c: nat, slug: string, name: string, change: UpdateRequest): State {
    if c in s.calls || FindWorkspace(s.d, slug).None? then s
    else To(s, c, UpdateLookup(slug, FindWorkspace(s.d, slug).value.id, name, change))
  }

  ghost function BegunDelete(s: State, c: nat, slug: string, name: string): State {
    if c in s.calls || FindWorkspace(s.d, slug).None? then s
    else To(s, c, DeleteRow(slug, FindWorkspace(s.d, slug).value.id, name))
  }

  ghost function BegunDeleteWorkspace(s: State, c: nat, slug: string): State {
    if c in s.calls || FindWorkspace(s.d, slug).None? then s
    else To(s.(d := DeleteWorkspace(s.d, FindWorkspace(s.d, slug).value.id)), c, DropNamespace(Namespace(slug)))
  }

  ghost function CreateLookedUp(s: State, c: nat, a: Call): State
    requires a.CreateLookup?
  {
    if FindFunction(s.d, a.ws, a.req.name).Some? then End(s, c) else To(s, c, CreateInsert(a.slug, a.ws, a.req))
  }

  ghost function CreateInserted(s: State, c: nat, a: Call): State
    requires a.CreateInsert?
  {
    if !CanInsertFunction(s.d, a.ws, a.req.name) then End(s, c)
    else To(s.(d := InsertFunction(s.d, a.ws, a.req)), c,
            Enqueue(a.slug, a.ws, NewFunctionRow(s.d, a.ws, a.req), a.req))
  }

  ghost function UpdateLookedUp(s: State, c: nat, a: Call): State
    requires a.UpdateLookup?
  {
    match FindFunction(s.d, a.ws, a.name)
    case None => End(s, c)
    case Some(row) =>
      if ValidateUpdate(a.change, row.deployType).Some? then End(s, c)
      else To(s, c, UpdateWrite(a.slug, a.ws, row,
                                if a.change.code != "" then a.change.code else Coalesce(row.code),
                                if a.change.image != "" then a.change.image else Coalesce(row.image),
                                if a.change.public.Some? then a.change.public.value else row.public))
  }

  /** The UPDATE finds its row by workspace and name, whichever row that is by now. */
  ghost function UpdateWritten(s: State, c: nat, a: Call): State
    requires a.UpdateWrite?
  {
    match FindFunction(s.d, a.ws, a.seen.name)
    case None => End(s, c)
    case Some(row) =>
      var row' := WithContent(row, a.code, a.image, a.public);
      To(s.(d := PutFunction(s.d, row')), c,
         Enqueue(a.slug, a.ws, row',
                 FunctionSpec(row'.name, row'.runtime, row'.deployType, a.code, a.image, a.public)))
  }

  ghost function Enqueued(s: State, c: nat, a: Call): State
    requires a.Enqueue?
  {
    if a.row.id !in s.d.functions || a.ws !in s.d.workspaces then End(s, c)
    else
      var id := s.d.nextDeployment;
      s.(d := InsertDeployment(s.d, a.row.id, a.ws, s.now),
         calls := s.calls[c := Publish(RequestOf(id, a.ws, a.slug, a.spec))],
         place := s.place[id := InCall(c)],
         wrote := s.wrote[id := Written(a.slug, a.row)])
  }

  ghost function PublishTried(s: State, c: nat, a: Call, ok: bool): State
    requires a.Publish?
  {
    if ok then
      s.(q := s.q + [Message(Some(a.body), 0, Open)], calls := s.calls - {c},
         place := s.place[a.body.deploymentId := Published(|s.q|)])
    else To(s, c, Compensate(a.body.deploymentId))
  }

  ghost function CompensationWritten(s: State, c: nat, a: Call): State
    requires a.Compensate?
  {
    s.(d := SetError(s.d, a.id, QUEUE_TEXT, s.now), calls := s.calls - {c}, place := s.place[a.id := Compensated])
  }

  ghost function RowDeleted(s: State, c: nat, a: Call): State
    requires a.DeleteRow?
  {
    match FindFunction(s.d, a.ws, a.name)
    case None => End(s, c)
    case Some(row) => To(s.(d := DeleteFunction(s.d, row.id)), c, DropService(Namespace(a.slug), a.name))
  }

  ghost function ServiceDropped(s: State, c: nat, a: Call): State
    requires a.DropService?
  {
    var key := Key(a.ns, ServiceName(a.name));
    if key !in s.k.services then End(s, c)
    else
      var labels := s.k.services[key].labels;
      var s' := s.(k := s.k.(services := s.k.services - {key}));
      if LABEL_DEPLOY_TYPE in labels && labels[LABEL_DEPLOY_TYPE] == MANAGED then To(s', c, DropConfigMap(a.ns, a.name))
      else End(s', c)
  }

  ghost function ConfigMapDropped(s: State, c: nat, a: Call): State
    requires a.DropConfigMap?
  {
    End(s.(k := s.k.(configMaps := s.k.configMaps - {Key(a.ns, ConfigMapName(a.name))})), c)
  }

  ghost function NamespaceDropped(s: State, c: nat, a: Call): State
    requires a.DropNamespace?
  {
    End(s.(k := s.k.(namespaces := s.k.namespaces - {a.ns},
                     services := map key | key in s.k.services && key.ns != a.ns :: s.k.services[key],
                     configMaps := map key | key in s.k.configMaps && key.ns != a.ns :: s.k.configMaps[key])), c)
  }

  /** One statement of a call.  A failed publish leads to compensation; any other failure ends the call. */
  ghost function ApiStep(s: State, c: nat, ok: bool): State {
    if c !in s.calls then s
    else
      var a := s.calls[c];
      if !ok && !a.Publish? && !a.Compensate? then End(s, c)
      else
        match a
        case CreateLookup(_, _, _) => CreateLookedUp(s, c, a)
        case CreateInsert(_, _, _) => CreateInserted(s, c, a)
        case UpdateLookup(_, _, _, _) => UpdateLookedUp(s, c, a)
        case UpdateWrite(_, _, _, _, _, _) => UpdateWritten(s, c, a)
        case Enqueue(_, _, _, _) => Enqueued(s, c, a)
        case Publish(_) => PublishTried(s, c, a, ok)
        case Compensate(_) => CompensationWritten(s, c, a)
        case DeleteRow(_, _, _) => RowDeleted(s, c, a)
        case DropService(_, _) => ServiceDropped(s, c, a)
        case DropConfigMap(_, _) => ConfigMapDropped(s, c, a)
        case DropNamespace(_) => NamespaceDropped(s, c, a)
  }

  /** The deployment whose request a call still has to publish or give up. */
  function Pending(a: Call): Option<int> {
    match a
    case Publish(body) => Some(body.deploymentId)
    case Compensate(id) => Some(id)
    case _ => None
  }

  /** The API process goes away in the middle of a call. */
  ghost function CallLost(s: State, c: nat): State {
    if c !in s.calls then s
    else
      End(s, c).(place := if Pending(s.calls[c]).Some? then s.place[Pending(s.calls[c]).value := Abandoned] else s.place)
  }

  // ----- worker steps -----

  ghost function Started(s: State, listing: seq<ListedRow>, listed: bool): State {
    if !s.w.Down? then s
    else if !listed then s.(w := Idle)
    else if IsActiveListing(s.d, listing) then s.(w := SweepNext(listing))
    else s
  }

  /** The consumer hands out any message not settled and delivered fewer than MAX_DELIVER times. */
  function Delivered(s: State, i: nat): State {
    if s.w.Idle? && i < |s.q| && s.q[i].settled.Open? && s.q[i].delivered < MAX_DELIVER then
      s.(q := s.q[i := s.q[i].(delivered := s.q[i].delivered + 1)],
         w := match s.q[i].body
              case None => Settling(i, Termed)
              case Some(req) => Exec(ToBuilding, req, FromMessage(i)))
    else s
  }

  function Settled(s: State, i: nat, to: Settlement, ok: bool): State {
    if ok && i < |s.q| then s.(q := s.q[i := s.q[i].(settled := to)], w := Idle) else s.(w := Idle)
  }

  function AfterSuccess(src: Source): Pc {
    match src
    case FromMessage(i) => Settling(i, Acked)
    case FromSweep(rest) => SweepNext(rest)
  }

  /** A failed attempt is retried by Nak until the last delivery; a failed sweep attempt fails the row. */
  function AfterFailure(q: seq<Message>, id: int, text: string, src: Source, meta: bool): Pc {
    match src
    case FromSweep(_) => Failing(id, "recovery failed: " + text, src)
    case FromMessage(i) =>
      if meta && i < |q| && q[i].delivered >= MAX_DELIVER then Failing(id, text, src) else Idle
  }

  function ErrorRecorded(s: State, id: int, text: string, src: Source): State {
    s.(d := SetError(s.d, id, text, s.now),
       w := match src
            case FromMessage(i) => Settling(i, Termed)
            case FromSweep(rest) => SweepNext(rest))
  }

  function SweepLookedUp(s: State, rest: seq<ListedRow>, ok: bool): State {
    if rest == [] then s.(w := Idle)
    else if ok && rest[0].workspaceId in s.d.workspaces then
      s.(w := SweepFunction(rest[0], s.d.workspaces[rest[0].workspaceId].slug, rest[1..]))
    else s.(w := Failing(rest[0].id, NO_WORKSPACE_TEXT, FromSweep(rest[1..])))
  }

  ghost function SweepPrepared(s: State, row: ListedRow, slug: string, rest: seq<ListedRow>, ok: bool): State {
    var found := FindFunction(s.d, row.workspaceId, row.functionName);
    if ok && found.Some? then s.(w := Exec(ToBuilding, SweepRequest(row, slug, found.value), FromSweep(rest)))
    else s.(w := Failing(row.id, NO_FUNCTION_TEXT, FromSweep(rest)))
  }

  /** A status write of executeDeploy, and on to the next phase. */
  function StatusWritten(s: State, status: DeployStatus, id: int, w: Pc): State {
    s.(d := SetStatus(s.d, id, status, s.now), w := w)
  }

  /** A cluster call of executeDeploy: on to the next phase, or out with the wrapped error. */
  function ClusterCalled(s: State, k: Cluster, err: Option<string>, what: string, next: Phase, luck: Luck): State
    requires s.w.Exec?
  {
    s.(k := k,
       w := if err.None? then s.w.(phase := next)
            else AfterFailure(s.q, s.w.req.deploymentId, what + err.value, s.w.src, luck.meta))
  }

  function Failure(luck: Luck): Option<string> {
    if luck.ok then None else Some(luck.detail)
  }

  function ExecStep(s: State, luck: Luck): State
    requires s.w.Exec?
  {
    var req, id, o := s.w.req, s.w.req.deploymentId, Outcome(luck.getFails, Failure(luck));
    match s.w.phase
    case ToBuilding => StatusWritten(s, Building, id, s.w.(phase := ToNamespace))
    case ToNamespace =>
      ClusterCalled(s, if luck.ok then s.k.(namespaces := s.k.namespaces + {req.ns}) else s.k, Failure(luck),
                    "ensure namespace: ", ToRbac, luck)
    case ToRbac => ClusterCalled(s, s.k, Failure(luck), "ensure rbac: ", ToDeploying, luck)
    case ToDeploying => StatusWritten(s, Deploying, id, s.w.(phase := ToConfigMap))
    case ToConfigMap =>
      var (k, err) := EnsureCode(s.k, req.ns, FunctionOf(req), o);
      ClusterCalled(s, k, err, "deploy to knative: ", ToService, luck)
    case ToService =>
      var (k, err) := EnsureService(s.k, req.ns, FunctionOf(req), o);
      ClusterCalled(s, k, err, "deploy to knative: ", ToRunning, luck)
    case ToRunning => StatusWritten(s, Running, id, AfterSuccess(s.w.src))
  }

  ghost function Worked(s: State, luck: Luck): State {
    match s.w
    case Down => s
    case Idle => s
    case SweepNext(rest) => SweepLookedUp(s, rest, luck.ok)
    case SweepFunction(row, slug, rest) => SweepPrepared(s, row, slug, rest, luck.ok)
    case Exec(_, _, _) => ExecStep(s, luck)
    case Failing(id, text, src) => ErrorRecorded(s, id, text, src)
    case Settling(i, to) => Settled(s, i, to, luck.ok)
  }

  // ----- runs -----

  ghost function Next(s: State, e: Event): State {
    match e
    case BeginCreate(c, slug, req) => BegunCreate(s, c, slug, req)
    case BeginUpdate(c, slug, name, change) => BegunUpdate(s, c, slug, name, change)
    case BeginDelete(c, slug, name) => BegunDelete(s, c, slug, name)
    case BeginDeleteWorkspace(c, slug) => BegunDeleteWorkspace(s, c, slug)
    case CreateWorkspace(slug) => s.(d := InsertWorkspace(s.d, slug))
    case Api(c, ok) => ApiStep(s, c, ok)
    case Abandon(c) => CallLost(s, c)
    case Garbage => s.(q := s.q + [Message(None, 0, Open)])
    case Tick(elapsed) => s.(now := s.now + elapsed)
    case Start(listing, listed) => Started(s, listing, listed)
    case Deliver(i) => Delivered(s, i)
    case Work(luck) => Worked(s, luck)
    case Crash => s.(w := Down)
  }

  ghost function Run(s: State, es: seq<Event>): State {
    if es == [] then s else Next(Run(s, es[..|es| - 1]), es[|es| - 1])
  }

  lemma RunSnoc(s: State, es: seq<Event>, e: Event)
    ensures Run(s, es + [e]) == Next(Run(s, es), e)
  {
    assert (es + [e])[..|es|] == es;
  }

  lemma {:induction false} RunAppend(s: State, es: seq<Event>, fs: seq<Event>)
    ensures Run(s, es + fs) == Run(Run(s, es), fs)
  {
    if fs == [] {
      assert es + fs == es;
    } else {
      var init := fs[..|fs| - 1];
      RunAppend(s, es, init);
      assert es + fs == (es + init) + [fs[|fs| - 1]];
      RunSnoc(s, es + init, fs[|fs| - 1]);
    }
  }
}
