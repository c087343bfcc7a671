/**
  The API's operations in the form they have (internal/service/function.go): each method, left
  alone, leaves tables, stream and cluster as the protocol's steps for that call do.
*/
module FunctionService {
  import opened Wrappers
  import opened Model
  import opened Tables
  import opened Cluster
  import C = Cluster
  import opened Pipeline
  import opened PipelineTables
  import opened Deployer
  import opened Database

  /** What the caller gets back: the request could not be served, there is no such function, or its deployment. */
  datatype Answer = Refused(text: string) | Missing | Accepted(row: FunctionRow, deployment: int) | Done

  /** Whether each statement of a call works, in the order in which they are issued. */
  datatype Oks = Oks(workspace: bool, lookup: bool, write: bool, enqueue: bool, publish: bool)

  /** Call 0 alone, one statement after another. */
  ghost function Driven(s: State, oks: seq<bool>): State
    decreases |oks|
  {
    if oks == [] then s else Driven(ApiStep(s, 0, oks[0]), oks[1..])
  }

  lemma {:induction false} DrivenEnded(s: State, oks: seq<bool>)
    requires 0 !in s.calls
    ensures Driven(s, oks) == s
  {
    if oks != [] {
      DrivenEnded(s, oks[1..]);
    }
  }

  lemma DrivenOnce(s: State, ok: bool, oks: seq<bool>)
    ensures Driven(s, [ok] + oks) == Driven(ApiStep(s, 0, ok), oks)
  {
    assert ([ok] + oks)[1..] == oks;
  }

  lemma DrivenTwice(s: State, ok: bool, ok': bool, oks: seq<bool>)
    ensures Driven(s, [ok, ok'] + oks) == Driven(ApiStep(ApiStep(s, 0, ok), 0, ok'), oks)
  {
    assert [ok, ok'] + oks == [ok] + ([ok'] + oks);
    DrivenOnce(s, ok, [ok'] + oks);
    DrivenOnce(ApiStep(s, 0, ok), ok', oks);
  }

  function Holding(s: State, a: Call): State { s.(calls := map[0 := a]) }

  /** The statements after the function's row is written; the compensating one is taken to work. */
  function EnqueueOks(o: Oks): seq<bool> { [o.enqueue, o.publish] + [true] }

  /** A call about to insert its deployment: what it leaves, step by step. */
  lemma {:induction false} EnqueueAlone(s: State, slug: string, ws: int, row: FunctionRow, spec: FunctionSpec, o: Oks)
    requires s.calls == map[]
    ensures var r := Driven(Holding(s, Enqueue(slug, ws, row, spec)), EnqueueOks(o));
            var d' := InsertDeployment(s.d, row.id, ws, s.now);
            r.k == s.k && r.calls == map[]
            && if !o.enqueue || row.id !in s.d.functions || ws !in s.d.workspaces then r.d == s.d && r.q == s.q
               else if o.publish then
                 r.d == d' && r.q == s.q + [Message(Some(RequestOf(s.d.nextDeployment, ws, slug, spec)), 0, Open)]
               else r.d == SetError(d', s.d.nextDeployment, QUEUE_TEXT, s.now) && r.q == s.q
  {
    var s0 := Holding(s, Enqueue(slug, ws, row, spec));
    DrivenTwice(s0, o.enqueue, o.publish, [true]);
    var s1 := ApiStep(s0, 0, o.enqueue);
    if !o.enqueue || row.id !in s.d.functions || ws !in s.d.workspaces {
      assert s1 == End(s0, 0);
      DrivenEnded(s1, [true]);
    } else {
      EnqueuedAlone(s, slug, ws, row, spec, o);
    }
  }

  lemma EnqueuedAlone(s: State, slug: string, ws: int, row: FunctionRow, spec: FunctionSpec, o: Oks)
    requires s.calls == map[] && o.enqueue && row.id in s.d.functions && ws in s.d.workspaces
    ensures var s1 := ApiStep(Holding(s, Enqueue(slug, ws, row, spec)), 0, true);
            var r := Driven(ApiStep(s1, 0, o.publish), [true]);
            var d' := InsertDeployment(s.d, row.id, ws, s.now);
            r.k == s.k && r.calls == map[]
            && if o.publish then
                 r.d == d' && r.q == s.q + [Message(Some(RequestOf(s.d.nextDeployment, ws, slug, spec)), 0, Open)]
               else r.d == SetError(d', s.d.nextDeployment, QUEUE_TEXT, s.now) && r.q == s.q
  {
    var s0 := Holding(s, Enqueue(slug, ws, row, spec));
    var s1 := Enqueued(s0, 0, s0.calls[0]);
    assert ApiStep(s0, 0, true) == s1;
    var s2 := PublishTried(s1, 0, s1.calls[0], o.publish);
    assert ApiStep(s1, 0, o.publish) == s2;
    if o.publish {
      DrivenEnded(s2, [true]);
    } else {
      var s3 := CompensationWritten(s2, 0, s2.calls[0]);
      assert ApiStep(s2, 0, true) == s3;
      DrivenOnce(s2, true, []);
      assert [true] + [] == [true];
      assert s3.calls == map[];
    }
  }

  /** A call that is looked up and then written, up to its deployment. */
  function WriteOks(o: Oks): seq<bool> { [o.lookup, o.write] + EnqueueOks(o) }

  /** The create ends before it has written anything. */
  ghost predicate CreateStops(d: Db, slug: string, req: FunctionSpec, o: Oks) {
    || ValidateCreate(req).Some? || FindWorkspace(d, slug).None?
    || !o.lookup || FindFunction(d, FindWorkspace(d, slug).value.id, req.name).Some?
    || !o.write || !CanInsertFunction(d, FindWorkspace(d, slug).value.id, req.name)
  }

  lemma {:induction false} CreateStopped(s: State, slug: string, req: FunctionSpec, o: Oks)
    requires s.calls == map[] && CreateStops(s.d, slug, req, o)
    ensures Driven(Next(s, BeginCreate(0, slug, req)), WriteOks(o)) == s
  {
    DrivenTwice(Next(s, BeginCreate(0, slug, req)), o.lookup, o.write, EnqueueOks(o));
    if ValidateCreate(req).None? && FindWorkspace(s.d, slug).Some? {
      CreateTwoSteps(s, slug, FindWorkspace(s.d, slug).value.id, req, o);
    }
    DrivenEnded(s, EnqueueOks(o));
  }

  /** The create puts the row in, and has a deployment to queue. */
  lemma {:induction false} CreateAlone(s: State, slug: string, req: FunctionSpec, o: Oks)
    requires s.calls == map[] && !CreateStops(s.d, slug, req, o)
    ensures var ws := FindWorkspace(s.d, slug).value.id;
            Driven(Next(s, BeginCreate(0, slug, req)), WriteOks(o))
            == Driven(Holding(s.(d := InsertFunction(s.d, ws, req)), Enqueue(slug, ws, NewFunctionRow(s.d, ws, req), req)),
                      EnqueueOks(o))
  {
    DrivenTwice(Next(s, BeginCreate(0, slug, req)), o.lookup, o.write, EnqueueOks(o));
    CreateTwoSteps(s, slug, FindWorkspace(s.d, slug).value.id, req, o);
  }

  lemma CreateTwoSteps(s: State, slug: string, ws: int, req: FunctionSpec, o: Oks)
    requires s.calls == map[]
    ensures ApiStep(ApiStep(Holding(s, CreateLookup(slug, ws, req)), 0, o.lookup), 0, o.write)
         == if !o.lookup || FindFunction(s.d, ws, req.name).Some? || !o.write || !CanInsertFunction(s.d, ws, req.name) then s
            else Holding(s.(d := InsertFunction(s.d, ws, req)), Enqueue(slug, ws, NewFunctionRow(s.d, ws, req), req))
  {
    var s0 := Holding(s, CreateLookup(slug, ws, req));
    var s1 := ApiStep(s0, 0, o.lookup);
    if !o.lookup || FindFunction(s.d, ws, req.name).Some? {
      assert s1 == s;
    } else {
      assert s1 == Holding(s, CreateInsert(slug, ws, req));
      assert End(s1, 0) == s;
    }
  }

  /** The content an update writes: what is given, and what was there for the rest. */
  function NewCode(row: FunctionRow, change: UpdateRequest): string {
    if change.code != "" then change.code else Coalesce(row.code)
  }

  function NewImage(row: FunctionRow, change: UpdateRequest): string {
    if change.image != "" then change.image else Coalesce(row.image)
  }

  function NewPublic(row: FunctionRow, change: UpdateRequest): bool {
    if change.public.Some? then change.public.value else row.public
  }

  function ChangedSpec(row: FunctionRow, change: UpdateRequest): FunctionSpec {
    FunctionSpec(row.name, row.runtime, row.deployType, NewCode(row, change), NewImage(row, change), NewPublic(row, change))
  }

  function ChangedRow(row: FunctionRow, change: UpdateRequest): FunctionRow {
    WithContent(row, NewCode(row, change), NewImage(row, change), NewPublic(row, change))
  }

  lemma ChangedReadsBack(row: FunctionRow, change: UpdateRequest)
    ensures SpecOfRow(ChangedRow(row, change)) == ChangedSpec(row, change)
  {
    NullRoundTrip(NewCode(row, change));
    NullRoundTrip(NewImage(row, change));
  }

  lemma UpdateFirstStep(s: State, slug: string, ws: int, name: string, change: UpdateRequest, ok: bool)
    requires s.calls == map[]
    ensures ApiStep(Holding(s, UpdateLookup(slug, ws, name, change)), 0, ok)
         == if !ok || FindFunction(s.d, ws, name).None?
               || ValidateUpdate(change, FindFunction(s.d, ws, name).value.deployType).Some? then s
            else
              var row := FindFunction(s.d, ws, name).value;
              Holding(s, UpdateWrite(slug, ws, row, NewCode(row, change), NewImage(row, change), NewPublic(row, change)))
  {
    var s0 := Holding(s, UpdateLookup(slug, ws, name, change));
    assert End(s0, 0) == s;
  }

  lemma UpdateSecondStep(s: State, slug: string, ws: int, row: FunctionRow, change: UpdateRequest, ok: bool)
    requires s.calls == map[] && FindFunction(s.d, ws, row.name) == Some(row)
    ensures ApiStep(Holding(s, UpdateWrite(slug, ws, row, NewCode(row, change), NewImage(row, change), NewPublic(row, change))), 0, ok)
         == if !ok then s
            else Holding(s.(d := PutFunction(s.d, ChangedRow(row, change))),
                         Enqueue(slug, ws, ChangedRow(row, change), ChangedSpec(row, change)))
  {
    var s1 := Holding(s, UpdateWrite(slug, ws, row, NewCode(row, change), NewImage(row, change), NewPublic(row, change)));
    assert End(s1, 0) == s;
  }

  lemma UpdateTwoSteps(s: State, slug: string, ws: int, name: string, change: UpdateRequest, o: Oks)
    requires s.calls == map[]
    ensures ApiStep(ApiStep(Holding(s, UpdateLookup(slug, ws, name, change)), 0, o.lookup), 0, o.write)
         == if !o.lookup || FindFunction(s.d, ws, name).None? || !o.write
               || ValidateUpdate(change, FindFunction(s.d, ws, name).value.deployType).Some? then s
            else
              var row := FindFunction(s.d, ws, name).value;
              Holding(s.(d := PutFunction(s.d, ChangedRow(row, change))),
                      Enqueue(slug, ws, ChangedRow(row, change), ChangedSpec(row, change)))
  {
    UpdateFirstStep(s, slug, ws, name, change, o.lookup);
    if FindFunction(s.d, ws, name).Some? {
      UpdateSecondStep(s, slug, ws, FindFunction(s.d, ws, name).value, change, o.write);
    }
  }

  /** The update ends before it has written anything. */
  ghost predicate UpdateStops(d: Db, slug: string, name: string, change: UpdateRequest, o: Oks) {
    || FindWorkspace(d, slug).None?
    || !o.lookup || FindFunction(d, FindWorkspace(d, slug).value.id, name).None?
    || !o.write
    || ValidateUpdate(change, FindFunction(d, FindWorkspace(d, slug).value.id, name).value.deployType).Some?
  }

  lemma {:induction false} UpdateStopped(s: State, slug: string, name: string, change: UpdateRequest, o: Oks)
    requires s.calls == map[] && UpdateStops(s.d, slug, name, change, o)
    ensures Driven(Next(s, BeginUpdate(0, slug, name, change)), WriteOks(o)) == s
  {
    DrivenTwice(Next(s, BeginUpdate(0, slug, name, change)), o.lookup, o.write, EnqueueOks(o));
    if FindWorkspace(s.d, slug).Some? {
      UpdateTwoSteps(s, slug, FindWorkspace(s.d, slug).value.id, name, change, o);
    }
    DrivenEnded(s, EnqueueOks(o));
  }

  /** The update rewrites the row, and has a deployment to queue. */
  lemma {:induction false} UpdateAlone(s: State, slug: string, name: string, change: UpdateRequest, o: Oks)
    requires s.calls == map[] && !UpdateStops(s.d, slug, name, change, o)
    ensures var ws := FindWorkspace(s.d, slug).value.id;
            var row := FindFunction(s.d, ws, name).value;
            Driven(Next(s, BeginUpdate(0, slug, name, change)), WriteOks(o))
            == Driven(Holding(s.(d := PutFunction(s.d, ChangedRow(row, change))),
                              Enqueue(slug, ws, ChangedRow(row, change), ChangedSpec(row, change))), EnqueueOks(o))
  {
    DrivenTwice(Next(s, BeginUpdate(0, slug, name, change)), o.lookup, o.write, EnqueueOks(o));
    UpdateTwoSteps(s, slug, FindWorkspace(s.d, slug).value.id, name, change, o);
  }

  predicate Dropped(svc: C.Outcome) {
    !svc.getFails && svc.writeFails.None?
  }

  /** A call about to drop a service does what the deployer's Delete does. */
  lemma {:induction false} DropAlone(s: State, ns: string, name: string, svc: C.Outcome, codeFails: bool)
    requires s.calls == map[]
    ensures Driven(Holding(s, DropService(ns, name)), [Dropped(svc), !codeFails] + [])
         == s.(k := Deleted(s.k, ns, name, svc, codeFails).0)
  {
    var s0, key := Holding(s, DropService(ns, name)), Key(ns, ServiceName(name));
    DrivenTwice(s0, Dropped(svc), !codeFails, []);
    var s1 := ApiStep(s0, 0, Dropped(svc));
    if !Dropped(svc) || key !in s.k.services {
      assert s1 == s;
    } else {
      var labels := s.k.services[key].labels;
      var s2 := s.(k := s.k.(services := s.k.services - {key}));
      if LABEL_DEPLOY_TYPE in labels && labels[LABEL_DEPLOY_TYPE] == MANAGED {
        assert s1 == Holding(s2, DropConfigMap(ns, name));
        assert End(s1, 0) == s2;
      } else {
        assert s1 == s2;
      }
    }
  }

  /** Delete up to the removal of the row. */
  lemma DeleteAlone(s: State, slug: string, name: string, ok: bool, svc: C.Outcome, codeFails: bool)
    requires s.calls == map[]
    ensures var r := Driven(Next(s, BeginDelete(0, slug, name)), [ok] + ([Dropped(svc), !codeFails] + []));
            if FindWorkspace(s.d, slug).None? then r == s
            else
              var found := FindFunction(s.d, FindWorkspace(s.d, slug).value.id, name);
              r == if !ok || found.None? then s
                   else s.(d := DeleteFunction(s.d, found.value.id), k := Deleted(s.k, Namespace(slug), name, svc, codeFails).0)
  {
    var s0, rest := Next(s, BeginDelete(0, slug, name)), [Dropped(svc), !codeFails] + [];
    DrivenOnce(s0, ok, rest);
    if FindWorkspace(s.d, slug).None? {
      DrivenEnded(s, rest);
    } else {
      var ws := FindWorkspace(s.d, slug).value.id;
      var s1 := ApiStep(Holding(s, DeleteRow(slug, ws, name)), 0, ok);
      var found := FindFunction(s.d, ws, name);
      if !ok || found.None? {
        assert s1 == s;
        DrivenEnded(s, rest);
      } else {
        var s2 := s.(d := DeleteFunction(s.d, found.value.id));
        assert s1 == Holding(s2, DropService(Namespace(slug), name));
        DropAlone(s2, Namespace(slug), name, svc, codeFails);
      }
    }
  }

  /** The caller gets the deployment whose request was queued, and the request says what the returned row says. */
  ghost predicate AnswersQueued(r: Answer, before: seq<Message>, after: seq<Message>) {
    && (r.Accepted? <==> before != after)
    && (r.Accepted? ==>
          && |after| == |before| + 1 && after[|before|].body.Some?
          && after[|before|].body.value.deploymentId == r.deployment
          && FunctionOf(after[|before|].body.value) == SpecOfRow(r.row))
  }

  /** Every statement of the call works. */
  predicate AllWork(o: Oks) {
    o.workspace && o.lookup && o.write && o.enqueue && o.publish
  }

  /** A queued deployment of function f, and nothing else, has been added. */
  predicate DeploymentAdded(d: Db, d': Db, f: int, ws: int, now: int) {
    && d'.deployments == d.deployments[d.nextDeployment :=
                           DeploymentRow(d.nextDeployment, f, ws, Queued, None, now, None, None)]
    && d' == d.(deployments := d'.deployments, nextDeployment := d.nextDeployment + 1)
  }

  /** The request for deployment id, and nothing else, has been published. */
  predicate RequestAdded(q: seq<Message>, q': seq<Message>, id: int, ws: int, slug: string, spec: FunctionSpec) {
    q' == q + [Message(Some(DeployRequest(id, ws, spec.name, "fn-" + slug, spec.runtime, spec.deployType, spec.code,
                                          spec.image, spec.public)), 0, Open)]
  }

  /** A new row, column by column, its empty code or image NULL. */
  predicate RowOf(row: FunctionRow, id: int, ws: int, spec: FunctionSpec) {
    && row.id == id && row.workspaceId == ws && row.name == spec.name
    && row.runtime == spec.runtime && row.deployType == spec.deployType && row.public == spec.public
    && (if spec.code == "" then row.code == None else row.code == Some(spec.code))
    && (if spec.image == "" then row.image == None else row.image == Some(spec.image))
  }

  /** A function that can run, of a free name, in a workspace that exists. */
  ghost predicate Creatable(d: Db, slug: string, req: FunctionSpec) {
    && NamePattern(req.name) && Runnable(req) && SlugTaken(d, slug)
    && !NameTaken(d, FindWorkspace(d, slug).value.id, req.name)
  }

  lemma CreateGoesOn(d: Db, slug: string, req: FunctionSpec, o: Oks)
    requires Consistent(d)
    ensures !CreateStops(d, slug, req, o) <==> o.lookup && o.write && Creatable(d, slug, req)
  {
    AcceptedCreateIff(req);
    if SlugTaken(d, slug) {
      FoundWorkspace(d, slug);
    }
  }

  lemma NewRowOf(d: Db, ws: int, spec: FunctionSpec)
    requires CanInsertFunction(d, ws, spec.name)
    ensures var row := NewFunctionRow(d, ws, spec);
            && RowOf(row, d.nextFunction, ws, spec)
            && InsertFunction(d, ws, spec) == d.(functions := d.functions[row.id := row], nextFunction := d.nextFunction + 1)
  {
  }

  /** The row as it was, but for what the change gives. */
  predicate RowChanged(seen: FunctionRow, row: FunctionRow, change: UpdateRequest) {
    && SameIdentity(seen, row)
    && Coalesce(row.code) == (if change.code == "" then Coalesce(seen.code) else change.code)
    && Coalesce(row.image) == (if change.image == "" then Coalesce(seen.image) else change.image)
    && row.public == (match change.public case None => seen.public case Some(public) => public)
  }

  class FunctionService {
    const db: DB
    const deployer: KnativeDeployer
    var q: seq<Message>

    constructor (db: DB, deployer: KnativeDeployer)
      ensures this.db == db && this.deployer == deployer && q == []
    {
      this.db, this.deployer, q := db, deployer, [];
    }

    /** The protocol's state when nothing else is going on. */
    function Alone(): State
      reads this, db, deployer
    {
      State(db.d, deployer.Objects(), q, Pipeline.Idle, map[], db.now, map[], map[])
    }

    /** The call is over and has left tables, stream and cluster as in s. */
    ghost predicate Leaves(s: State)
      reads this, db, deployer
    {
      db.d == s.d && q == s.q && deployer.Objects() == s.k && s.calls == map[]
    }

    method WorkspaceID(slug: string, ok: bool) returns (ws: Option<int>)
      requires Consistent(db.d)
      ensures ws == if ok && FindWorkspace(db.d, slug).Some? then Some(FindWorkspace(db.d, slug).value.id) else None
    {
      var found := db.GetWorkspaceBySlug(slug);
      return if ok && found.Some? then Some(found.value.id) else None;
    }

    /** A deployment row, its request, and the compensation if the request cannot be published. */
    method QueueDeployment(slug: string, ws: int, row: FunctionRow, spec: FunctionSpec, o: Oks) returns (r: Answer)
      requires spec == SpecOfRow(row)
      modifies db`d, this`q
      ensures Leaves(Driven(Holding(old(Alone()), Enqueue(slug, ws, row, spec)), EnqueueOks(o)))
      ensures AnswersQueued(r, old(q), q)
      ensures if r.Accepted? then r.row == row && r.deployment == old(db.d).nextDeployment else r.Refused?
      ensures r.Accepted? <==> o.enqueue && o.publish && row.id in old(db.d).functions && ws in old(db.d).workspaces
      ensures r.Accepted? ==>
                && DeploymentAdded(old(db.d), db.d, row.id, ws, db.now)
                && RequestAdded(old(q), q, r.deployment, ws, slug, spec)
    {
      EnqueueAlone(Alone(), slug, ws, row, spec, o);
      var id := db.CreateDeployment(row.id, ws, o.enqueue);
      if id.None? {
        return Refused("create deployment");
      }
      var body := DeployRequest(id.value, ws, spec.name, "fn-" + slug, spec.runtime, spec.deployType, spec.code,
                                spec.image, spec.public);
      if !o.publish {
        db.UpdateDeploymentError(id.value, "failed to queue deployment");
        return Refused("queue deployment");
      }
      q := q + [Message(Some(body), 0, Open)];
      return Accepted(row, id.value);
    }

    /** The checks before anything is written: the request, its workspace, and that its name is free. */
    method CheckCreate(slug: string, req: FunctionSpec, o: Oks) returns (refusal: Option<string>, ws: int)
      requires Consistent(db.d)
      ensures refusal.None? <==> o.workspace && o.lookup && Creatable(db.d, slug, req)
      ensures refusal.None? ==> SlugTaken(db.d, slug) && ws == FindWorkspace(db.d, slug).value.id
    {
      AcceptedCreateIff(req);
      var invalid := ValidateCreate(req);
      if invalid.Some? {
        return Some("validation: " + invalid.value), 0;
      }
      var found := WorkspaceID(slug, o.workspace);
      if found.None? {
        return Some("workspace not found"), 0;
      }
      if !o.lookup {
        return Some("check existing"), 0;
      }
      var existing := db.GetFunction(found.value, req.name);
      if existing.Some? {
        return Some("already exists"), 0;
      }
      return None, found.value;
    }

    method Create(slug: string, req: FunctionSpec, o: Oks) returns (r: Answer)
      requires Consistent(db.d)
      modifies db`d, this`q
      ensures o.workspace ==> Leaves(Driven(Next(old(Alone()), BeginCreate(0, slug, req)), WriteOks(o)))
      ensures !o.workspace || ValidateCreate(req).Some? ==> r.Refused? && db.d == old(db.d) && q == old(q)
      ensures r.Accepted? || r.Refused?
      ensures AnswersQueued(r, old(q), q)
      ensures r.Accepted? <==> AllWork(o) && Creatable(old(db.d), slug, req)
      ensures r.Accepted? ==>
                var d, ws := old(db.d), FindWorkspace(old(db.d), slug).value.id;
                && RowOf(r.row, d.nextFunction, ws, req)
                && DeploymentAdded(d.(functions := d.functions[r.row.id := r.row], nextFunction := d.nextFunction + 1), db.d,
                                   r.row.id, ws, db.now)
                && RequestAdded(old(q), q, r.deployment, ws, slug, req)
    {
      ghost var s := Alone();
      if CreateStops(db.d, slug, req, o) {
        CreateStopped(s, slug, req, o);
      }
      CreateGoesOn(db.d, slug, req, o);
      var refusal, ws := CheckCreate(slug, req, o);
      if refusal.Some? {
        return Refused(refusal.value);
      }
      var row := db.CreateFunction(ws, req, o.write);
      if row.None? {
        return Refused("save function");
      }
      NewRowReadsBack(s.d, ws, req);
      NewRowOf(s.d, ws, req);
      assert Alone() == s.(d := InsertFunction(s.d, ws, req));
      CreateAlone(s, slug, req, o);
      r := QueueDeployment(slug, ws, row.value, req, o);
    }

    /** Absent fields keep what the row has. */
    method Merge(seen: FunctionRow, change: UpdateRequest) returns (code: string, image: string, public: bool)
      ensures WithContent(seen, code, image, public) == ChangedRow(seen, change)
      ensures FunctionSpec(seen.name, seen.runtime, seen.deployType, code, image, public) == ChangedSpec(seen, change)
    {
      code, image, public := Coalesce(seen.code), Coalesce(seen.image), seen.public;
      if change.code != "" {
        code := change.code;
      }
      if change.image != "" {
        image := change.image;
      }
      if change.public.Some? {
        public := change.public.value;
      }
    }

    method Update(slug: string, name: string, change: UpdateRequest, o: Oks) returns (r: Answer)
      requires Consistent(db.d)
      modifies db`d, this`q
      ensures o.workspace ==> Leaves(Driven(Next(old(Alone()), BeginUpdate(0, slug, name, change)), WriteOks(o)))
      ensures !o.workspace ==> r.Refused? && db.d == old(db.d) && q == old(q)
      ensures r.Missing? ==> db.d == old(db.d) && q == old(q)
      ensures r.Missing? <==>
                && o.workspace && o.lookup && SlugTaken(old(db.d), slug)
                && !NameTaken(old(db.d), FindWorkspace(old(db.d), slug).value.id, name)
      ensures AnswersQueued(r, old(q), q)
      ensures r.Accepted? <==>
                && AllWork(o) && SlugTaken(old(db.d), slug)
                && var ws := FindWorkspace(old(db.d), slug).value.id;
                   NameTaken(old(db.d), ws, name)
                   && Changeable(change, FindFunction(old(db.d), ws, name).value.deployType)
      ensures r.Accepted? ==>
                var d, ws := old(db.d), FindWorkspace(old(db.d), slug).value.id;
                && RowChanged(FindFunction(d, ws, name).value, r.row, change)
                && DeploymentAdded(d.(functions := d.functions[r.row.id := r.row]), db.d, r.row.id, ws, db.now)
                && RequestAdded(old(q), q, r.deployment, ws, slug, SpecOfRow(r.row))
    {
      ghost var s := Alone();
      if UpdateStops(db.d, slug, name, change, o) {
        UpdateStopped(s, slug, name, change, o);
      }
      var ws := WorkspaceID(slug, o.workspace);
      if ws.None? {
        return Refused("workspace not found");
      }
      if !o.lookup {
        return Refused("get function");
      }
      var seen := db.GetFunction(ws.value, name);
      if seen.None? {
        return Missing;
      }
      AcceptedUpdateIff(change, seen.value.deployType);
      var invalid := ValidateUpdate(change, seen.value.deployType);
      if invalid.Some? {
        return Refused("validation: " + invalid.value);
      }
      var code, image, public := Merge(seen.value, change);
      var failed, row := db.UpdateFunction(ws.value, name, code, image, public, o.write);
      if failed {
        return Refused("update function");
      }
      if row.None? {
        return Missing;
      }
      ChangedReadsBack(seen.value, change);
      assert Alone() == s.(d := PutFunction(s.d, row.value));
      UpdateAlone(s, slug, name, change, o);
      r := QueueDeployment(slug, ws.value, row.value,
                           FunctionSpec(name, row.value.runtime, row.value.deployType, code, image, public), o);
    }

    /** The row goes first; whether the service could be dropped is not reported. */
    method Delete(slug: string, name: string, wsOk: bool, ok: bool, svc: C.Outcome, codeFails: bool) returns (r: Answer)
      requires Consistent(db.d)
      modifies db`d, deployer
      ensures wsOk ==> Leaves(Driven(Next(old(Alone()), BeginDelete(0, slug, name)), [ok] + ([Dropped(svc), !codeFails] + [])))
      ensures r.Done? || r.Refused?
      ensures r.Refused? ==> db.d == old(db.d) && deployer.Objects() == old(deployer.Objects())
      ensures r.Done? ==> |db.d.functions| == |old(db.d).functions| - 1
      ensures r.Done? <==>
                && wsOk && ok && SlugTaken(old(db.d), slug)
                && NameTaken(old(db.d), FindWorkspace(old(db.d), slug).value.id, name)
    {
      DeleteAlone(Alone(), slug, name, ok, svc, codeFails);
      var ws := WorkspaceID(slug, wsOk);
      if ws.None? {
        return Refused("workspace not found");
      }
      ghost var found := FindFunction(db.d, ws.value, name);
      if found.Some? {
        FoundFunction(db.d, ws.value, name);
      }
      var failed := db.RemoveFunction(ws.value, name, ok);
      if failed {
        return Refused("delete function record");
      }
      var warning := deployer.Delete("fn-" + slug, name, svc, codeFails);
      return Done;
    }
  }
}
