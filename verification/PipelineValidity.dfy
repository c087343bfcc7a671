/**
  Validation carried from requests to pods: a row stays runnable under every history except
  one in which an update lands on a row of another deploy type than the one it validated.
*/
module PipelineValidity {
  import opened Wrappers
  import opened Model
  import opened Tables
  import opened Cluster
  import opened Pipeline
  import opened PipelineTables
  import opened PipelineSafety

  predicate RunnableRow(row: FunctionRow) {
    Runnable(SpecOfRow(row))
  }

  /** The content a deploy type needs. */
  predicate Fits(deployType: string, code: string, image: string) {
    if deployType == MANAGED then 1 <= |code| <= MAX_CODE else image != ""
  }

  ghost predicate RunnableCall(a: Call) {
    match a
    case CreateLookup(_, _, req) => Runnable(req)
    case CreateInsert(_, _, req) => Runnable(req)
    case UpdateWrite(_, _, seen, code, image, _) => RunnableRow(seen) && Fits(seen.deployType, code, image)
    case Enqueue(_, _, row, _) => RunnableRow(row)
    case _ => true
  }

  ghost predicate RowsRunnable(s: State) {
    && (forall f | f in s.d.functions :: RunnableRow(s.d.functions[f]))
    && (forall c | c in s.calls :: RunnableCall(s.calls[c]))
    && (forall id | id in s.wrote :: RunnableRow(s.wrote[id].row))
  }

  /** The row an UPDATE is about to hit is not of the type its call validated against. */
  ghost predicate Mistyped(s: State, e: Event) {
    && e.Api? && e.ok && e.c in s.calls && s.calls[e.c].UpdateWrite?
    && var a := s.calls[e.c];
       && FindFunction(s.d, a.ws, a.seen.name).Some?
       && FindFunction(s.d, a.ws, a.seen.name).value.deployType != a.seen.deployType
  }

  lemma ValidatedIsRunnable(r: FunctionSpec)
    requires ValidateCreate(r).None?
    ensures Runnable(r)
  {
  }

  lemma RunnableContent(row: FunctionRow, code: string, image: string, public: bool)
    requires RunnableRow(row)
    ensures RunnableRow(WithContent(row, code, image, public)) <==> Fits(row.deployType, code, image)
  {
    NullRoundTrip(code);
    NullRoundTrip(image);
  }

  lemma ValidatedUpdateFits(row: FunctionRow, change: UpdateRequest)
    requires RunnableRow(row) && ValidateUpdate(change, row.deployType).None?
    ensures Fits(row.deployType,
                 if change.code != "" then change.code else Coalesce(row.code),
                 if change.image != "" then change.image else Coalesce(row.image))
  {
  }

  /** An update leaves a runnable row exactly when its content fits the type of the row it hits. */
  lemma {:induction false} UpdateRunnableIff(s: State, c: nat)
    requires Grounded(s) && RowsRunnable(s) && c in s.calls && s.calls[c].UpdateWrite?
    requires FindFunction(s.d, s.calls[c].ws, s.calls[c].seen.name).Some?
    ensures var a := s.calls[c];
            var row := FindFunction(s.d, a.ws, a.seen.name).value;
            (forall f | f in UpdateWritten(s, c, a).d.functions :: RunnableRow(UpdateWritten(s, c, a).d.functions[f]))
            <==> (row.deployType == a.seen.deployType || Fits(row.deployType, a.code, a.image))
  {
    var a := s.calls[c];
    FoundFunction(s.d, a.ws, a.seen.name);
    var row := FindFunction(s.d, a.ws, a.seen.name).value;
    var row' := WithContent(row, a.code, a.image, a.public);
    var fs := UpdateWritten(s, c, a).d.functions;
    RunnableContent(row, a.code, a.image, a.public);
    assert fs == s.d.functions[row.id := row'];
    assert fs[row.id] == row';
  }

  lemma UpdateRunnable(s: State, c: nat)
    requires Grounded(s) && RowsRunnable(s) && c in s.calls && s.calls[c].UpdateWrite? && !Mistyped(s, Api(c, true))
    ensures RowsRunnable(UpdateWritten(s, c, s.calls[c]))
  {
    var a := s.calls[c];
    if FindFunction(s.d, a.ws, a.seen.name).Some? {
      UpdateRunnableIff(s, c);
      FoundFunction(s.d, a.ws, a.seen.name);
      RunnableContent(FindFunction(s.d, a.ws, a.seen.name).value, a.code, a.image, a.public);
    }
  }

  lemma CreateRunnable(s: State, c: nat)
    requires RowsRunnable(s) && c in s.calls
    ensures s.calls[c].CreateLookup? ==> RowsRunnable(CreateLookedUp(s, c, s.calls[c]))
    ensures s.calls[c].CreateInsert? ==> RowsRunnable(CreateInserted(s, c, s.calls[c]))
  {
    var a := s.calls[c];
    if a.CreateInsert? {
      NullRoundTrip(a.req.code);
      NullRoundTrip(a.req.image);
    }
  }

  lemma UpdateLookupRunnable(s: State, c: nat)
    requires Grounded(s) && RowsRunnable(s) && c in s.calls && s.calls[c].UpdateLookup?
    ensures RowsRunnable(UpdateLookedUp(s, c, s.calls[c]))
  {
    var a := s.calls[c];
    if FindFunction(s.d, a.ws, a.name).Some? {
      FoundFunction(s.d, a.ws, a.name);
      var row := FindFunction(s.d, a.ws, a.name).value;
      if ValidateUpdate(a.change, row.deployType).None? {
        ValidatedUpdateFits(row, a.change);
      }
    }
  }

  /** Rows and calls are dropped or kept, and nothing new appears. */
  ghost predicate OnlyDrops(s: State, s': State, c: nat) {
    && s'.wrote == s.wrote
    && (forall f | f in s'.d.functions :: f in s.d.functions && s'.d.functions[f] == s.d.functions[f])
    && (forall x | x in s'.calls && x != c :: x in s.calls && s'.calls[x] == s.calls[x])
    && (c in s'.calls ==> RunnableCall(s'.calls[c]))
  }

  lemma OnlyDropsRunnable(s: State, s': State, c: nat)
    requires RowsRunnable(s) && OnlyDrops(s, s', c)
    ensures RowsRunnable(s')
  {
  }

  lemma DeleteOnlyDrops(s: State, c: nat)
    requires c in s.calls
    ensures s.calls[c].DeleteRow? ==> OnlyDrops(s, RowDeleted(s, c, s.calls[c]), c)
    ensures s.calls[c].DropService? ==> OnlyDrops(s, ServiceDropped(s, c, s.calls[c]), c)
    ensures s.calls[c].DropConfigMap? ==> OnlyDrops(s, ConfigMapDropped(s, c, s.calls[c]), c)
    ensures s.calls[c].DropNamespace? ==> OnlyDrops(s, NamespaceDropped(s, c, s.calls[c]), c)
    ensures OnlyDrops(s, End(s, c), c)
  {
  }

  lemma RequestOnlyDrops(s: State, c: nat, ok: bool)
    requires c in s.calls
    ensures s.calls[c].Publish? ==> OnlyDrops(s, PublishTried(s, c, s.calls[c], ok), c)
    ensures s.calls[c].Compensate? ==> OnlyDrops(s, CompensationWritten(s, c, s.calls[c]), c)
  {
  }

  lemma EnqueueRunnable(s: State, c: nat)
    requires RowsRunnable(s) && c in s.calls && s.calls[c].Enqueue?
    ensures RowsRunnable(Enqueued(s, c, s.calls[c]))
  {
  }

  lemma ApiStepRunnable(s: State, c: nat, ok: bool)
    requires Grounded(s) && RowsRunnable(s) && !Mistyped(s, Api(c, ok))
    ensures RowsRunnable(ApiStep(s, c, ok))
  {
    if c in s.calls {
      DeleteOnlyDrops(s, c);
      RequestOnlyDrops(s, c, ok);
      OnlyDropsRunnable(s, End(s, c), c);
      match s.calls[c]
      case CreateLookup(_, _, _) => CreateRunnable(s, c);
      case CreateInsert(_, _, _) => CreateRunnable(s, c);
      case UpdateLookup(_, _, _, _) => UpdateLookupRunnable(s, c);
      case UpdateWrite(_, _, _, _, _, _) => if ok { UpdateRunnable(s, c); }
      case Enqueue(_, _, _, _) => EnqueueRunnable(s, c);
      case Publish(_) => OnlyDropsRunnable(s, ApiStep(s, c, ok), c);
      case Compensate(_) => OnlyDropsRunnable(s, ApiStep(s, c, ok), c);
      case DeleteRow(_, _, _) => OnlyDropsRunnable(s, ApiStep(s, c, ok), c);
      case DropService(_, _) => OnlyDropsRunnable(s, ApiStep(s, c, ok), c);
      case DropConfigMap(_, _) => OnlyDropsRunnable(s, ApiStep(s, c, ok), c);
      case DropNamespace(_) => OnlyDropsRunnable(s, ApiStep(s, c, ok), c);
    }
  }

  lemma BegunRunnable(s: State, e: Event)
    requires RowsRunnable(s) && (e.BeginUpdate? || e.BeginDelete? || e.BeginDeleteWorkspace?)
    ensures RowsRunnable(Next(s, e))
  {
    assert e.c in s.calls ==> Next(s, e) == s;
    OnlyDropsRunnable(s, Next(s, e), e.c);
  }

  lemma QuietRunnable(s: State, e: Event)
    requires RowsRunnable(s)
    requires e.CreateWorkspace? || e.Garbage? || e.Tick? || e.Abandon?
    ensures RowsRunnable(Next(s, e))
  {
    OnlyDropsRunnable(s, Next(s, e), 0);
  }

  lemma WorkerEventRunnable(s: State, e: Event)
    requires RowsRunnable(s) && (e.Start? || e.Deliver? || e.Crash?)
    ensures RowsRunnable(Next(s, e))
  {
    OnlyDropsRunnable(s, Next(s, e), 0);
  }

  lemma WorkRunnable(s: State, luck: Luck)
    requires RowsRunnable(s)
    ensures RowsRunnable(Worked(s, luck))
  {
    WorkedFunctions(s, luck);
    OnlyDropsRunnable(s, Worked(s, luck), 0);
  }

  lemma WorkedFunctions(s: State, luck: Luck)
    ensures var s' := Worked(s, luck);
            s'.d.functions == s.d.functions && s'.calls == s.calls && s'.wrote == s.wrote
  {
    match s.w
    case Exec(_, _, _) => ExecStepFunctions(s, luck);
    case Failing(_, _, _) =>
    case SweepNext(_) =>
    case SweepFunction(_, _, _) =>
    case Settling(_, _) =>
    case Idle =>
    case Down =>
  }

  lemma ExecStepFunctions(s: State, luck: Luck)
    requires s.w.Exec?
    ensures var s' := ExecStep(s, luck);
            s'.d.functions == s.d.functions && s'.calls == s.calls && s'.wrote == s.wrote
  {
    match s.w.phase
    case ToBuilding =>
    case ToNamespace =>
    case ToRbac =>
    case ToDeploying =>
    case ToConfigMap =>
    case ToService =>
    case ToRunning =>
  }

  lemma BeginCreateRunnable(s: State, c: nat, slug: string, req: FunctionSpec)
    requires RowsRunnable(s)
    ensures RowsRunnable(BegunCreate(s, c, slug, req))
  {
    if ValidateCreate(req).None? {
      ValidatedIsRunnable(req);
    }
  }

  lemma {:induction false} StepRunnable(s: State, e: Event)
    requires Grounded(s) && RowsRunnable(s) && !Mistyped(s, e)
    ensures RowsRunnable(Next(s, e))
  {
    match e
    case Api(c, ok) => ApiStepRunnable(s, c, ok);
    case BeginCreate(c, slug, req) => BeginCreateRunnable(s, c, slug, req);
    case Work(luck) => WorkRunnable(s, luck);
    case BeginUpdate(_, _, _, _) => BegunRunnable(s, e);
    case BeginDelete(_, _, _) => BegunRunnable(s, e);
    case BeginDeleteWorkspace(_, _) => BegunRunnable(s, e);
    case CreateWorkspace(_) => QuietRunnable(s, e);
    case Garbage => QuietRunnable(s, e);
    case Tick(_) => QuietRunnable(s, e);
    case Abandon(_) => QuietRunnable(s, e);
    case Start(_, _) => WorkerEventRunnable(s, e);
    case Deliver(_) => WorkerEventRunnable(s, e);
    case Crash => WorkerEventRunnable(s, e);
  }

  // ----- whole runs -----

  ghost predicate TypedAt(k: Cluster, es: seq<Event>, n: nat)
    requires n < |es|
  {
    !Mistyped(StateAt(k, es, n), es[n])
  }

  ghost predicate NeverMistyped(k: Cluster, es: seq<Event>) {
    forall n | 0 <= n < |es| :: TypedAt(k, es, n)
  }

  lemma StepRunnableAt(k: Cluster, es: seq<Event>, n: nat)
    requires n < |es| && NeverMistyped(k, es) && RowsRunnable(StateAt(k, es, n))
    ensures RowsRunnable(StateAt(k, es, n + 1))
  {
    RunGrounded(k, es[..n]);
    StateAtNext(k, es, n);
    assert TypedAt(k, es, n);
    StepRunnable(StateAt(k, es, n), es[n]);
  }

  lemma {:induction false} RunRunnable(k: Cluster, es: seq<Event>, n: nat)
    requires n <= |es| && NeverMistyped(k, es)
    ensures RowsRunnable(StateAt(k, es, n))
  {
    if n > 0 {
      RunRunnable(k, es, n - 1);
      StepRunnableAt(k, es, n - 1);
    }
  }

  ghost predicate RunsAsPod(fn: FunctionSpec) {
    Runnable(fn) && PodRuns(fn)
  }

  /**
    Every row, every queued request and every request a sweep could build gives a pod with an
    image and, if managed, loadable code.
  */
  lemma {:induction false} RequestsAreRunnable(k: Cluster, es: seq<Event>)
    requires NeverMistyped(k, es)
    ensures var s := Run(Init(k), es);
            && (forall f | f in s.d.functions :: RunsAsPod(SpecOfRow(s.d.functions[f])))
            && (forall i | 0 <= i < |s.q| && s.q[i].body.Some? :: RunsAsPod(FunctionOf(s.q[i].body.value)))
            && (forall row: ListedRow, slug: string, f | f in s.d.functions ::
                  RunsAsPod(FunctionOf(SweepRequest(row, slug, s.d.functions[f]))))
  {
    assert es[..|es|] == es;
    RunRunnable(k, es, |es|);
    RunGrounded(k, es);
    var s := Run(Init(k), es);
    forall f | f in s.d.functions
      ensures RunsAsPod(SpecOfRow(s.d.functions[f]))
    {
      assert RunnableRow(s.d.functions[f]);
      ValidFunctionRuns(SpecOfRow(s.d.functions[f]));
    }
    forall i | 0 <= i < |s.q| && s.q[i].body.Some?
      ensures RunsAsPod(FunctionOf(s.q[i].body.value))
    {
      assert Faithful(s, s.q[i].body.value);
      ValidFunctionRuns(FunctionOf(s.q[i].body.value));
    }
    forall row: ListedRow, slug: string, f | f in s.d.functions
      ensures RunsAsPod(FunctionOf(SweepRequest(row, slug, s.d.functions[f])))
    {
      SweptRunsAsPod(row, slug, s.d.functions[f]);
    }
  }

  lemma SweptRunsAsPod(row: ListedRow, slug: string, fn: FunctionRow)
    requires RunnableRow(fn)
    ensures RunsAsPod(FunctionOf(SweepRequest(row, slug, fn)))
  {
    ValidFunctionRuns(FunctionOf(SweepRequest(row, slug, fn)));
  }

  // ----- runtime and deploy type never change -----

  lemma SuccessorAt(k: Cluster, es: seq<Event>, n: nat)
    requires n < |es|
    ensures Successor(StateAt(k, es, n).d, StateAt(k, es, n + 1).d)
  {
    RunGrounded(k, es[..n]);
    StateAtNext(k, es, n);
    NextSuccessor(StateAt(k, es, n), es[n]);
  }

  lemma {:induction false} SuccessorTo(k: Cluster, es: seq<Event>, m: nat, n: nat)
    requires m <= n <= |es|
    ensures Successor(StateAt(k, es, m).d, StateAt(k, es, n).d)
    decreases n
  {
    if m == n {
      RunGrounded(k, es[..m]);
      SameDb(StateAt(k, es, m).d);
    } else {
      SuccessorTo(k, es, m, n - 1);
      SuccessorAt(k, es, n - 1);
      SuccessorTrans(StateAt(k, es, m).d, StateAt(k, es, n - 1).d, StateAt(k, es, n).d);
    }
  }

  /**
    Over any stretch of any run a function keeps its workspace, name, runtime and deploy type,
    and its id is never given to another.
  */
  lemma {:induction false} IdentityNeverChanges(k: Cluster, es: seq<Event>, m: nat, n: nat, f: int)
    requires m <= n <= |es| && f in StateAt(k, es, m).d.functions && f in StateAt(k, es, n).d.functions
    ensures SameIdentity(StateAt(k, es, m).d.functions[f], StateAt(k, es, n).d.functions[f])
  {
    SuccessorTo(k, es, m, n);
    RunGrounded(k, es[..m]);
  }

  // ----- without deletes an update finds the row it validated -----

  ghost predicate NoDeletes(es: seq<Event>) {
    forall e | e in es :: !e.BeginDelete? && !e.BeginDeleteWorkspace?
  }

  /** The rows that updates have validated against are still there, and no call deletes one. */
  ghost predicate SeenRowsStay(s: State) {
    forall c | c in s.calls ::
      !s.calls[c].DeleteRow? && (s.calls[c].UpdateWrite? ==> s.calls[c].seen.id in s.d.functions)
  }

  ghost predicate FunctionsStay(s: State, s': State, c: nat) {
    && (forall f | f in s.d.functions :: f in s'.d.functions)
    && (forall x | x in s'.calls && x != c :: x in s.calls && s'.calls[x] == s.calls[x])
  }

  /** What a call holds next is again no delete, and the row an update has seen is there. */
  ghost predicate HoldsSeen(s: State, s': State, c: nat) {
    && FunctionsStay(s, s', c)
    && (c in s'.calls ==>
          !s'.calls[c].DeleteRow? && (s'.calls[c].UpdateWrite? ==> s'.calls[c].seen.id in s.d.functions))
  }

  lemma HoldsSeenCreate(s: State, c: nat)
    requires Consistent(s.d) && c in s.calls
    ensures s.calls[c].CreateLookup? ==> HoldsSeen(s, CreateLookedUp(s, c, s.calls[c]), c)
    ensures s.calls[c].CreateInsert? ==> HoldsSeen(s, CreateInserted(s, c, s.calls[c]), c)
    ensures s.calls[c].Enqueue? ==> HoldsSeen(s, Enqueued(s, c, s.calls[c]), c)
    ensures HoldsSeen(s, End(s, c), c)
  {
  }

  lemma HoldsSeenUpdate(s: State, c: nat)
    requires Consistent(s.d) && c in s.calls
    ensures s.calls[c].UpdateLookup? ==> HoldsSeen(s, UpdateLookedUp(s, c, s.calls[c]), c)
    ensures s.calls[c].UpdateWrite? ==> HoldsSeen(s, UpdateWritten(s, c, s.calls[c]), c)
  {
    var a := s.calls[c];
    if a.UpdateLookup? && FindFunction(s.d, a.ws, a.name).Some? {
      FoundFunction(s.d, a.ws, a.name);
    }
  }

  lemma HoldsSeenRequest(s: State, c: nat, ok: bool)
    requires c in s.calls
    ensures s.calls[c].Publish? ==> HoldsSeen(s, PublishTried(s, c, s.calls[c], ok), c)
    ensures s.calls[c].Compensate? ==> HoldsSeen(s, CompensationWritten(s, c, s.calls[c]), c)
  {
  }

  lemma HoldsSeenDrop(s: State, c: nat)
    requires c in s.calls
    ensures s.calls[c].DropService? ==> HoldsSeen(s, ServiceDropped(s, c, s.calls[c]), c)
    ensures s.calls[c].DropConfigMap? ==> HoldsSeen(s, ConfigMapDropped(s, c, s.calls[c]), c)
    ensures s.calls[c].DropNamespace? ==> HoldsSeen(s, NamespaceDropped(s, c, s.calls[c]), c)
  {
  }

  lemma HoldsSeenApi(s: State, c: nat, ok: bool)
    requires Consistent(s.d) && c in s.calls && !s.calls[c].DeleteRow?
    ensures HoldsSeen(s, ApiStep(s, c, ok), c)
  {
    HoldsSeenCreate(s, c);
    HoldsSeenUpdate(s, c);
    HoldsSeenRequest(s, c, ok);
    HoldsSeenDrop(s, c);
  }

  lemma SeenRowsStayStep(s: State, e: Event)
    requires Grounded(s) && SeenRowsStay(s) && !e.BeginDelete? && !e.BeginDeleteWorkspace?
    ensures SeenRowsStay(Next(s, e))
  {
    match e
    case Api(c, ok) =>
      if c in s.calls {
        HoldsSeenApi(s, c, ok);
      }
    case Work(luck) => WorkedFunctions(s, luck);
    case _ =>
  }

  /** The UPDATE then hits the row its call saw. */
  ghost predicate HitsSeen(s: State, e: Event) {
    e.Api? && e.c in s.calls && s.calls[e.c].UpdateWrite? ==>
      var found := FindFunction(s.d, s.calls[e.c].ws, s.calls[e.c].seen.name);
      found.Some? ==> found.value.id == s.calls[e.c].seen.id
  }

  lemma SeenRowIsFound(s: State, e: Event)
    requires Grounded(s) && SeenRowsStay(s)
    ensures HitsSeen(s, e) && !Mistyped(s, e)
  {
    if e.Api? && e.c in s.calls && s.calls[e.c].UpdateWrite? {
      var a := s.calls[e.c];
      if FindFunction(s.d, a.ws, a.seen.name).Some? {
        assert CallGrounded(s.d, a);
        FoundFunction(s.d, a.ws, a.seen.name);
        assert SameIdentity(a.seen, s.d.functions[a.seen.id]);
        assert FindFunction(s.d, a.ws, a.seen.name).value.id == a.seen.id;
      }
    }
  }

  lemma {:induction false} RunSeenRowsStay(k: Cluster, es: seq<Event>)
    requires NoDeletes(es)
    ensures SeenRowsStay(Run(Init(k), es))
  {
    if es != [] {
      RunSeenRowsStay(k, es[..|es| - 1]);
      RunGrounded(k, es[..|es| - 1]);
      SeenRowsStayStep(Run(Init(k), es[..|es| - 1]), es[|es| - 1]);
    }
  }

  /** Over all creates and updates, however they interleave, every row stays runnable. */
  lemma {:induction false} RunnableWithoutDeletes(k: Cluster, es: seq<Event>)
    requires NoDeletes(es)
    ensures NeverMistyped(k, es) && RowsRunnable(Run(Init(k), es))
  {
    forall n | 0 <= n < |es|
      ensures TypedAt(k, es, n)
    {
      RunSeenRowsStay(k, es[..n]);
      RunGrounded(k, es[..n]);
      SeenRowIsFound(StateAt(k, es, n), es[n]);
    }
    assert es[..|es|] == es;
    RunRunnable(k, es, |es|);
  }

  // ----- a run with a delete in between -----

  const CHANGE := UpdateRequest("y", "", None)
  const BYOI_REQ := FunctionSpec("ab", GO, BYOI, "", "i", false)

  /** A request to create the function anew. */
  predicate Anew(req: FunctionSpec) {
    req.name == "ab" && ValidateCreate(req).None?
  }

  function AnewRow(req: FunctionSpec): FunctionRow {
    FunctionRow(2, 1, req.name, req.runtime, req.deployType, Nullable(req.code), Nullable(req.image), req.public)
  }

  /** The managed function has been seen by an update, deleted, and created anew. */
  function Replaced(k: Cluster, req: FunctionSpec): State {
    State(Db(map[1 := WorkspaceRow(1, "a")], map[2 := AnewRow(req)], map[], 2, 3, 2), k, [], Down,
          map[0 := Publish(RequestOf(1, 1, "a", REQ)), 1 := UpdateWrite("a", 1, ROW, "y", "", false),
              2 := DropService(Namespace("a"), "ab"), 3 := Enqueue("a", 1, AnewRow(req), req)], 0,
          map[1 := InCall(0)], map[1 := Written("a", ROW)])
  }

  function Seeing(k: Cluster): State {
    To(OnePending(k), 1, UpdateLookup("a", 1, "ab", CHANGE))
  }

  function Seen(k: Cluster): State {
    To(OnePending(k), 1, UpdateWrite("a", 1, ROW, "y", "", false))
  }

  function SeenAndDeleted(k: Cluster): State {
    To(Seen(k).(d := Seen(k).d.(functions := map[], deployments := map[])), 2, DropService(Namespace("a"), "ab"))
  }

  lemma SeeManaged(k: Cluster)
    ensures Next(OnePending(k), BeginUpdate(1, "a", "ab", CHANGE)) == Seeing(k) && ApiStep(Seeing(k), 1, true) == Seen(k)
  {
    ReachOnePending(k);
    RunGrounded(k, CALLS);
    var s := OnePending(k);
    assert s.d.workspaces[1].slug == "a" && s.d.functions[1].name == "ab";
    FoundWorkspace(s.d, "a");
    FoundFunction(s.d, 1, "ab");
    assert Next(s, BeginUpdate(1, "a", "ab", CHANGE)) == Seeing(k);
  }

  lemma DeleteManaged(k: Cluster)
    ensures Next(Seen(k), BeginDelete(2, "a", "ab")) == To(Seen(k), 2, DeleteRow("a", 1, "ab"))
    ensures ApiStep(To(Seen(k), 2, DeleteRow("a", 1, "ab")), 2, true) == SeenAndDeleted(k)
  {
    ReachOnePending(k);
    RunGrounded(k, CALLS);
    var s := Seen(k);
    assert s.d.workspaces[1].slug == "a" && s.d.functions[1].name == "ab";
    FoundWorkspace(s.d, "a");
    FoundFunction(s.d, 1, "ab");
    assert Next(s, BeginDelete(2, "a", "ab")) == To(s, 2, DeleteRow("a", 1, "ab"));
    assert DeleteFunction(s.d, 1) == s.d.(functions := map[], deployments := map[]);
  }

  lemma CreateAnew(k: Cluster, req: FunctionSpec)
    requires Anew(req)
    ensures Next(SeenAndDeleted(k), BeginCreate(3, "a", req)) == To(SeenAndDeleted(k), 3, CreateLookup("a", 1, req))
    ensures ApiStep(To(SeenAndDeleted(k), 3, CreateLookup("a", 1, req)), 3, true)
         == To(SeenAndDeleted(k), 3, CreateInsert("a", 1, req))
    ensures ApiStep(To(SeenAndDeleted(k), 3, CreateInsert("a", 1, req)), 3, true) == Replaced(k, req)
  {
    var s2 := SeenAndDeleted(k);
    assert s2.d.workspaces[1].slug == "a";
    assert FindWorkspace(s2.d, "a") == Some(WorkspaceRow(1, "a"));
  }

  const SEE_AND_DELETE := [BeginUpdate(1, "a", "ab", CHANGE), Api(1, true), BeginDelete(2, "a", "ab"), Api(2, true)]

  function CreateAgain(req: FunctionSpec): seq<Event> {
    [BeginCreate(3, "a", req), Api(3, true), Api(3, true)]
  }

  function Interleaved(req: FunctionSpec): seq<Event> {
    SEE_AND_DELETE + CreateAgain(req)
  }

  lemma RunThree(s: State, e: Event, f: Event, g: Event)
    ensures Run(s, [e, f, g]) == Next(Next(Next(s, e), f), g)
  {
    RunSnoc(s, [], e);
    RunSnoc(s, [e], f);
    RunSnoc(s, [e, f], g);
    assert [] + [e] == [e] && [e] + [f] == [e, f] && [e, f] + [g] == [e, f, g];
  }

  lemma RunFour(s: State, e: Event, f: Event, g: Event, h: Event)
    ensures Run(s, [e, f, g, h]) == Next(Next(Next(Next(s, e), f), g), h)
  {
    RunThree(s, e, f, g);
    RunSnoc(s, [e, f, g], h);
    assert [e, f, g] + [h] == [e, f, g, h];
  }

  lemma ReachSeenAndDeleted(k: Cluster)
    ensures Run(OnePending(k), SEE_AND_DELETE) == SeenAndDeleted(k)
  {
    SeeManaged(k);
    DeleteManaged(k);
    RunFour(OnePending(k), BeginUpdate(1, "a", "ab", CHANGE), Api(1, true), BeginDelete(2, "a", "ab"), Api(2, true));
    assert Next(Seen(k), BeginDelete(2, "a", "ab")) == BegunDelete(Seen(k), 2, "a", "ab");
  }

  lemma FinishReplacing(k: Cluster, req: FunctionSpec)
    requires Anew(req)
    ensures Run(SeenAndDeleted(k), CreateAgain(req)) == Replaced(k, req)
  {
    CreateAnew(k, req);
    RunThree(SeenAndDeleted(k), BeginCreate(3, "a", req), Api(3, true), Api(3, true));
  }

  lemma ReachReplaced(k: Cluster, req: FunctionSpec)
    requires Anew(req)
    ensures Run(Init(k), CALLS + Interleaved(req)) == Replaced(k, req)
  {
    ReachOnePending(k);
    ReachSeenAndDeleted(k);
    FinishReplacing(k, req);
    RunAppend(OnePending(k), SEE_AND_DELETE, CreateAgain(req));
    RunAppend(Init(k), CALLS, Interleaved(req));
  }

  /** The update then writes its own code and image over the new function's. */
  lemma LastWrite(k: Cluster, req: FunctionSpec)
    requires Anew(req)
    ensures FindFunction(Replaced(k, req).d, 1, "ab") == Some(AnewRow(req))
    ensures ApiStep(Replaced(k, req), 1, true).d
         == Replaced(k, req).d.(functions := map[2 := WithContent(AnewRow(req), "y", "", false)])
  {
    ReachReplaced(k, req);
    RunGrounded(k, CALLS + Interleaved(req));
    var s := Replaced(k, req);
    assert s.d.functions[2].name == "ab";
    FoundFunction(s.d, 1, "ab");
  }

  lemma NullImageIsNotRunnable()
    ensures Anew(BYOI_REQ) && !RunnableRow(WithContent(AnewRow(BYOI_REQ), "y", "", false))
  {
    assert MatchesNameRegex("ab");
  }

  /** A byoi function created in between is left with no image. */
  lemma {:induction false} InterleavedDeleteBreaksRow(k: Cluster)
    ensures var s := Run(Init(k), CALLS + Interleaved(BYOI_REQ) + [Api(1, true)]);
            2 in s.d.functions && s.d.functions[2].deployType == BYOI && s.d.functions[2].image == None
            && !RunnableRow(s.d.functions[2])
  {
    NullImageIsNotRunnable();
    ReachReplaced(k, BYOI_REQ);
    RunSnoc(Init(k), CALLS + Interleaved(BYOI_REQ), Api(1, true));
    LastWrite(k, BYOI_REQ);
  }
}
