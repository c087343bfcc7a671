/**
  The tables under the whole protocol: referential integrity and uniqueness in every
  reachable state, and what requests say about the rows behind them.
*/
module PipelineTables {
  import opened Model
  import opened Tables
  import opened Cluster
  import opened Pipeline

  /** A workspace id a call resolved still means that slug, if it means anything. */
  ghost predicate KnownWorkspace(d: Db, ws: int, slug: string) {
    ws < d.nextWorkspace && (ws in d.workspaces ==> d.workspaces[ws].slug == slug)
  }

  /** A function row a call has seen still has its identity, if it still exists. */
  ghost predicate KnownFunction(d: Db, row: FunctionRow) {
    row.id < d.nextFunction && (row.id in d.functions ==> SameIdentity(row, d.functions[row.id]))
  }

  ghost predicate CallGrounded(d: Db, a: Call) {
    match a
    case CreateLookup(slug, ws, _) => KnownWorkspace(d, ws, slug)
    case CreateInsert(slug, ws, _) => KnownWorkspace(d, ws, slug)
    case UpdateLookup(slug, ws, _, _) => KnownWorkspace(d, ws, slug)
    case UpdateWrite(slug, ws, seen, _, _, _) =>
      KnownWorkspace(d, ws, slug) && KnownFunction(d, seen) && seen.workspaceId == ws
    case Enqueue(slug, ws, row, spec) =>
      KnownWorkspace(d, ws, slug) && KnownFunction(d, row) && row.workspaceId == ws && spec == SpecOfRow(row)
    case DeleteRow(slug, ws, _) => KnownWorkspace(d, ws, slug)
    case _ => true
  }

  ghost predicate CallsGrounded(s: State) {
    forall c | c in s.calls :: CallGrounded(s.d, s.calls[c])
  }

  /** The request for a deployment, told from the row its call had just written. */
  function BodyOf(id: int, wr: Written): DeployRequest {
    RequestOf(id, wr.row.workspaceId, wr.slug, SpecOfRow(wr.row))
  }

  ghost predicate RowBehind(d: Db, id: int, wr: Written) {
    && KnownWorkspace(d, wr.row.workspaceId, wr.slug) && KnownFunction(d, wr.row)
    && id < d.nextDeployment
    && (id in d.deployments ==>
          d.deployments[id].functionId == wr.row.id && d.deployments[id].workspaceId == wr.row.workspaceId)
  }

  ghost predicate WroteGrounded(s: State) {
    && (forall id | id in s.wrote :: RowBehind(s.d, id, s.wrote[id]))
    && (forall id | id in s.d.deployments :: id in s.wrote)
  }

  ghost predicate Faithful(s: State, body: DeployRequest) {
    body.deploymentId in s.wrote && body == BodyOf(body.deploymentId, s.wrote[body.deploymentId])
  }

  /** Every request being published or published says what its call wrote. */
  ghost predicate BodiesFaithful(s: State) {
    && (forall c | c in s.calls && s.calls[c].Publish? :: Faithful(s, s.calls[c].body))
    && (forall i | 0 <= i < |s.q| && s.q[i].body.Some? :: Faithful(s, s.q[i].body.value))
  }

  ghost predicate Grounded(s: State) {
    Consistent(s.d) && CallsGrounded(s) && WroteGrounded(s) && BodiesFaithful(s)
  }

  // ----- what a step of the tables keeps -----

  lemma CallStaysGrounded(d: Db, d': Db, a: Call)
    requires Successor(d, d') && CallGrounded(d, a)
    ensures CallGrounded(d', a)
  {
  }

  lemma RowStaysBehind(d: Db, d': Db, id: int, wr: Written)
    requires Successor(d, d') && RowBehind(d, id, wr)
    ensures RowBehind(d', id, wr)
  {
  }

  /** One call moves, the tables step, and no request is written: everything but the moved call follows. */
  lemma GroundedKept(s: State, s': State, c: nat)
    requires Grounded(s) && Successor(s.d, s'.d) && Consistent(s'.d)
    requires s'.wrote == s.wrote && s'.d.nextDeployment == s.d.nextDeployment
    requires |s'.q| == |s.q| && (forall i | 0 <= i < |s.q| :: s'.q[i].body == s.q[i].body)
    requires forall x | x in s'.calls && x != c :: x in s.calls && s'.calls[x] == s.calls[x]
    requires c in s'.calls ==> CallGrounded(s'.d, s'.calls[c])
    requires c in s'.calls && s'.calls[c].Publish? ==> c in s.calls && s'.calls[c] == s.calls[c]
    ensures Grounded(s')
  {
    forall x | x in s'.calls
      ensures CallGrounded(s'.d, s'.calls[x])
    {
      if x != c {
        CallStaysGrounded(s.d, s'.d, s.calls[x]);
      }
    }
    forall id | id in s'.wrote
      ensures RowBehind(s'.d, id, s'.wrote[id])
    {
      RowStaysBehind(s.d, s'.d, id, s.wrote[id]);
    }
    assert forall id | id in s'.d.deployments :: id < s.d.nextDeployment;
  }

  lemma FoundFunction(d: Db, ws: int, name: string)
    requires Consistent(d) && FindFunction(d, ws, name).Some?
    ensures var row := FindFunction(d, ws, name).value;
            row.id in d.functions && d.functions[row.id] == row
  {
    var row := FindFunction(d, ws, name).value;
    var f :| f in d.functions && d.functions[f] == row;
  }

  lemma FoundWorkspace(d: Db, slug: string)
    requires Consistent(d) && FindWorkspace(d, slug).Some?
    ensures var row := FindWorkspace(d, slug).value;
            row.id in d.workspaces && d.workspaces[row.id] == row
  {
    var row := FindWorkspace(d, slug).value;
    var w :| w in d.workspaces && d.workspaces[w] == row;
  }

  // ----- API steps -----

  lemma NewCallGrounded(s: State, c: nat, a: Call)
    requires Grounded(s) && c !in s.calls && CallGrounded(s.d, a) && !a.Publish?
    ensures Grounded(To(s, c, a))
  {
    SameDb(s.d);
    GroundedKept(s, To(s, c, a), c);
  }

  lemma BegunGrounded(s: State, e: Event)
    requires Grounded(s) && (e.BeginCreate? || e.BeginUpdate? || e.BeginDelete?)
    ensures Grounded(Next(s, e))
  {
    if FindWorkspace(s.d, e.slug).Some? {
      FoundWorkspace(s.d, e.slug);
    }
    if Next(s, e) != s {
      NewCallGrounded(s, e.c, Next(s, e).calls[e.c]);
    }
  }

  lemma DeleteWorkspaceGrounded(s: State, c: nat, slug: string)
    requires Grounded(s)
    ensures Grounded(BegunDeleteWorkspace(s, c, slug))
  {
    SameDb(s.d);
    if FindWorkspace(s.d, slug).Some? {
      DeleteWorkspaceKeeps(s.d, FindWorkspace(s.d, slug).value.id);
    }
    GroundedKept(s, BegunDeleteWorkspace(s, c, slug), c);
  }

  lemma CreateWorkspaceGrounded(s: State, slug: string)
    requires Grounded(s)
    ensures Grounded(s.(d := InsertWorkspace(s.d, slug)))
  {
    InsertWorkspaceKeeps(s.d, slug);
    NoCallMoved(s, s.(d := InsertWorkspace(s.d, slug)));
  }

  lemma TickGrounded(s: State, elapsed: nat)
    requires Grounded(s)
    ensures Grounded(s.(now := s.now + elapsed))
  {
    SameDb(s.d);
    NoCallMoved(s, s.(now := s.now + elapsed));
  }

  lemma NoCallMoved(s: State, s': State)
    requires Grounded(s) && Successor(s.d, s'.d) && Consistent(s'.d)
    requires s'.wrote == s.wrote && s'.d.nextDeployment == s.d.nextDeployment && s'.calls == s.calls
    requires |s'.q| == |s.q| && (forall i | 0 <= i < |s.q| :: s'.q[i].body == s.q[i].body)
    ensures Grounded(s')
  {
    forall x | x in s'.calls
      ensures CallGrounded(s'.d, s'.calls[x])
    {
      CallStaysGrounded(s.d, s'.d, s.calls[x]);
    }
    forall id | id in s'.wrote
      ensures RowBehind(s'.d, id, s'.wrote[id])
    {
      RowStaysBehind(s.d, s'.d, id, s.wrote[id]);
    }
    assert forall id | id in s'.d.deployments :: id < s.d.nextDeployment;
  }

  lemma EndGrounded(s: State, c: nat)
    requires Grounded(s)
    ensures Grounded(End(s, c))
  {
    SameDb(s.d);
    GroundedKept(s, End(s, c), c);
  }

  lemma CreateGrounded(s: State, c: nat)
    requires Grounded(s) && c in s.calls
    ensures s.calls[c].CreateLookup? ==> Grounded(CreateLookedUp(s, c, s.calls[c]))
    ensures s.calls[c].CreateInsert? ==> Grounded(CreateInserted(s, c, s.calls[c]))
  {
    var a := s.calls[c];
    SameDb(s.d);
    EndGrounded(s, c);
    if a.CreateLookup? {
      GroundedKept(s, CreateLookedUp(s, c, a), c);
    } else if a.CreateInsert? && CanInsertFunction(s.d, a.ws, a.req.name) {
      InsertFunctionKeeps(s.d, a.ws, a.req);
      NewRowGrounded(s.d, a);
      GroundedKept(s, CreateInserted(s, c, a), c);
    }
  }

  lemma NewRowGrounded(d: Db, a: Call)
    requires Consistent(d) && a.CreateInsert? && CallGrounded(d, a) && CanInsertFunction(d, a.ws, a.req.name)
    ensures CallGrounded(InsertFunction(d, a.ws, a.req), Enqueue(a.slug, a.ws, NewFunctionRow(d, a.ws, a.req), a.req))
  {
    NullRoundTrip(a.req.code);
    NullRoundTrip(a.req.image);
  }

  lemma UpdateLookedUpGrounded(s: State, c: nat)
    requires Grounded(s) && c in s.calls && s.calls[c].UpdateLookup?
    ensures Grounded(UpdateLookedUp(s, c, s.calls[c]))
  {
    var a := s.calls[c];
    SameDb(s.d);
    if FindFunction(s.d, a.ws, a.name).Some? {
      FoundFunction(s.d, a.ws, a.name);
    }
    GroundedKept(s, UpdateLookedUp(s, c, a), c);
  }

  lemma UpdateWrittenGrounded(s: State, c: nat)
    requires Grounded(s) && c in s.calls && s.calls[c].UpdateWrite?
    ensures Grounded(UpdateWritten(s, c, s.calls[c]))
  {
    var a := s.calls[c];
    if FindFunction(s.d, a.ws, a.seen.name).Some? {
      FoundFunction(s.d, a.ws, a.seen.name);
      var row := FindFunction(s.d, a.ws, a.seen.name).value;
      PutFunctionKeeps(s.d, row, a.code, a.image, a.public);
      UpdatedRowGrounded(s.d, a, row);
      GroundedKept(s, UpdateWritten(s, c, a), c);
    } else {
      EndGrounded(s, c);
    }
  }

  lemma UpdatedRowGrounded(d: Db, a: Call, row: FunctionRow)
    requires Consistent(d) && a.UpdateWrite? && CallGrounded(d, a)
    requires row.id in d.functions && d.functions[row.id] == row && row.workspaceId == a.ws
    ensures var row' := WithContent(row, a.code, a.image, a.public);
            CallGrounded(PutFunction(d, row'),
                         Enqueue(a.slug, a.ws, row',
                                 FunctionSpec(row'.name, row'.runtime, row'.deployType, a.code, a.image, a.public)))
  {
    NullRoundTrip(a.code);
    NullRoundTrip(a.image);
  }

  lemma DeleteRowGrounded(s: State, c: nat)
    requires Grounded(s) && c in s.calls && s.calls[c].DeleteRow?
    ensures Grounded(RowDeleted(s, c, s.calls[c]))
  {
    var a := s.calls[c];
    EndGrounded(s, c);
    if FindFunction(s.d, a.ws, a.name).Some? {
      DeleteFunctionKeeps(s.d, FindFunction(s.d, a.ws, a.name).value.id);
      GroundedKept(s, RowDeleted(s, c, a), c);
    }
  }

  lemma DropServiceGrounded(s: State, c: nat)
    requires Grounded(s) && c in s.calls && s.calls[c].DropService?
    ensures Grounded(ServiceDropped(s, c, s.calls[c]))
  {
    SameDb(s.d);
    GroundedKept(s, ServiceDropped(s, c, s.calls[c]), c);
  }

  lemma DropConfigMapGrounded(s: State, c: nat)
    requires Grounded(s) && c in s.calls && s.calls[c].DropConfigMap?
    ensures Grounded(ConfigMapDropped(s, c, s.calls[c]))
  {
    SameDb(s.d);
    GroundedKept(s, ConfigMapDropped(s, c, s.calls[c]), c);
  }

  lemma DropNamespaceGrounded(s: State, c: nat)
    requires Grounded(s) && c in s.calls && s.calls[c].DropNamespace?
    ensures Grounded(NamespaceDropped(s, c, s.calls[c]))
  {
    SameDb(s.d);
    GroundedKept(s, NamespaceDropped(s, c, s.calls[c]), c);
  }

  lemma EnqueuedGrounded(s: State, c: nat)
    requires Grounded(s) && c in s.calls && s.calls[c].Enqueue?
    ensures Grounded(Enqueued(s, c, s.calls[c]))
  {
    var a := s.calls[c];
    var s' := Enqueued(s, c, a);
    if a.row.id !in s.d.functions || a.ws !in s.d.workspaces {
      EndGrounded(s, c);
    } else {
      InsertDeploymentKeeps(s.d, a.row.id, a.ws, s.now);
      forall x | x in s'.calls
        ensures CallGrounded(s'.d, s'.calls[x])
      {
        if x != c {
          CallStaysGrounded(s.d, s'.d, s.calls[x]);
        }
      }
      EnqueuedWrote(s, c);
    }
  }

  lemma EnqueuedWrote(s: State, c: nat)
    requires Grounded(s) && c in s.calls && s.calls[c].Enqueue?
    requires s.calls[c].row.id in s.d.functions && s.calls[c].ws in s.d.workspaces
    requires Successor(s.d, Enqueued(s, c, s.calls[c]).d)
    ensures WroteGrounded(Enqueued(s, c, s.calls[c])) && BodiesFaithful(Enqueued(s, c, s.calls[c]))
  {
    var a := s.calls[c];
    var s' := Enqueued(s, c, a);
    var id := s.d.nextDeployment;
    forall x | x in s'.wrote
      ensures RowBehind(s'.d, x, s'.wrote[x])
    {
      if x != id {
        RowStaysBehind(s.d, s'.d, x, s.wrote[x]);
      }
    }
    assert id !in s.wrote;
    assert forall body | Faithful(s, body) :: Faithful(s', body);
    assert Faithful(s', s'.calls[c].body);
  }

  lemma PublishGrounded(s: State, c: nat, ok: bool)
    requires Grounded(s) && c in s.calls && s.calls[c].Publish?
    ensures Grounded(PublishTried(s, c, s.calls[c], ok))
  {
    var s' := PublishTried(s, c, s.calls[c], ok);
    assert Faithful(s, s.calls[c].body);
    assert forall body | Faithful(s, body) :: Faithful(s', body);
  }

  lemma ApiStepGrounded(s: State, c: nat, ok: bool)
    requires Grounded(s)
    ensures Grounded(ApiStep(s, c, ok))
  {
    if c in s.calls {
      var a := s.calls[c];
      EndGrounded(s, c);
      match a
      case CreateLookup(_, _, _) => CreateGrounded(s, c);
      case CreateInsert(_, _, _) => CreateGrounded(s, c);
      case UpdateLookup(_, _, _, _) => UpdateLookedUpGrounded(s, c);
      case UpdateWrite(_, _, _, _, _, _) => UpdateWrittenGrounded(s, c);
      case Enqueue(_, _, _, _) => EnqueuedGrounded(s, c);
      case Publish(_) => PublishGrounded(s, c, ok);
      case Compensate(id) =>
        SetErrorKeeps(s.d, id, QUEUE_TEXT, s.now);
        GroundedKept(s, CompensationWritten(s, c, a), c);
      case DeleteRow(_, _, _) => DeleteRowGrounded(s, c);
      case DropService(_, _) => DropServiceGrounded(s, c);
      case DropConfigMap(_, _) => DropConfigMapGrounded(s, c);
      case DropNamespace(_) => DropNamespaceGrounded(s, c);
    }
  }

  // ----- worker steps -----

  /** The tables step, and nothing else that `Grounded` looks at changes. */
  ghost predicate TablesStepped(s: State, s': State) {
    && s'.wrote == s.wrote && s'.calls == s.calls
    && |s'.q| == |s.q| && (forall i | 0 <= i < |s.q| :: s'.q[i].body == s.q[i].body)
    && s'.d.nextDeployment == s.d.nextDeployment && Successor(s.d, s'.d) && Consistent(s'.d)
  }

  lemma StatusWrittenStepped(s: State, status: DeployStatus, id: int, w: Pc)
    requires Consistent(s.d)
    ensures TablesStepped(s, StatusWritten(s, status, id, w))
  {
    SetStatusKeeps(s.d, id, status, s.now);
  }

  lemma ExecStepStepped(s: State, luck: Luck)
    requires s.w.Exec? && Consistent(s.d)
    ensures TablesStepped(s, ExecStep(s, luck))
  {
    var s', id := ExecStep(s, luck), s.w.req.deploymentId;
    SameDb(s.d);
    match s.w.phase
    case ToBuilding => StatusWrittenStepped(s, Building, id, s'.w);
    case ToDeploying => StatusWrittenStepped(s, Deploying, id, s'.w);
    case ToRunning => StatusWrittenStepped(s, Running, id, s'.w);
    case ToNamespace => assert s'.d == s.d;
    case ToRbac => assert s'.d == s.d;
    case ToConfigMap => assert s'.d == s.d;
    case ToService => assert s'.d == s.d;
  }

  lemma SweepGrounded(s: State, luck: Luck)
    requires Grounded(s) && (s.w.SweepNext? || s.w.SweepFunction?)
    ensures Grounded(Worked(s, luck))
  {
    SameDb(s.d);
    NoCallMoved(s, if s.w.SweepNext? then SweepLookedUp(s, s.w.rest, luck.ok)
                   else SweepPrepared(s, s.w.row, s.w.slug, s.w.rest, luck.ok));
  }

  lemma SettleGrounded(s: State, luck: Luck)
    requires Grounded(s) && (s.w.Failing? || s.w.Settling?)
    ensures Grounded(Worked(s, luck))
  {
    if s.w.Failing? {
      SetErrorKeeps(s.d, s.w.id, s.w.text, s.now);
      NoCallMoved(s, ErrorRecorded(s, s.w.id, s.w.text, s.w.src));
    } else {
      SameDb(s.d);
      NoCallMoved(s, Settled(s, s.w.i, s.w.to, luck.ok));
    }
  }

  lemma WorkedGrounded(s: State, luck: Luck)
    requires Grounded(s)
    ensures Grounded(Worked(s, luck))
  {
    match s.w
    case Exec(_, _, _) =>
      ExecStepStepped(s, luck);
      NoCallMoved(s, ExecStep(s, luck));
    case Failing(_, _, _) => SettleGrounded(s, luck);
    case Settling(_, _) => SettleGrounded(s, luck);
    case SweepNext(_) => SweepGrounded(s, luck);
    case SweepFunction(_, _, _) => SweepGrounded(s, luck);
    case Idle =>
    case Down =>
  }

  lemma {:induction false} NextGrounded(s: State, e: Event)
    requires Grounded(s)
    ensures Grounded(Next(s, e))
  {
    match e
    case Api(c, ok) => ApiStepGrounded(s, c, ok);
    case Abandon(c) => AbandonGrounded(s, c);
    case Start(listing, listed) => StartedGrounded(s, listing, listed);
    case Deliver(i) => DeliveredGrounded(s, i);
    case Work(luck) => WorkedGrounded(s, luck);
    case Garbage => GarbageGrounded(s);
    case Crash => CrashedGrounded(s);
    case BeginCreate(_, _, _) => BegunGrounded(s, e);
    case BeginUpdate(_, _, _, _) => BegunGrounded(s, e);
    case BeginDelete(_, _, _) => BegunGrounded(s, e);
    case BeginDeleteWorkspace(c, slug) => DeleteWorkspaceGrounded(s, c, slug);
    case CreateWorkspace(slug) => CreateWorkspaceGrounded(s, slug);
    case Tick(elapsed) => TickGrounded(s, elapsed);
  }

  lemma StartedGrounded(s: State, listing: seq<ListedRow>, listed: bool)
    requires Grounded(s)
    ensures Grounded(Started(s, listing, listed))
  {
    SameDb(s.d);
    NoCallMoved(s, Started(s, listing, listed));
  }

  lemma DeliveredGrounded(s: State, i: nat)
    requires Grounded(s)
    ensures Grounded(Delivered(s, i))
  {
    SameDb(s.d);
    NoCallMoved(s, Delivered(s, i));
  }

  lemma CrashedGrounded(s: State)
    requires Grounded(s)
    ensures Grounded(Next(s, Crash))
  {
    SameDb(s.d);
    NoCallMoved(s, Next(s, Crash));
  }

  lemma AbandonGrounded(s: State, c: nat)
    requires Grounded(s)
    ensures Grounded(CallLost(s, c))
  {
    SameDb(s.d);
    GroundedKept(s, CallLost(s, c), c);
  }

  lemma GarbageGrounded(s: State)
    requires Grounded(s)
    ensures Grounded(Next(s, Garbage))
  {
    var s' := Next(s, Garbage);
    assert forall body | Faithful(s, body) :: Faithful(s', body);
  }

  lemma {:induction false} RunGrounded(k: Cluster, es: seq<Event>)
    ensures Grounded(Run(Init(k), es))
  {
    if es != [] {
      RunGrounded(k, es[..|es| - 1]);
      NextGrounded(Run(Init(k), es[..|es| - 1]), es[|es| - 1]);
    }
  }

  // ----- rows keep their identity -----

  lemma SuccessorTrans(d: Db, d': Db, d'': Db)
    requires Successor(d, d') && Successor(d', d'')
    ensures Successor(d, d'')
  {
  }

  lemma WriteSuccessor(s: State, c: nat)
    requires Grounded(s) && c in s.calls
    ensures s.calls[c].CreateInsert? ==> Successor(s.d, CreateInserted(s, c, s.calls[c]).d)
    ensures s.calls[c].UpdateWrite? ==> Successor(s.d, UpdateWritten(s, c, s.calls[c]).d)
  {
    var a := s.calls[c];
    SameDb(s.d);
    if a.CreateInsert? && CanInsertFunction(s.d, a.ws, a.req.name) {
      InsertFunctionKeeps(s.d, a.ws, a.req);
    } else if a.UpdateWrite? && FindFunction(s.d, a.ws, a.seen.name).Some? {
      FoundFunction(s.d, a.ws, a.seen.name);
      PutFunctionKeeps(s.d, FindFunction(s.d, a.ws, a.seen.name).value, a.code, a.image, a.public);
    }
  }

  lemma DeploymentSuccessor(s: State, c: nat)
    requires Grounded(s) && c in s.calls
    ensures s.calls[c].Enqueue? ==> Successor(s.d, Enqueued(s, c, s.calls[c]).d)
    ensures s.calls[c].Compensate? ==> Successor(s.d, CompensationWritten(s, c, s.calls[c]).d)
    ensures s.calls[c].DeleteRow? ==> Successor(s.d, RowDeleted(s, c, s.calls[c]).d)
  {
    var a := s.calls[c];
    SameDb(s.d);
    if a.Enqueue? && a.row.id in s.d.functions && a.ws in s.d.workspaces {
      assert CallGrounded(s.d, a);
      InsertDeploymentKeeps(s.d, a.row.id, a.ws, s.now);
    } else if a.Compensate? {
      SetErrorKeeps(s.d, a.id, QUEUE_TEXT, s.now);
    } else if a.DeleteRow? && FindFunction(s.d, a.ws, a.name).Some? {
      DeleteFunctionKeeps(s.d, FindFunction(s.d, a.ws, a.name).value.id);
    }
  }

  predicate WritesTables(a: Call) {
    a.CreateInsert? || a.UpdateWrite? || a.Enqueue? || a.Compensate? || a.DeleteRow?
  }

  lemma OtherCallsReadOnly(s: State, c: nat, ok: bool)
    requires c in s.calls && !WritesTables(s.calls[c])
    ensures ApiStep(s, c, ok).d == s.d
  {
  }

  lemma ApiStepSuccessor(s: State, c: nat, ok: bool)
    requires Grounded(s)
    ensures Successor(s.d, ApiStep(s, c, ok).d)
  {
    SameDb(s.d);
    if c in s.calls {
      if !WritesTables(s.calls[c]) {
        OtherCallsReadOnly(s, c, ok);
      } else if s.calls[c].CreateInsert? || s.calls[c].UpdateWrite? {
        WriteSuccessor(s, c);
      } else {
        DeploymentSuccessor(s, c);
      }
    }
  }

  lemma WorkedSuccessor(s: State, luck: Luck)
    requires Grounded(s)
    ensures Successor(s.d, Worked(s, luck).d)
  {
    SameDb(s.d);
    if s.w.Exec? {
      ExecStepStepped(s, luck);
    } else if s.w.Failing? {
      SetErrorKeeps(s.d, s.w.id, s.w.text, s.now);
    }
  }

  /** Every step of any party keeps rows' identities and takes new ones from the sequences. */
  lemma {:induction false} NextSuccessor(s: State, e: Event)
    requires Grounded(s)
    ensures Successor(s.d, Next(s, e).d)
  {
    SameDb(s.d);
    match e
    case Api(c, ok) => ApiStepSuccessor(s, c, ok);
    case Work(luck) => WorkedSuccessor(s, luck);
    case BeginDeleteWorkspace(_, slug) =>
      if FindWorkspace(s.d, slug).Some? {
        DeleteWorkspaceKeeps(s.d, FindWorkspace(s.d, slug).value.id);
      }
    case CreateWorkspace(slug) => InsertWorkspaceKeeps(s.d, slug);
    case _ => assert Next(s, e).d == s.d;
  }

  // ----- the laws -----

  /** Foreign keys stay closed, names and slugs stay unique, and a deployment stays in its function's workspace. */
  lemma {:induction false} TablesStayConsistent(k: Cluster, es: seq<Event>)
    ensures Consistent(Run(Init(k), es).d)
  {
    RunGrounded(k, es);
  }

  /**
    If a published row's function still reads as it did when the request was made, the request
    the sweep would rebuild from the tables is the published one.
  */
  lemma {:induction false} SweepRebuildsRequest(k: Cluster, es: seq<Event>, i: nat)
    requires var s := Run(Init(k), es);
             && i < |s.q| && s.q[i].body.Some?
             && s.q[i].body.value.deploymentId in s.d.deployments
             && s.q[i].body.value.deploymentId in s.wrote
             && var id := s.q[i].body.value.deploymentId;
                s.d.deployments[id].functionId in s.d.functions
                && s.d.functions[s.d.deployments[id].functionId] == s.wrote[id].row
    ensures var s := Run(Init(k), es);
            var body := s.q[i].body.value;
            && body.workspaceId in s.d.workspaces
            && SweepRequest(Listed(s.d, body.deploymentId), s.d.workspaces[body.workspaceId].slug,
                            s.wrote[body.deploymentId].row) == body
  {
    RunGrounded(k, es);
    var s := Run(Init(k), es);
    assert Faithful(s, s.q[i].body.value);
  }
}
