/**
  Conservation of rows and requests over whole runs: where each deployment's request is, when
  its row is still there, and what the row of a compensated deployment reads.
*/
module PipelineConservation {
  import opened Wrappers
  import opened Model
  import opened Tables
  import opened Cluster
  import opened Pipeline
  import opened PipelineTracking
  import opened PipelineTables
  import opened PipelineStatus
  import opened PipelineSafety
  import opened PipelineResting

  // ----- a row is there exactly as long as its function -----

  /** Every deployment handed out has a recorded function, and its row is there iff that function is. */
  ghost predicate RowsThere(s: State) {
    && (forall id | id in s.place :: id in s.wrote)
    && (forall id | id in s.wrote :: id in s.d.deployments <==> s.wrote[id].row.id in s.d.functions)
  }

  /** No function or deployment appears or disappears, and none is handed out. */
  ghost predicate SameKeys(s: State, s': State) {
    && s'.wrote == s.wrote && s'.place.Keys == s.place.Keys
    && s'.d.functions.Keys == s.d.functions.Keys && s'.d.deployments.Keys == s.d.deployments.Keys
  }

  lemma SameKeysThere(s: State, s': State)
    requires RowsThere(s) && SameKeys(s, s')
    ensures RowsThere(s')
  {
    forall id | id in s'.place ensures id in s'.wrote {
      assert id in s'.place.Keys;
    }
    forall id | id in s'.wrote
      ensures id in s'.d.deployments <==> s'.wrote[id].row.id in s'.d.functions
    {
      assert id in s'.d.deployments.Keys <==> id in s.d.deployments.Keys;
      assert s'.wrote[id].row.id in s'.d.functions.Keys <==> s'.wrote[id].row.id in s.d.functions.Keys;
    }
  }

  lemma InsertThere(s: State, c: nat)
    requires Grounded(s) && RowsThere(s) && c in s.calls && s.calls[c].CreateInsert?
    ensures RowsThere(CreateInserted(s, c, s.calls[c]))
  {
    assert forall id | id in s.wrote :: RowBehind(s.d, id, s.wrote[id]);
  }

  lemma EnqueueThere(s: State, c: nat)
    requires Tracked(s) && Grounded(s) && RowsThere(s) && c in s.calls && s.calls[c].Enqueue?
    ensures RowsThere(Enqueued(s, c, s.calls[c]))
  {
    assert forall id | id in s.wrote :: RowBehind(s.d, id, s.wrote[id]);
  }

  lemma RemoveThere(s: State, c: nat)
    requires Grounded(s) && RowsThere(s) && c in s.calls && s.calls[c].DeleteRow?
    ensures RowsThere(RowDeleted(s, c, s.calls[c]))
  {
    assert forall id | id in s.wrote :: RowBehind(s.d, id, s.wrote[id]);
  }

  lemma RemoveWorkspaceThere(s: State, c: nat, slug: string)
    requires Grounded(s) && RowsThere(s)
    ensures RowsThere(BegunDeleteWorkspace(s, c, slug))
  {
    assert forall id | id in s.wrote :: RowBehind(s.d, id, s.wrote[id]);
  }

  predicate MovesKeys(a: Call) {
    a.CreateInsert? || a.Enqueue? || a.DeleteRow?
  }

  lemma UpdateSameKeys(s: State, c: nat)
    requires Grounded(s) && c in s.calls && s.calls[c].UpdateWrite?
    ensures SameKeys(s, UpdateWritten(s, c, s.calls[c]))
  {
    var a := s.calls[c];
    if FindFunction(s.d, a.ws, a.seen.name).Some? {
      FoundFunction(s.d, a.ws, a.seen.name);
    }
  }

  lemma PublishSameKeys(s: State, c: nat, ok: bool)
    requires Tracked(s) && c in s.calls && s.calls[c].Publish?
    ensures SameKeys(s, PublishTried(s, c, s.calls[c], ok))
  {
    assert s.place[Pending(s.calls[c]).value] == InCall(c);
  }

  lemma CompensateSameKeys(s: State, c: nat)
    requires Tracked(s) && c in s.calls && s.calls[c].Compensate?
    ensures SameKeys(s, CompensationWritten(s, c, s.calls[c]))
  {
    assert s.place[Pending(s.calls[c]).value] == InCall(c);
  }

  lemma ApiSameKeys(s: State, c: nat, ok: bool)
    requires Tracked(s) && Grounded(s) && c in s.calls && !(ok && MovesKeys(s.calls[c]))
    ensures SameKeys(s, ApiStep(s, c, ok))
  {
    var a := s.calls[c];
    if a.Publish? {
      PublishSameKeys(s, c, ok);
    } else if a.Compensate? {
      CompensateSameKeys(s, c);
    } else if ok && a.UpdateWrite? {
      UpdateSameKeys(s, c);
    } else {
      QuietApiStep(s, c, ok);
      ReadOnlyStep(s, c, ok);
    }
  }

  lemma ReadOnlyStep(s: State, c: nat, ok: bool)
    requires c in s.calls && !s.calls[c].Publish? && !s.calls[c].Compensate? && !(ok && WritesTables(s.calls[c]))
    ensures ApiStep(s, c, ok).d == s.d
  {
    if ok {
      OtherCallsReadOnly(s, c, ok);
    }
  }

  lemma WorkedSameKeys(s: State, luck: Luck)
    ensures SameKeys(s, Worked(s, luck))
  {
    WorkedFrame(s, luck);
    if s.w.Exec? {
      ExecSameKeys(s, luck);
    }
  }

  lemma ExecSameKeys(s: State, luck: Luck)
    requires s.w.Exec?
    ensures SameKeys(s, ExecStep(s, luck))
  {
    match s.w.phase
    case ToBuilding =>
    case ToNamespace =>
    case ToRbac =>
    case ToDeploying =>
    case ToConfigMap =>
    case ToService =>
    case ToRunning =>
  }

  lemma ApiThere(s: State, c: nat, ok: bool)
    requires Tracked(s) && Grounded(s) && RowsThere(s)
    ensures RowsThere(ApiStep(s, c, ok))
  {
    if c in s.calls {
      if ok && s.calls[c].CreateInsert? {
        InsertThere(s, c);
      } else if ok && s.calls[c].Enqueue? {
        EnqueueThere(s, c);
      } else if ok && s.calls[c].DeleteRow? {
        RemoveThere(s, c);
      } else {
        ApiSameKeys(s, c, ok);
        SameKeysThere(s, ApiStep(s, c, ok));
      }
    }
  }

  lemma WorkedThere(s: State, luck: Luck)
    requires RowsThere(s)
    ensures RowsThere(Worked(s, luck))
  {
    WorkedSameKeys(s, luck);
    SameKeysThere(s, Worked(s, luck));
  }

  lemma EventThere(s: State, e: Event)
    requires RowsThere(s) && !e.Api? && !e.Work? && !e.BeginDeleteWorkspace? && !e.Abandon?
    ensures RowsThere(Next(s, e))
  {
    SameKeysThere(s, Next(s, e));
  }

  lemma StepThere(s: State, e: Event)
    requires Tracked(s) && Grounded(s) && RowsThere(s)
    ensures RowsThere(Next(s, e))
  {
    match e
    case Api(c, ok) => ApiThere(s, c, ok);
    case Work(luck) => WorkedThere(s, luck);
    case BeginDeleteWorkspace(c, slug) => RemoveWorkspaceThere(s, c, slug);
    case Abandon(c) => LostThere(s, c);
    case _ => EventThere(s, e);
  }

  lemma LostThere(s: State, c: nat)
    requires Tracked(s) && RowsThere(s)
    ensures RowsThere(CallLost(s, c))
  {
    if c in s.calls && Pending(s.calls[c]).Some? {
      assert s.place[Pending(s.calls[c]).value] == InCall(c);
    }
    SameKeysThere(s, CallLost(s, c));
  }

  // ----- what a compensated row reads -----

  /** A compensated row keeps its error; if it was never started, it is failed for a reason that needs no execution. */
  ghost predicate CompensatedReads(row: DeploymentRow) {
    && row.error.Some?
    && (row.startedAt.None? ==> row.status == Failed && NeverExecutedText(row.error.value))
  }

  ghost predicate CompensatedRows(s: State) {
    forall id | id in s.place && s.place[id] == Compensated && id in s.d.deployments :: s.d.deployments[id].error.Some?
  }

  /** A row only comes to be compensated in the step that writes its error. */
  lemma StepCompensated(s: State, e: Event)
    requires Tracked(s) && CompensatedRows(s)
    ensures CompensatedRows(Next(s, e))
  {
    StampsKeptStep(s, e);
    forall id | id in Next(s, e).place && Next(s, e).place[id] == Compensated && id in Next(s, e).d.deployments
      ensures Next(s, e).d.deployments[id].error.Some?
    {
      NewlyCompensated(s, e, id);
    }
  }

  ghost predicate Compensates(s: State, e: Event, id: int) {
    e.Api? && e.c in s.calls && s.calls[e.c] == Compensate(id)
  }

  lemma NewlyCompensated(s: State, e: Event, id: int)
    requires Tracked(s) && id in Next(s, e).place && Next(s, e).place[id] == Compensated
    ensures (id in s.place && s.place[id] == Compensated && id < s.d.nextDeployment) || Compensates(s, e, id)
  {
    match e
    case Api(c, ok) => ApiNewlyCompensated(s, c, ok, id);
    case Work(luck) => WorkedFrame(s, luck);
    case Abandon(c) =>
    case _ => assert Next(s, e).place == s.place;
  }

  lemma ApiNewlyCompensated(s: State, c: nat, ok: bool, id: int)
    requires Tracked(s) && id in ApiStep(s, c, ok).place && ApiStep(s, c, ok).place[id] == Compensated
    ensures (id in s.place && s.place[id] == Compensated && id < s.d.nextDeployment) || Compensates(s, Api(c, ok), id)
  {
    if c in s.calls && !HoldsRequest(s.calls[c], ok) {
      QuietApiStep(s, c, ok);
    }
  }

  // ----- the law -----

  lemma {:induction false} RunConserved(k: Cluster, es: seq<Event>)
    ensures var s := Run(Init(k), es);
            Tracked(s) && Grounded(s) && Lively(s) && RowsThere(s) && CompensatedRows(s)
  {
    RunLively(k, es);
    RunGrounded(k, es);
    if es != [] {
      var init := es[..|es| - 1];
      RunConserved(k, init);
      StepThere(Run(Init(k), init), es[|es| - 1]);
      StepCompensated(Run(Init(k), init), es[|es| - 1]);
    }
  }

  ghost predicate Holds(s: State, c: nat, id: int) {
    c in s.calls && Pending(s.calls[c]) == Some(id)
  }

  ghost predicate Carries(s: State, i: nat, id: int) {
    i < |s.q| && s.q[i].body.Some? && s.q[i].body.value.deploymentId == id
  }

  /** Exactly one place for each deployment ever handed out: a call, a message, or a call that gave up on it. */
  ghost predicate OnePlaceEach(s: State) {
    && (forall id | id in s.d.deployments :: id in s.place)
    && (forall id | id in s.place && s.place[id].InCall? :: Holds(s, s.place[id].c, id))
    && (forall id | id in s.place && s.place[id].Published? :: Carries(s, s.place[id].i, id))
    && (forall c, id | Holds(s, c, id) :: id in s.place && s.place[id] == InCall(c))
    && (forall i, id | Carries(s, i, id) :: id in s.place && s.place[id] == Published(i))
    && (forall id | id in s.place :: 1 <= id < s.d.nextDeployment)
  }

  /**
    In every reachable state: each deployment handed out is held by exactly one call, carried by
    exactly one message, compensated or abandoned; a carried request says what its call wrote;
    a row is still there exactly if the function it was made for is; and a compensated row that
    is there has an error, and unless it was started reads failed, never executed.
  */
  lemma {:induction false} RowsAndRequestsConserved(k: Cluster, es: seq<Event>)
    ensures var s := Run(Init(k), es);
            && OnePlaceEach(s)
            && (forall i | 0 <= i < |s.q| && s.q[i].body.Some? :: Faithful(s, s.q[i].body.value))
            && (forall id | id in s.place ::
                  id in s.wrote && (id in s.d.deployments <==> s.wrote[id].row.id in s.d.functions))
            && (forall id | id in s.place && s.place[id] == Compensated && id in s.d.deployments ::
                  CompensatedReads(s.d.deployments[id]))
  {
    RunConserved(k, es);
    var s := Run(Init(k), es);
    forall id | id in s.place && s.place[id] == Compensated && id in s.d.deployments
      ensures CompensatedReads(s.d.deployments[id])
    {
      assert RowFields(s.d.deployments[id], s.now);
    }
  }

  // ----- when the row of a request is gone -----

  /** This step deletes function f, by itself or with its workspace. */
  ghost predicate Removes(s: State, e: Event, f: int) {
    f in s.d.functions
    && match e
       case Api(c, ok) =>
         && ok && c in s.calls && s.calls[c].DeleteRow?
         && FindFunction(s.d, s.calls[c].ws, s.calls[c].name).Some?
         && FindFunction(s.d, s.calls[c].ws, s.calls[c].name).value.id == f
       case BeginDeleteWorkspace(c, slug) =>
         && c !in s.calls && FindWorkspace(s.d, slug).Some?
         && FindWorkspace(s.d, slug).value.id == s.d.functions[f].workspaceId
       case _ => false
  }

  lemma ApiRemoves(s: State, c: nat, ok: bool, f: int)
    requires Tracked(s) && Grounded(s) && f in s.d.functions
    ensures f in ApiStep(s, c, ok).d.functions <==> !Removes(s, Api(c, ok), f)
  {
    if c in s.calls {
      if ok && MovesKeys(s.calls[c]) {
        RemovesByCall(s, c, f);
      } else {
        ApiSameKeys(s, c, ok);
        assert f in s.d.functions.Keys;
      }
    }
  }

  lemma RemovesByCall(s: State, c: nat, f: int)
    requires Grounded(s) && f in s.d.functions && c in s.calls
    ensures s.calls[c].CreateInsert? ==> f in CreateInserted(s, c, s.calls[c]).d.functions
    ensures s.calls[c].Enqueue? ==> f in Enqueued(s, c, s.calls[c]).d.functions
    ensures s.calls[c].DeleteRow? ==>
              (f in RowDeleted(s, c, s.calls[c]).d.functions <==> !Removes(s, Api(c, true), f))
  {
  }

  /** A function that exists goes in exactly these steps, and one that is gone does not come back. */
  lemma StepRemoves(s: State, e: Event, f: int)
    requires Tracked(s) && Grounded(s) && f < s.d.nextFunction
    ensures f in Next(s, e).d.functions <==> f in s.d.functions && !Removes(s, e, f)
  {
    NextSuccessor(s, e);
    if f in s.d.functions {
      match e
      case Api(c, ok) => ApiRemoves(s, c, ok, f);
      case Work(luck) =>
        WorkedSameKeys(s, luck);
        assert f in Worked(s, luck).d.functions.Keys <==> f in s.d.functions.Keys;
      case BeginDeleteWorkspace(c, slug) => WorkspaceRemoves(s, c, slug, f);
      case _ => OthersRemoveNothing(s, e);
    }
  }

  lemma WorkspaceRemoves(s: State, c: nat, slug: string, f: int)
    requires f in s.d.functions
    ensures f in BegunDeleteWorkspace(s, c, slug).d.functions <==> !Removes(s, BeginDeleteWorkspace(c, slug), f)
  {
  }

  lemma OthersRemoveNothing(s: State, e: Event)
    requires !e.Api? && !e.Work? && !e.BeginDeleteWorkspace?
    ensures Next(s, e).d.functions == s.d.functions
  {
  }

  ghost predicate RemovesAt(k: Cluster, es: seq<Event>, n: nat, f: int)
    requires n < |es|
  {
    Removes(StateAt(k, es, n), es[n], f)
  }

  /** No step from m on, up to n, deletes function f. */
  ghost predicate Kept(k: Cluster, es: seq<Event>, m: nat, n: nat, f: int)
    requires n <= |es|
  {
    forall j | m <= j < n :: !RemovesAt(k, es, j, f)
  }

  ghost predicate KeptIff(k: Cluster, es: seq<Event>, m: nat, n: nat, f: int)
    requires n <= |es|
  {
    && (f in StateAt(k, es, n).d.functions <==> Kept(k, es, m, n, f))
    && f < StateAt(k, es, n).d.nextFunction
  }

  lemma FunctionKeptNext(k: Cluster, es: seq<Event>, m: nat, n: nat, f: int)
    requires m < n <= |es| && KeptIff(k, es, m, n - 1, f)
    ensures KeptIff(k, es, m, n, f)
  {
    RunTracked(k, es[..n - 1]);
    RunGrounded(k, es[..n - 1]);
    StateAtNext(k, es, n - 1);
    NextSuccessor(StateAt(k, es, n - 1), es[n - 1]);
    StepRemoves(StateAt(k, es, n - 1), es[n - 1], f);
    assert Kept(k, es, m, n, f) <==> Kept(k, es, m, n - 1, f) && !RemovesAt(k, es, n - 1, f);
  }

  lemma FunctionKnown(k: Cluster, es: seq<Event>, n: nat, f: int)
    requires n <= |es| && f in StateAt(k, es, n).d.functions
    ensures KeptIff(k, es, n, n, f)
  {
    RunGrounded(k, es[..n]);
  }

  lemma {:induction false} FunctionKeptIff(k: Cluster, es: seq<Event>, m: nat, n: nat, f: int)
    requires m <= n <= |es| && KeptIff(k, es, m, m, f)
    ensures KeptIff(k, es, m, n, f)
    decreases n
  {
    if m < n {
      FunctionKeptIff(k, es, m, n - 1, f);
      FunctionKeptNext(k, es, m, n, f);
    }
  }

  /** The function a deployment was made for is recorded once and for all. */
  lemma WroteStays(s: State, e: Event, id: int)
    requires Tracked(s) && Grounded(s) && id in s.wrote
    ensures id in Next(s, e).wrote && Next(s, e).wrote[id] == s.wrote[id]
  {
    match e
    case Api(c, ok) =>
      if c in s.calls && !HoldsRequest(s.calls[c], ok) {
        QuietApiStep(s, c, ok);
      }
    case Work(luck) => WorkedFrame(s, luck);
    case _ => OthersWriteNothing(s, e);
  }

  lemma OthersWriteNothing(s: State, e: Event)
    requires !e.Api? && !e.Work?
    ensures Next(s, e).wrote == s.wrote
  {
  }

  lemma {:induction false} WroteStaysTo(k: Cluster, es: seq<Event>, m: nat, n: nat, id: int)
    requires m <= n <= |es| && id in StateAt(k, es, m).wrote
    ensures id in StateAt(k, es, n).wrote && StateAt(k, es, n).wrote[id] == StateAt(k, es, m).wrote[id]
    decreases n
  {
    if m < n {
      WroteStaysTo(k, es, m, n - 1, id);
      RunTracked(k, es[..n - 1]);
      RunGrounded(k, es[..n - 1]);
      StateAtNext(k, es, n - 1);
      WroteStays(StateAt(k, es, n - 1), es[n - 1], id);
    }
  }

  /**
    From the moment its row is there -- in particular from its insertion -- a deployment's row is
    there exactly as long as no step deletes its function or workspace: at any later state, and
    so when its request is published, delivered or executed.
  */
  lemma {:induction false} RowThereIff(k: Cluster, es: seq<Event>, m: nat, n: nat, id: int)
    requires m <= n <= |es| && id in StateAt(k, es, m).d.deployments
    ensures id in StateAt(k, es, m).wrote
    ensures id in StateAt(k, es, n).d.deployments
       <==> Kept(k, es, m, n, StateAt(k, es, m).wrote[id].row.id)
  {
    RunConserved(k, es[..m]);
    RunConserved(k, es[..n]);
    WroteStaysTo(k, es, m, n, id);
    FunctionKnown(k, es, m, StateAt(k, es, m).wrote[id].row.id);
    FunctionKeptIff(k, es, m, n, StateAt(k, es, m).wrote[id].row.id);
  }
}
