/**
  What an update must leave alone -- a managed function's image, a byoi function's code -- over
  whole runs: exactly which runs change it, and one that does.
*/
module PipelineContent {
  import opened Wrappers
  import opened Model
  import opened Tables
  import opened Cluster
  import opened Pipeline
  import opened PipelineTables
  import opened PipelineSafety
  import opened PipelineValidity

  /** The same image if managed, and the same code if byoi. */
  predicate SameFixed(a: FunctionRow, b: FunctionRow) {
    && (a.deployType == "managed" ==> Coalesce(b.image) == Coalesce(a.image))
    && (a.deployType == "byoi" ==> Coalesce(b.code) == Coalesce(a.code))
  }

  ghost predicate FixedKept(s: State, s': State) {
    forall f | f in s.d.functions && f in s'.d.functions :: SameFixed(s.d.functions[f], s'.d.functions[f])
  }

  /** The UPDATE hits another row than its call has read, and one with another image (code) than that row had. */
  ghost predicate Clobbers(s: State, e: Event) {
    && e.Api? && e.ok && e.c in s.calls && s.calls[e.c].UpdateWrite?
    && var a := s.calls[e.c];
       var found := FindFunction(s.d, a.ws, a.seen.name);
       && found.Some? && found.value.id != a.seen.id
       && ((found.value.deployType == "managed" && Coalesce(found.value.image) != a.image)
           || (found.value.deployType == "byoi" && Coalesce(found.value.code) != a.code))
  }

  /** An update about to be written holds what it read in the row, and the row still has it. */
  ghost predicate CallFixed(d: Db, a: Call) {
    a.UpdateWrite? ==>
      && (a.seen.deployType == "managed" ==> a.image == Coalesce(a.seen.image))
      && (a.seen.deployType == "byoi" ==> a.code == Coalesce(a.seen.code))
      && (a.seen.id in d.functions ==> SameFixed(a.seen, d.functions[a.seen.id]))
  }

  ghost predicate CallsFixed(s: State) {
    forall c | c in s.calls :: CallFixed(s.d, s.calls[c])
  }

  // ----- steps that write no row -----

  /** Rows that stay are as they were, and no call but c has moved. */
  ghost predicate RowsStay(s: State, s': State, c: nat) {
    && (forall f | f in s.d.functions && f in s'.d.functions :: s'.d.functions[f] == s.d.functions[f])
    && (forall x | x in s'.calls && x != c :: x in s.calls && s'.calls[x] == s.calls[x])
    && (c in s'.calls ==> CallFixed(s'.d, s'.calls[c]))
  }

  lemma StaysFixed(s: State, s': State, c: nat)
    requires Grounded(s) && CallsFixed(s) && Successor(s.d, s'.d) && RowsStay(s, s', c)
    ensures FixedKept(s, s') && CallsFixed(s')
  {
    forall x | x in s'.calls
      ensures CallFixed(s'.d, s'.calls[x])
    {
      if x != c {
        assert CallGrounded(s.d, s.calls[x]) && CallFixed(s.d, s.calls[x]);
      }
    }
  }

  lemma CreateStays(s: State, c: nat)
    requires Consistent(s.d) && c in s.calls
    ensures s.calls[c].CreateLookup? ==> RowsStay(s, CreateLookedUp(s, c, s.calls[c]), c)
    ensures s.calls[c].CreateInsert? ==> RowsStay(s, CreateInserted(s, c, s.calls[c]), c)
    ensures s.calls[c].Enqueue? ==> RowsStay(s, Enqueued(s, c, s.calls[c]), c)
    ensures RowsStay(s, End(s, c), c)
  {
  }

  lemma RequestStays(s: State, c: nat, ok: bool)
    requires c in s.calls
    ensures s.calls[c].Publish? ==> RowsStay(s, PublishTried(s, c, s.calls[c], ok), c)
    ensures s.calls[c].Compensate? ==> RowsStay(s, CompensationWritten(s, c, s.calls[c]), c)
  {
  }

  lemma DropStays(s: State, c: nat)
    requires c in s.calls
    ensures s.calls[c].DeleteRow? ==> RowsStay(s, RowDeleted(s, c, s.calls[c]), c)
    ensures s.calls[c].DropService? ==> RowsStay(s, ServiceDropped(s, c, s.calls[c]), c)
    ensures s.calls[c].DropConfigMap? ==> RowsStay(s, ConfigMapDropped(s, c, s.calls[c]), c)
    ensures s.calls[c].DropNamespace? ==> RowsStay(s, NamespaceDropped(s, c, s.calls[c]), c)
  {
  }

  /** The lookup takes what the row has for what the change may not give. */
  lemma LookupStays(s: State, c: nat)
    requires Grounded(s) && c in s.calls && s.calls[c].UpdateLookup?
    ensures RowsStay(s, UpdateLookedUp(s, c, s.calls[c]), c)
  {
    var a := s.calls[c];
    if FindFunction(s.d, a.ws, a.name).Some? {
      FoundFunction(s.d, a.ws, a.name);
      AcceptedUpdateIff(a.change, FindFunction(s.d, a.ws, a.name).value.deployType);
    }
  }

  lemma ApiStays(s: State, c: nat, ok: bool)
    requires Grounded(s) && c in s.calls && !(ok && s.calls[c].UpdateWrite?)
    ensures RowsStay(s, ApiStep(s, c, ok), c)
  {
    CreateStays(s, c);
    RequestStays(s, c, ok);
    DropStays(s, c);
    if s.calls[c].UpdateLookup? {
      LookupStays(s, c);
    }
  }

  lemma BegunStays(s: State, e: Event)
    requires e.BeginCreate? || e.BeginUpdate? || e.BeginDelete? || e.BeginDeleteWorkspace?
    ensures e.c in s.calls ==> Next(s, e) == s
    ensures e.c !in s.calls ==> RowsStay(s, Next(s, e), e.c)
  {
  }

  lemma OthersStay(s: State, e: Event)
    requires e.CreateWorkspace? || e.Garbage? || e.Tick? || e.Abandon? || e.Start? || e.Deliver? || e.Crash?
    ensures Next(s, e).d.functions == s.d.functions
    ensures forall x | x in Next(s, e).calls :: x in s.calls && Next(s, e).calls[x] == s.calls[x]
  {
  }

  // ----- the step that writes one -----

  lemma WriteFixed(s: State, c: nat)
    requires Grounded(s) && CallsFixed(s) && c in s.calls && s.calls[c].UpdateWrite?
    ensures var s' := UpdateWritten(s, c, s.calls[c]);
            FixedKept(s, s') <==> !Clobbers(s, Api(c, true))
  {
    var a := s.calls[c];
    assert CallGrounded(s.d, a) && CallFixed(s.d, a);
    if FindFunction(s.d, a.ws, a.seen.name).Some? {
      FoundFunction(s.d, a.ws, a.seen.name);
      var row := FindFunction(s.d, a.ws, a.seen.name).value;
      var fs := UpdateWritten(s, c, a).d.functions;
      NullRoundTrip(a.code);
      NullRoundTrip(a.image);
      assert fs == s.d.functions[row.id := WithContent(row, a.code, a.image, a.public)];
      assert FixedKept(s, UpdateWritten(s, c, a)) <==> SameFixed(row, fs[row.id]);
    }
  }

  lemma WriteCallsFixed(s: State, c: nat)
    requires Grounded(s) && CallsFixed(s) && c in s.calls && s.calls[c].UpdateWrite?
    requires FixedKept(s, UpdateWritten(s, c, s.calls[c]))
    ensures CallsFixed(UpdateWritten(s, c, s.calls[c]))
  {
    var a, s' := s.calls[c], UpdateWritten(s, c, s.calls[c]);
    if FindFunction(s.d, a.ws, a.seen.name).Some? {
      FoundFunction(s.d, a.ws, a.seen.name);
    }
    forall x | x in s'.calls && s'.calls[x].UpdateWrite?
      ensures CallFixed(s'.d, s'.calls[x])
    {
      assert CallGrounded(s.d, s.calls[x]) && CallFixed(s.d, s.calls[x]);
    }
  }

  /** From a state in which updates hold what they read, a step keeps what updates must leave alone iff it clobbers nothing. */
  lemma {:induction false} StepFixedIff(s: State, e: Event)
    requires Grounded(s) && CallsFixed(s)
    ensures FixedKept(s, Next(s, e)) <==> !Clobbers(s, e)
    ensures FixedKept(s, Next(s, e)) ==> CallsFixed(Next(s, e))
  {
    NextSuccessor(s, e);
    match e
    case Api(c, ok) => ApiFixedIff(s, c, ok);
    case Work(luck) => WorkFixed(s, luck);
    case BeginCreate(c, _, _) => BegunFixed(s, e);
    case BeginUpdate(c, _, _, _) => BegunFixed(s, e);
    case BeginDelete(c, _, _) => BegunFixed(s, e);
    case BeginDeleteWorkspace(c, _) => BegunFixed(s, e);
    case _ =>
      OthersStay(s, e);
      StaysFixed(s, Next(s, e), 0);
  }

  lemma BegunFixed(s: State, e: Event)
    requires Grounded(s) && CallsFixed(s) && Successor(s.d, Next(s, e).d)
    requires e.BeginCreate? || e.BeginUpdate? || e.BeginDelete? || e.BeginDeleteWorkspace?
    ensures FixedKept(s, Next(s, e)) && CallsFixed(Next(s, e))
  {
    BegunStays(s, e);
    if e.c !in s.calls {
      StaysFixed(s, Next(s, e), e.c);
    }
  }

  lemma WorkFixed(s: State, luck: Luck)
    requires Grounded(s) && CallsFixed(s) && Successor(s.d, Worked(s, luck).d)
    ensures FixedKept(s, Worked(s, luck)) && CallsFixed(Worked(s, luck))
  {
    WorkedFunctions(s, luck);
    StaysFixed(s, Worked(s, luck), 0);
  }

  lemma ApiFixedIff(s: State, c: nat, ok: bool)
    requires Grounded(s) && CallsFixed(s) && Successor(s.d, ApiStep(s, c, ok).d)
    ensures FixedKept(s, ApiStep(s, c, ok)) <==> !Clobbers(s, Api(c, ok))
    ensures FixedKept(s, ApiStep(s, c, ok)) ==> CallsFixed(ApiStep(s, c, ok))
  {
    if c in s.calls {
      if ok && s.calls[c].UpdateWrite? {
        assert ApiStep(s, c, ok) == UpdateWritten(s, c, s.calls[c]);
        WriteFixed(s, c);
        if FixedKept(s, ApiStep(s, c, ok)) {
          WriteCallsFixed(s, c);
        }
      } else {
        ApiStays(s, c, ok);
        StaysFixed(s, ApiStep(s, c, ok), c);
      }
    }
  }

  // ----- whole runs -----

  ghost predicate FixedKeptAt(k: Cluster, es: seq<Event>, n: nat)
    requires n < |es|
  {
    FixedKept(StateAt(k, es, n), StateAt(k, es, n + 1))
  }

  ghost predicate ClobbersAt(k: Cluster, es: seq<Event>, n: nat)
    requires n < |es|
  {
    Clobbers(StateAt(k, es, n), es[n])
  }

  ghost predicate NeverClobbers(k: Cluster, es: seq<Event>) {
    forall n | 0 <= n < |es| :: !ClobbersAt(k, es, n)
  }

  lemma FixedIffAt(k: Cluster, es: seq<Event>, n: nat)
    requires 0 < n <= |es| && CallsFixed(StateAt(k, es, n - 1))
    ensures FixedKeptAt(k, es, n - 1) <==> !ClobbersAt(k, es, n - 1)
    ensures FixedKeptAt(k, es, n - 1) ==> CallsFixed(StateAt(k, es, n))
  {
    RunGrounded(k, es[..n - 1]);
    StateAtNext(k, es, n - 1);
    StepFixedIff(StateAt(k, es, n - 1), es[n - 1]);
  }

  /** As long as no step has clobbered a row, or as long as every step has kept them, updates hold what they read. */
  lemma {:induction false} RunCallsFixed(k: Cluster, es: seq<Event>, n: nat)
    requires n <= |es|
    requires forall j | 0 <= j < n :: FixedKeptAt(k, es, j) || !ClobbersAt(k, es, j)
    ensures CallsFixed(StateAt(k, es, n))
    decreases n
  {
    if n == 0 {
      assert es[..0] == [];
    } else {
      RunCallsFixed(k, es, n - 1);
      FixedIffAt(k, es, n);
    }
  }

  /** The steps of a run all keep what updates must leave alone in exactly the runs in which none clobbers a row. */
  lemma {:induction false} FixedContentIff(k: Cluster, es: seq<Event>)
    ensures (forall n | 0 <= n < |es| :: FixedKeptAt(k, es, n)) <==> NeverClobbers(k, es)
  {
    if (forall n | 0 <= n < |es| :: FixedKeptAt(k, es, n)) || NeverClobbers(k, es) {
      forall n | 0 <= n < |es|
        ensures FixedKeptAt(k, es, n) <==> !ClobbersAt(k, es, n)
      {
        RunCallsFixed(k, es, n);
        FixedIffAt(k, es, n + 1);
      }
    }
  }

  /** Function f is gone, or has the image and code it had. */
  ghost predicate FixedTo(d: Db, d': Db, f: int)
    requires f in d.functions
  {
    f in d'.functions ==> SameFixed(d.functions[f], d'.functions[f])
  }

  /** A row that was there, and is, was there in between, with its deploy type. */
  lemma FixedOn(d: Db, d': Db, d'': Db, f: int)
    requires KeysClosed(d) && Successor(d, d') && Successor(d', d'') && f in d.functions && FixedTo(d, d', f)
    requires f in d'.functions ==> FixedTo(d', d'', f)
    ensures FixedTo(d, d'', f)
  {
  }

  lemma SuccessorsAt(k: Cluster, es: seq<Event>, m: nat, n: nat)
    requires m < n <= |es|
    ensures var d := StateAt(k, es, m).d;
            KeysClosed(d) && Successor(d, StateAt(k, es, n - 1).d) && Successor(StateAt(k, es, n - 1).d, StateAt(k, es, n).d)
  {
    RunGrounded(k, es[..m]);
    SuccessorTo(k, es, m, n - 1);
    SuccessorAt(k, es, n - 1);
  }

  /** Without such a step a managed function's image and a byoi function's code never change. */
  lemma {:induction false} FixedContentNeverChanges(k: Cluster, es: seq<Event>, m: nat, n: nat, f: int)
    requires NeverClobbers(k, es) && m <= n <= |es| && f in StateAt(k, es, m).d.functions
    ensures FixedTo(StateAt(k, es, m).d, StateAt(k, es, n).d, f)
    decreases n
  {
    if m < n {
      FixedContentNeverChanges(k, es, m, n - 1, f);
      FixedContentIff(k, es);
      SuccessorsAt(k, es, m, n);
      assert FixedKeptAt(k, es, n - 1);
      FixedOn(StateAt(k, es, m).d, StateAt(k, es, n - 1).d, StateAt(k, es, n).d, f);
    }
  }

  /** In particular they never change over creates and updates alone, however these interleave. */
  lemma {:induction false} FixedWithoutDeletes(k: Cluster, es: seq<Event>)
    requires NoDeletes(es)
    ensures NeverClobbers(k, es)
  {
    forall n | 0 <= n < |es|
      ensures !ClobbersAt(k, es, n)
    {
      RunSeenRowsStay(k, es[..n]);
      RunGrounded(k, es[..n]);
      SeenRowIsFound(StateAt(k, es, n), es[n]);
    }
  }

  // ----- a run in which an image is lost although every update hits a row of its type -----

  const IMAGED := FunctionSpec("ab", PYTHON, MANAGED, "x", "i", false)

  lemma TypedSnoc(k: Cluster, es: seq<Event>, e: Event)
    requires NeverMistyped(k, es) && !Mistyped(Run(Init(k), es), e)
    ensures NeverMistyped(k, es + [e])
  {
    forall n | 0 <= n < |es + [e]|
      ensures TypedAt(k, es + [e], n)
    {
      if n < |es| {
        assert TypedAt(k, es, n) && (es + [e])[..n] == es[..n];
      } else {
        assert (es + [e])[..n] == es;
      }
    }
  }

  /** One more step, of a call that is not writing an update. */
  lemma TypedStep(k: Cluster, es: seq<Event>, s: State, e: Event, s': State)
    requires NeverMistyped(k, es) && Run(Init(k), es) == s && Next(s, e) == s'
    requires e.Api? && e.c in s.calls ==> !s.calls[e.c].UpdateWrite?
    ensures NeverMistyped(k, es + [e]) && Run(Init(k), es + [e]) == s'
  {
    TypedSnoc(k, es, e);
    RunSnoc(Init(k), es, e);
  }

  lemma TypedSeeing(k: Cluster)
    ensures NeverMistyped(k, CALLS + SEE_AND_DELETE) && Run(Init(k), CALLS + SEE_AND_DELETE) == SeenAndDeleted(k)
  {
    RunnableWithoutDeletes(k, CALLS);
    ReachOnePending(k);
    SeeManaged(k);
    DeleteManaged(k);
    var es1 := CALLS + [BeginUpdate(1, "a", "ab", CHANGE)];
    TypedStep(k, CALLS, OnePending(k), BeginUpdate(1, "a", "ab", CHANGE), Seeing(k));
    TypedStep(k, es1, Seeing(k), Api(1, true), Seen(k));
    var es2 := es1 + [Api(1, true)];
    TypedStep(k, es2, Seen(k), BeginDelete(2, "a", "ab"), To(Seen(k), 2, DeleteRow("a", 1, "ab")));
    var es3 := es2 + [BeginDelete(2, "a", "ab")];
    TypedStep(k, es3, To(Seen(k), 2, DeleteRow("a", 1, "ab")), Api(2, true), SeenAndDeleted(k));
    assert es3 + [Api(2, true)] == CALLS + SEE_AND_DELETE;
  }

  lemma TypedAnew(k: Cluster, req: FunctionSpec)
    requires Anew(req)
    ensures NeverMistyped(k, CALLS + Interleaved(req)) && Run(Init(k), CALLS + Interleaved(req)) == Replaced(k, req)
  {
    TypedSeeing(k);
    CreateAnew(k, req);
    var es, s := CALLS + SEE_AND_DELETE, SeenAndDeleted(k);
    var s1, s2 := To(s, 3, CreateLookup("a", 1, req)), To(s, 3, CreateInsert("a", 1, req));
    TypedStep(k, es, s, BeginCreate(3, "a", req), s1);
    TypedStep(k, es + [BeginCreate(3, "a", req)], s1, Api(3, true), s2);
    TypedStep(k, es + [BeginCreate(3, "a", req)] + [Api(3, true)], s2, Api(3, true), Replaced(k, req));
    assert es + [BeginCreate(3, "a", req)] + [Api(3, true)] + [Api(3, true)] == CALLS + Interleaved(req);
  }

  lemma ImageLost(k: Cluster)
    requires Anew(IMAGED)
    ensures var s := Replaced(k, IMAGED);
            && !Mistyped(s, Api(1, true)) && s.d.functions[2].image == Some("i")
            && ApiStep(s, 1, true).d.functions == map[2 := AnewRow(IMAGED).(code := Some("y"), image := None, public := false)]
  {
    LastWrite(k, IMAGED);
  }

  /**
    A managed function is read by an update, deleted, and created again with an image: the
    update hits a row of the type it validated against, and takes the image away.
  */
  lemma {:induction false} AnewLosesImage(k: Cluster)
    ensures var es := CALLS + Interleaved(IMAGED);
            var s, s' := Run(Init(k), es), Run(Init(k), es + [Api(1, true)]);
            && NeverMistyped(k, es + [Api(1, true)])
            && 2 in s.d.functions && s.d.functions[2].deployType == "managed" && s.d.functions[2].image == Some("i")
            && 2 in s'.d.functions && s'.d.functions[2].deployType == "managed" && s'.d.functions[2].image == None
  {
    assert Anew(IMAGED) by {
      assert MatchesNameRegex("ab");
    }
    TypedAnew(k, IMAGED);
    ImageLost(k);
    TypedSnoc(k, CALLS + Interleaved(IMAGED), Api(1, true));
    RunSnoc(Init(k), CALLS + Interleaved(IMAGED), Api(1, true));
  }

}
