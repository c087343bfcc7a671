/** What tenant scoping preserves, and exactly where it does not. */
module PromqlMeaning {
  import opened Wrappers
  import opened Promql

  // ----- rewriting twice -----

  lemma FirstWorkspaceAppended(ms: seq<Matcher>, m: Matcher)
    requires FirstWorkspaceMatcher(ms).None? && m.name == "workspace"
    ensures FirstWorkspaceMatcher(ms + [m]) == Some(m)
  {
    if ms != [] {
      FirstWorkspaceAppended(ms[1..], m);
      assert (ms + [m])[1..] == ms[1..] + [m];
    }
  }

  lemma ScopedSelectorAccepted(sel: Selector, w: string)
    requires RejectSelector(sel, w).None?
    ensures RejectSelector(ScopeSelector(sel, w), w).None?
    ensures ScopeSelector(ScopeSelector(sel, w), w) == ScopeSelector(sel, w)
  {
    if FirstWorkspaceMatcher(sel.matchers).None? {
      FirstWorkspaceAppended(sel.matchers, Matcher(MatchEqual, "workspace", w));
    }
  }

  lemma {:induction false} ScopeTwice(e: Expr, w: string)
    ensures Scope(Scope(e, w), w) == Scope(e, w)
    decreases e, 1
  {
    match e
    case VectorSelector(sel) => ScopeSelectorTwice(sel, w);
    case MatrixSelector(sel, _) => ScopeSelectorTwice(sel, w);
    case Subquery(body, _, _, _) => ScopeTwice(body, w);
    case Apply(_, args) => ScopeAllTwice(args, w);
  }

  lemma ScopeSelectorTwice(sel: Selector, w: string)
    ensures ScopeSelector(ScopeSelector(sel, w), w) == ScopeSelector(sel, w)
  {
    if FirstWorkspaceMatcher(sel.matchers).None? {
      FirstWorkspaceAppended(sel.matchers, Matcher(MatchEqual, "workspace", w));
    }
  }

  lemma {:induction false} ScopeAllTwice(es: seq<Expr>, w: string)
    ensures ScopeAll(ScopeAll(es, w), w) == ScopeAll(es, w)
    decreases es, 0
  {
    if es != [] {
      ScopeTwice(es[0], w);
      ScopeAllTwice(es[1..], w);
      assert ScopeAll(es, w)[1..] == ScopeAll(es[1..], w);
    }
  }

  /** Applying the rewriting to its own result accepts it and changes nothing. */
  lemma {:induction false} InjectTwice(e: Expr, w: string)
    requires Inject(e, w).Ok?
    ensures Inject(Inject(e, w).value, w) == Inject(e, w)
  {
    ScopeTwice(e, w);
    ScopeShape(e, w);
    FirstRejectNone(Selectors(e), w);
    FirstRejectNone(Selectors(Scope(e, w)), w);
    forall sel | sel in Selectors(Scope(e, w))
      ensures RejectSelector(sel, w).None?
    {
      var i :| 0 <= i < |Selectors(Scope(e, w))| && Selectors(Scope(e, w))[i] == sel;
      assert Selectors(e)[i] in Selectors(e);
      ScopedSelectorAccepted(Selectors(e)[i], w);
    }
  }

  // ----- what matchers select -----

  /** The series that have the label as given; those without the label have it empty. */
  ghost predicate Carries(ls: Labels, name: string, value: string) {
    if value == "" then name !in ls || ls[name] == "" else name in ls && ls[name] == value
  }

  /** A negated matcher selects what its positive does not, and no label is the empty label. */
  lemma {:induction false} MatchersSelect(en: Engine, name: string, value: string, ls: Labels)
    ensures MatchesOne(en, Matcher(MatchEqual, name, value), ls) <==> Carries(ls, name, value)
    ensures MatchesOne(en, Matcher(MatchNotEqual, name, value), ls) <==> !Carries(ls, name, value)
    ensures MatchesOne(en, Matcher(MatchRegexp, name, value), ls)
       <==> exists v: string :: Carries(ls, name, v) && en.regex(value, v)
    ensures MatchesOne(en, Matcher(MatchNotRegexp, name, value), ls)
       <==> forall v: string :: Carries(ls, name, v) ==> !en.regex(value, v)
  {
    var v := LabelOf(ls, name);
    assert Carries(ls, name, v);
    assert forall u: string :: Carries(ls, name, u) ==> u == v;
  }

  // ----- what a scoped query can read -----

  /** Some matcher of the selector demands this workspace. */
  ghost predicate PinnedSelector(sel: Selector, w: string) {
    Matcher(MatchEqual, "workspace", w) in sel.matchers
  }

  ghost predicate Pinned(e: Expr, w: string) {
    forall sel | sel in Selectors(e) :: PinnedSelector(sel, w)
  }

  lemma ScopePins(e: Expr, w: string)
    requires Inject(e, w).Ok?
    ensures Pinned(Scope(e, w), w)
  {
    ScopeShape(e, w);
    FirstRejectNone(Selectors(e), w);
    forall sel | sel in Selectors(Scope(e, w))
      ensures PinnedSelector(sel, w)
    {
      var i :| 0 <= i < |Selectors(Scope(e, w))| && Selectors(Scope(e, w))[i] == sel;
      var was := Selectors(e)[i];
      assert was in Selectors(e);
      FirstWorkspaceAt(was.matchers);
    }
  }

  lemma PinnedMatchesOnlyTenant(en: Engine, sel: Selector, w: string, ls: Labels)
    requires PinnedSelector(sel, w) && Matches(en, sel.matchers, ls)
    ensures LabelOf(ls, "workspace") == w
  {
    assert MatchesOne(en, Matcher(MatchEqual, "workspace", w), ls);
  }

  lemma PinnedSelects(en: Engine, sel: Selector, w: string, range: Time, db: Database, t: Time)
    requires PinnedSelector(sel, w)
    ensures Instant(en, sel, db, t) == Instant(en, sel, Restrict(db, w), t)
    ensures Window(en, sel, range, db, t) == Window(en, sel, range, Restrict(db, w), t)
  {
    forall ls | ls in db && Matches(en, sel.matchers, ls) ensures ls in Restrict(db, w) {
      PinnedMatchesOnlyTenant(en, sel, w, ls);
    }
  }

  /** A pinned expression means the same over the whole database and over its workspace alone. */
  lemma {:induction false} PinnedReadsOnlyTenant(en: Engine, e: Expr, w: string, db: Database, t: Time)
    requires Pinned(e, w)
    ensures Eval(en, e, db, t) == Eval(en, e, Restrict(db, w), t)
    decreases e, 1
  {
    match e
    case VectorSelector(sel) => PinnedSelects(en, sel, w, 0, db, t);
    case MatrixSelector(sel, range) => PinnedSelects(en, sel, w, range, db, t);
    case Subquery(body, range, step, mods) =>
      PinnedReadsOnlyTenantAt(en, body, w, db, en.steps(range, step, mods, t));
    case Apply(_, args) => PinnedReadsOnlyTenantAll(en, args, w, db, t);
  }

  lemma {:induction false} PinnedReadsOnlyTenantAll(en: Engine, es: seq<Expr>, w: string, db: Database, t: Time)
    requires forall sel | sel in SelectorsAll(es) :: PinnedSelector(sel, w)
    ensures EvalAll(en, es, db, t) == EvalAll(en, es, Restrict(db, w), t)
    decreases es, 0
  {
    if es != [] {
      PinnedReadsOnlyTenant(en, es[0], w, db, t);
      PinnedReadsOnlyTenantAll(en, es[1..], w, db, t);
    }
  }

  lemma {:induction false} PinnedReadsOnlyTenantAt(en: Engine, e: Expr, w: string, db: Database, ts: seq<Time>)
    requires Pinned(e, w)
    ensures EvalAt(en, e, db, ts) == EvalAt(en, e, Restrict(db, w), ts)
    decreases e, 2, |ts|
  {
    if ts != [] {
      PinnedReadsOnlyTenant(en, e, w, db, ts[0]);
      PinnedReadsOnlyTenantAt(en, e, w, db, ts[1..]);
    }
  }

  /** No accepted query can tell two databases apart that agree on the caller's workspace. */
  lemma {:induction false} TenantIsolation(en: Engine, e: Expr, w: string, db1: Database, db2: Database, t: Time)
    requires Inject(e, w).Ok? && Restrict(db1, w) == Restrict(db2, w)
    ensures Eval(en, Inject(e, w).value, db1, t) == Eval(en, Inject(e, w).value, db2, t)
  {
    ScopePins(e, w);
    PinnedReadsOnlyTenant(en, Scope(e, w), w, db1, t);
    PinnedReadsOnlyTenant(en, Scope(e, w), w, db2, t);
  }

  // ----- meaning preservation -----

  /** An `absent` call whose selector gets a matcher appended: its output labels change. */
  predicate UnpinnedAbsent(e: Expr)
    decreases e, 1
  {
    match e
    case VectorSelector(_) => false
    case MatrixSelector(_, _) => false
    case Subquery(body, _, _, _) => UnpinnedAbsent(body)
    case Apply(op, args) =>
      || UnpinnedAbsentIn(args)
      || ((op == Function("absent") || op == Function("absent_over_time")) && |args| == 1 && UnpinnedOperand(args[0]))
  }

  /** A selector, in any number of parentheses, that says nothing about the workspace. */
  predicate UnpinnedOperand(e: Expr) {
    match e
    case VectorSelector(sel) => forall m | m in sel.matchers :: m.name != "workspace"
    case MatrixSelector(sel, _) => forall m | m in sel.matchers :: m.name != "workspace"
    case Subquery(_, _, _, _) => false
    case Apply(op, args) => op == Paren && |args| == 1 && UnpinnedOperand(args[0])
  }

  lemma {:induction false} UnpinnedOperandIff(e: Expr)
    ensures UnpinnedOperand(e)
       <==> match Unparen(e)
            case VectorSelector(sel) => FirstWorkspaceMatcher(sel.matchers).None?
            case MatrixSelector(sel, _) => FirstWorkspaceMatcher(sel.matchers).None?
            case _ => false
  {
    match e
    case VectorSelector(sel) => FirstWorkspaceAt(sel.matchers);
    case MatrixSelector(sel, _) => FirstWorkspaceAt(sel.matchers);
    case Subquery(_, _, _, _) =>
    case Apply(op, args) =>
      if op == Paren && |args| == 1 {
        UnpinnedOperandIff(args[0]);
      }
  }

  /** An `absent` call is read off its selector, and changes just if that selector does. */
  lemma AbsentSelectorUnpinned(op: Operator, args: seq<Expr>)
    ensures (op == Function("absent") || op == Function("absent_over_time")) && |args| == 1 && UnpinnedOperand(args[0])
       <==> AbsentSelector(op, args).Some? && FirstWorkspaceMatcher(AbsentSelector(op, args).value.matchers).None?
  {
    if |args| == 1 {
      UnpinnedOperandIff(args[0]);
    }
  }

  predicate UnpinnedAbsentIn(es: seq<Expr>)
    decreases es, 0
  {
    es != [] && (UnpinnedAbsent(es[0]) || UnpinnedAbsentIn(es[1..]))
  }

  lemma {:induction false} UnparenScope(e: Expr, w: string)
    ensures Unparen(Scope(e, w)) == Scope(Unparen(e), w)
  {
    if e.Apply? && e.op.Paren? && |e.args| == 1 {
      UnparenScope(e.args[0], w);
    }
  }

  lemma AbsentSelectorScope(op: Operator, args: seq<Expr>, w: string)
    ensures AbsentSelector(op, ScopeAll(args, w))
         == match AbsentSelector(op, args)
            case None => None
            case Some(sel) => Some(ScopeSelector(sel, w))
  {
    if |args| == 1 {
      UnparenScope(args[0], w);
    }
  }

  /** On a database of one workspace the appended matcher selects everything. */
  lemma ScopeSelectsSame(en: Engine, sel: Selector, w: string, range: Time, db: Database, t: Time)
    requires forall ls | ls in db :: LabelOf(ls, "workspace") == w
    ensures Instant(en, ScopeSelector(sel, w), db, t) == Instant(en, sel, db, t)
    ensures Window(en, ScopeSelector(sel, w), range, db, t) == Window(en, sel, range, db, t)
  {
    var pin := Matcher(MatchEqual, "workspace", w);
    forall ls | ls in db
      ensures Matches(en, ScopeSelector(sel, w).matchers, ls) == Matches(en, sel.matchers, ls)
    {
      assert MatchesOne(en, pin, ls);
      assert forall m :: m in sel.matchers + [pin] <==> m in sel.matchers || m == pin;
    }
  }

  lemma {:induction false} ScopeMeansSame(en: Engine, e: Expr, w: string, db: Database, t: Time)
    requires forall ls | ls in db :: LabelOf(ls, "workspace") == w
    requires !UnpinnedAbsent(e)
    ensures Eval(en, Scope(e, w), db, t) == Eval(en, e, db, t)
    decreases e, 1
  {
    match e
    case VectorSelector(sel) => ScopeSelectsSame(en, sel, w, 0, db, t);
    case MatrixSelector(sel, range) => ScopeSelectsSame(en, sel, w, range, db, t);
    case Subquery(body, range, step, mods) =>
      ScopeMeansSameAt(en, body, w, db, en.steps(range, step, mods, t));
    case Apply(op, args) =>
      ScopeMeansSameAll(en, args, w, db, t);
      AbsentSelectorScope(op, args, w);
      AbsentSelectorUnpinned(op, args);
  }

  lemma {:induction false} ScopeMeansSameAll(en: Engine, es: seq<Expr>, w: string, db: Database, t: Time)
    requires forall ls | ls in db :: LabelOf(ls, "workspace") == w
    requires !UnpinnedAbsentIn(es)
    ensures EvalAll(en, ScopeAll(es, w), db, t) == EvalAll(en, es, db, t)
    decreases es, 0
  {
    if es != [] {
      ScopeMeansSame(en, es[0], w, db, t);
      ScopeMeansSameAll(en, es[1..], w, db, t);
      assert ScopeAll(es, w)[1..] == ScopeAll(es[1..], w);
    }
  }

  lemma {:induction false} ScopeMeansSameAt(en: Engine, e: Expr, w: string, db: Database, ts: seq<Time>)
    requires forall ls | ls in db :: LabelOf(ls, "workspace") == w
    requires !UnpinnedAbsent(e)
    ensures EvalAt(en, Scope(e, w), db, ts) == EvalAt(en, e, db, ts)
    decreases e, 2, |ts|
  {
    if ts != [] {
      ScopeMeansSame(en, e, w, db, ts[0]);
      ScopeMeansSameAt(en, e, w, db, ts[1..]);
    }
  }

  // ----- an engine that sees every difference -----

  function Weight(v: Value): real {
    if v.Scalar? then v.x else 0.0
  }

  function Total(vs: seq<Value>): real {
    if vs == [] then 0.0 else Weight(vs[0]) + Total(vs[1..])
  }

  /** Adds its operands up, and counts the matchers an `absent` call can see. */
  function Counting(): Engine {
    Engine((pattern, v) => false,
           (mods, series, t) => None,
           (mods, range, series, t) => None,
           (range, step, mods, t) => [t],
           (ts, vs) => Scalar(Total(vs)),
           (op, vs, t) => Scalar(Total(vs)),
           (name, ms, vs, t) => Scalar(Total(vs) + |ms| as real))
  }

  lemma {:induction false} CountingSees(e: Expr, w: string, db1: Database, db2: Database, t: Time)
    ensures Weight(Eval(Counting(), Scope(e, w), db1, t)) >= Weight(Eval(Counting(), e, db2, t))
    ensures UnpinnedAbsent(e) ==>
              Weight(Eval(Counting(), Scope(e, w), db1, t)) > Weight(Eval(Counting(), e, db2, t))
    decreases e, 1
  {
    match e
    case VectorSelector(_) =>
    case MatrixSelector(_, _) =>
    case Subquery(body, range, step, mods) =>
      CountingSees(body, w, db1, db2, t);
      CountingAtOne(body, db2, t);
      CountingAtOne(Scope(body, w), db1, t);
    case Apply(op, args) =>
      CountingSeesAll(args, w, db1, db2, t);
      AbsentSelectorScope(op, args, w);
      AbsentSelectorUnpinned(op, args);
  }

  lemma CountingAtOne(e: Expr, db: Database, t: Time)
    ensures Total(EvalAt(Counting(), e, db, [t])) == Weight(Eval(Counting(), e, db, t))
  {
    var ts := [t];
    assert EvalAt(Counting(), e, db, ts) == [Eval(Counting(), e, db, ts[0])] + EvalAt(Counting(), e, db, ts[1..]);
    assert EvalAt(Counting(), e, db, ts[1..]) == [];
    TotalCons(Eval(Counting(), e, db, t), []);
  }

  lemma {:induction false} CountingSeesAll(es: seq<Expr>, w: string, db1: Database, db2: Database, t: Time)
    ensures Total(EvalAll(Counting(), ScopeAll(es, w), db1, t)) >= Total(EvalAll(Counting(), es, db2, t))
    ensures UnpinnedAbsentIn(es) ==>
              Total(EvalAll(Counting(), ScopeAll(es, w), db1, t)) > Total(EvalAll(Counting(), es, db2, t))
    decreases es, 0
  {
    if es != [] {
      CountingSees(es[0], w, db1, db2, t);
      CountingSeesAll(es[1..], w, db1, db2, t);
      assert ScopeAll(es, w)[1..] == ScopeAll(es[1..], w);
      TotalCons(Eval(Counting(), es[0], db2, t), EvalAll(Counting(), es[1..], db2, t));
      TotalCons(Eval(Counting(), Scope(es[0], w), db1, t), EvalAll(Counting(), ScopeAll(es[1..], w), db1, t));
    }
  }

  lemma TotalCons(v: Value, vs: seq<Value>)
    ensures Total([v] + vs) == Weight(v) + Total(vs)
  {
    assert ([v] + vs)[1..] == vs;
  }

  /** The rewritten query over everything is the original query over the caller's workspace. */
  ghost predicate MeaningPreserved(e: Expr, w: string) {
    forall en: Engine, db: Database, t: Time ::
      Eval(en, Scope(e, w), db, t) == Eval(en, e, Restrict(db, w), t)
  }

  /** Meaning is preserved, for every engine, database and time, exactly when no `absent` call gets a matcher. */
  lemma {:induction false} MeaningPreservedIff(e: Expr, w: string)
    requires Inject(e, w).Ok?
    ensures MeaningPreserved(e, w) <==> !UnpinnedAbsent(e)
  {
    if UnpinnedAbsent(e) {
      CountingSees(e, w, map[], Restrict(map[], w), 0);
      assert Eval(Counting(), Scope(e, w), map[], 0) != Eval(Counting(), e, Restrict(map[], w), 0);
    } else {
      forall en: Engine, db: Database, t: Time
        ensures Eval(en, Scope(e, w), db, t) == Eval(en, e, Restrict(db, w), t)
      {
        ScopePins(e, w);
        PinnedReadsOnlyTenant(en, Scope(e, w), w, db, t);
        ScopeMeansSame(en, e, w, Restrict(db, w), t);
      }
    }
  }

  /** The excluded family is not empty: `absent(m)` is accepted and changes meaning. */
  lemma {:induction false} AbsentChangesMeaning(w: string)
    requires w != ""
    ensures var e := Apply(Function("absent"),
                           [VectorSelector(Selector("platform_function_invocations_total", [], Modifiers(0, None)))]);
            Inject(e, w).Ok? && !MeaningPreserved(e, w)
  {
    var sel := Selector("platform_function_invocations_total", [], Modifiers(0, None));
    var e := Apply(Function("absent"), [VectorSelector(sel)]);
    assert Selectors(e) == [sel] by {
      assert SelectorsAll([VectorSelector(sel)]) == [sel] + SelectorsAll([]);
    }
    assert FirstReject([sel], w).None?;
    MeaningPreservedIff(e, w);
  }
}
