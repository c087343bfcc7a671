/**
  Tenant scoping of PromQL queries (internal/handler/promql_inject.go), as a rewriting of
  expressions with a meaning.

  An expression denotes a value over a database of labelled series.  Everything PromQL does
  apart from selecting series (functions, aggregations, binary operators, regular
  expressions, sampling, subquery steps) is left to an arbitrary `Engine`, so the theorems
  hold whatever those operators compute.  `absent` and `absent_over_time` are kept apart:
  they derive their output labels from the matchers written in their argument.
*/
module Promql {
  import opened Wrappers

  type Labels = map<string, string>
  type Time = int
  datatype Sample = Sample(at: Time, value: real)
  type Series = seq<Sample>
  type Database = map<Labels, Series>

  datatype MatchKind = MatchEqual | MatchNotEqual | MatchRegexp | MatchNotRegexp
  datatype Matcher = Matcher(kind: MatchKind, name: string, value: string)
  datatype Modifiers = Modifiers(offset: Time, at: Option<Time>)
  datatype Selector = Selector(name: string, matchers: seq<Matcher>, mods: Modifiers)

  datatype Operator =
    | Function(name: string)
    | Aggregation(name: string, grouping: seq<string>, without: bool)
    | Binary(symbol: string, on: seq<string>, ignoring: bool)
    | Unary(symbol: string)
    | Paren
    | Number(x: real)
    | Text(s: string)

  datatype Expr =
    | VectorSelector(sel: Selector)
    | MatrixSelector(sel: Selector, range: Time)
    | Subquery(body: Expr, range: Time, step: Time, mods: Modifiers)
    | Apply(op: Operator, args: seq<Expr>)

  datatype Value =
    | Scalar(x: real)
    | Str(s: string)
    | Vector(samples: map<Labels, Sample>)
    | Matrix(windows: map<Labels, Series>)

  datatype Engine = Engine(
    regex: (string, string) -> bool,
    instant: (Modifiers, Series, Time) -> Option<Sample>,
    window: (Modifiers, Time, Series, Time) -> Option<Series>,
    steps: (Time, Time, Modifiers, Time) -> seq<Time>,
    gather: (seq<Time>, seq<Value>) -> Value,
    apply: (Operator, seq<Value>, Time) -> Value,
    absent: (string, seq<Matcher>, seq<Value>, Time) -> Value)

  // ----- meaning -----

  /** A series without a label reads as carrying the empty string there. */
  function LabelOf(ls: Labels, name: string): string {
    if name in ls then ls[name] else ""
  }

  predicate MatchesOne(en: Engine, m: Matcher, ls: Labels) {
    var v := LabelOf(ls, m.name);
    match m.kind
    case MatchEqual => v == m.value
    case MatchNotEqual => v != m.value
    case MatchRegexp => en.regex(m.value, v)
    case MatchNotRegexp => !en.regex(m.value, v)
  }

  predicate Matches(en: Engine, ms: seq<Matcher>, ls: Labels) {
    forall m | m in ms :: MatchesOne(en, m, ls)
  }

  function Instant(en: Engine, sel: Selector, db: Database, t: Time): map<Labels, Sample> {
    map ls | ls in db && Matches(en, sel.matchers, ls) && en.instant(sel.mods, db[ls], t).Some?
      :: en.instant(sel.mods, db[ls], t).value
  }

  function Window(en: Engine, sel: Selector, range: Time, db: Database, t: Time): map<Labels, Series> {
    map ls | ls in db && Matches(en, sel.matchers, ls) && en.window(sel.mods, range, db[ls], t).Some?
      :: en.window(sel.mods, range, db[ls], t).value
  }

  function Unparen(e: Expr): Expr {
    if e.Apply? && e.op.Paren? && |e.args| == 1 then Unparen(e.args[0]) else e
  }

  /** The selector whose matchers name the output of an `absent` call, if this is one. */
  function AbsentSelector(op: Operator, args: seq<Expr>): Option<Selector> {
    if op.Function? && (op.name == "absent" || op.name == "absent_over_time") && |args| == 1 then
      match Unparen(args[0])
      case VectorSelector(sel) => Some(sel)
      case MatrixSelector(sel, _) => Some(sel)
      case _ => None
    else None
  }

  function Eval(en: Engine, e: Expr, db: Database, t: Time): Value
    decreases e, 1
  {
    match e
    case VectorSelector(sel) => Vector(Instant(en, sel, db, t))
    case MatrixSelector(sel, range) => Matrix(Window(en, sel, range, db, t))
    case Subquery(body, range, step, mods) =>
      var ts := en.steps(range, step, mods, t);
      en.gather(ts, EvalAt(en, body, db, ts))
    case Apply(op, args) =>
      match AbsentSelector(op, args)
      case Some(sel) => en.absent(op.name, sel.matchers, EvalAll(en, args, db, t), t)
      case None => en.apply(op, EvalAll(en, args, db, t), t)
  }

  function EvalAll(en: Engine, es: seq<Expr>, db: Database, t: Time): seq<Value>
    decreases es, 0
  {
    if es == [] then [] else [Eval(en, es[0], db, t)] + EvalAll(en, es[1..], db, t)
  }

  function EvalAt(en: Engine, e: Expr, db: Database, ts: seq<Time>): seq<Value>
    decreases e, 2, |ts|
  {
    if ts == [] then [] else [Eval(en, e, db, ts[0])] + EvalAt(en, e, db, ts[1..])
  }

  /** The series of one workspace. */
  function Restrict(db: Database, w: string): Database {
    map ls | ls in db && LabelOf(ls, "workspace") == w :: db[ls]
  }

  // ----- the rewriting -----

  const TENANT_SCOPED_METRICS: set<string> := {
    "platform_function_invocations_total",
    "platform_function_invocation_duration_seconds",
    "platform_function_invocation_duration_seconds_bucket",
    "platform_function_invocation_duration_seconds_count",
    "platform_function_invocation_duration_seconds_sum"
  }

  datatype Reject = MissingWorkspace | NotTenantScoped(metric: string) | BadWorkspaceMatcher

  function FirstWorkspaceMatcher(ms: seq<Matcher>): Option<Matcher> {
    if ms == [] then None
    else if ms[0].name == "workspace" then Some(ms[0])
    else FirstWorkspaceMatcher(ms[1..])
  }

  function RejectSelector(sel: Selector, w: string): Option<Reject> {
    if sel.name !in TENANT_SCOPED_METRICS then Some(NotTenantScoped(sel.name))
    else
      match FirstWorkspaceMatcher(sel.matchers)
      case None => None
      case Some(m) => if m.kind != MatchEqual || m.value != w then Some(BadWorkspaceMatcher) else None
  }

  function ScopeSelector(sel: Selector, w: string): Selector {
    if FirstWorkspaceMatcher(sel.matchers).Some? then sel
    else sel.(matchers := sel.matchers + [Matcher(MatchEqual, "workspace", w)])
  }

  function Scope(e: Expr, w: string): Expr
    decreases e, 1
  {
    match e
    case VectorSelector(sel) => VectorSelector(ScopeSelector(sel, w))
    case MatrixSelector(sel, range) => MatrixSelector(ScopeSelector(sel, w), range)
    case Subquery(body, range, step, mods) => Subquery(Scope(body, w), range, step, mods)
    case Apply(op, args) => Apply(op, ScopeAll(args, w))
  }

  function ScopeAll(es: seq<Expr>, w: string): (r: seq<Expr>)
    ensures |r| == |es|
    ensures forall i | 0 <= i < |es| :: r[i] == Scope(es[i], w)
    decreases es, 0
  {
    if es == [] then [] else [Scope(es[0], w)] + ScopeAll(es[1..], w)
  }

  /** The selectors of an expression in the order the walk visits them. */
  function Selectors(e: Expr): seq<Selector>
    decreases e, 1
  {
    match e
    case VectorSelector(sel) => [sel]
    case MatrixSelector(sel, _) => [sel]
    case Subquery(body, _, _, _) => Selectors(body)
    case Apply(_, args) => SelectorsAll(args)
  }

  function SelectorsAll(es: seq<Expr>): seq<Selector>
    decreases es, 0
  {
    if es == [] then [] else Selectors(es[0]) + SelectorsAll(es[1..])
  }

  /** The first rejection among the selectors, if any. */
  function FirstReject(sels: seq<Selector>, w: string): Option<Reject> {
    if sels == [] then None
    else if RejectSelector(sels[0], w).Some? then RejectSelector(sels[0], w)
    else FirstReject(sels[1..], w)
  }

  function Inject(e: Expr, w: string): Result<Expr, Reject> {
    if w == "" then Err(MissingWorkspace)
    else
      match FirstReject(Selectors(e), w)
      case Some(r) => Err(r)
      case None => Ok(Scope(e, w))
  }

  // ----- what is accepted, and its shape -----

  ghost predicate Acceptable(sel: Selector, w: string) {
    && (|| sel.name == "platform_function_invocations_total"
        || sel.name == "platform_function_invocation_duration_seconds"
        || sel.name == "platform_function_invocation_duration_seconds_bucket"
        || sel.name == "platform_function_invocation_duration_seconds_count"
        || sel.name == "platform_function_invocation_duration_seconds_sum")
    && (forall i | 0 <= i < |sel.matchers| && sel.matchers[i].name == "workspace"
                   && (forall j | 0 <= j < i :: sel.matchers[j].name != "workspace") ::
          sel.matchers[i] == Matcher(MatchEqual, "workspace", w))
  }

  /** Accepted exactly when every selector names one of the five metrics and its first workspace matcher, if any, pins w. */
  lemma {:induction false} AcceptedIff(e: Expr, w: string)
    ensures Inject(e, w).Ok? <==> w != "" && forall sel | sel in Selectors(e) :: Acceptable(sel, w)
  {
    FirstRejectNone(Selectors(e), w);
    forall sel: Selector {
      RejectNoneIff(sel, w);
    }
  }

  lemma {:induction false} FirstRejectNone(sels: seq<Selector>, w: string)
    ensures FirstReject(sels, w).None? <==> forall sel | sel in sels :: RejectSelector(sel, w).None?
  {
    if sels != [] {
      FirstRejectNone(sels[1..], w);
      assert forall sel :: sel in sels <==> sel == sels[0] || sel in sels[1..];
    }
  }

  lemma {:induction false} FirstWorkspaceAt(ms: seq<Matcher>)
    ensures FirstWorkspaceMatcher(ms).None? <==> forall m | m in ms :: m.name != "workspace"
    ensures FirstWorkspaceMatcher(ms).Some? ==>
              exists i | 0 <= i < |ms| ::
                && ms[i] == FirstWorkspaceMatcher(ms).value
                && ms[i].name == "workspace"
                && forall j | 0 <= j < i :: ms[j].name != "workspace"
  {
    if ms != [] && ms[0].name != "workspace" {
      FirstWorkspaceAt(ms[1..]);
      assert forall m :: m in ms <==> m == ms[0] || m in ms[1..];
      if FirstWorkspaceMatcher(ms).Some? {
        var i :| 0 <= i < |ms[1..]| && ms[1..][i] == FirstWorkspaceMatcher(ms[1..]).value
                 && ms[1..][i].name == "workspace"
                 && forall j | 0 <= j < i :: ms[1..][j].name != "workspace";
        assert ms[i + 1] == FirstWorkspaceMatcher(ms).value;
        forall j | 0 <= j < i + 1 ensures ms[j].name != "workspace" {
          if j > 0 { assert ms[j] == ms[1..][j - 1]; }
        }
      }
    }
  }

  lemma RejectNoneIff(sel: Selector, w: string)
    ensures RejectSelector(sel, w).None? <==> Acceptable(sel, w)
  {
    FirstWorkspaceAt(sel.matchers);
  }

  /** The expression without its matchers: metrics, modifiers, ranges, steps, operators and how they nest. */
  function Frame(e: Expr): Expr
    decreases e, 1
  {
    match e
    case VectorSelector(sel) => VectorSelector(sel.(matchers := []))
    case MatrixSelector(sel, range) => MatrixSelector(sel.(matchers := []), range)
    case Subquery(body, range, step, mods) => Subquery(Frame(body), range, step, mods)
    case Apply(op, args) => Apply(op, FrameAll(args))
  }

  function FrameAll(es: seq<Expr>): seq<Expr>
    decreases es, 0
  {
    if es == [] then [] else [Frame(es[0])] + FrameAll(es[1..])
  }

  /** Rewriting touches nothing but the matchers, and there at most appends one. */
  lemma {:induction false} ScopeShape(e: Expr, w: string)
    ensures Frame(Scope(e, w)) == Frame(e)
    ensures |Selectors(Scope(e, w))| == |Selectors(e)|
    ensures forall i | 0 <= i < |Selectors(e)| :: Selectors(Scope(e, w))[i] == ScopeSelector(Selectors(e)[i], w)
    decreases e, 1
  {
    match e
    case VectorSelector(_) =>
    case MatrixSelector(_, _) =>
    case Subquery(body, _, _, _) => ScopeShape(body, w);
    case Apply(_, args) => ScopeShapeAll(args, w);
  }

  lemma {:induction false} ScopeShapeAll(es: seq<Expr>, w: string)
    ensures FrameAll(ScopeAll(es, w)) == FrameAll(es)
    ensures |SelectorsAll(ScopeAll(es, w))| == |SelectorsAll(es)|
    ensures forall i | 0 <= i < |SelectorsAll(es)| ::
              SelectorsAll(ScopeAll(es, w))[i] == ScopeSelector(SelectorsAll(es)[i], w)
    decreases es, 0
  {
    if es != [] {
      ScopeShape(es[0], w);
      ScopeShapeAll(es[1..], w);
      assert ScopeAll(es, w)[1..] == ScopeAll(es[1..], w);
    }
  }
}
