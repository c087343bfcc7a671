/**
  The rewriting as the code performs it: a walk over a tree of selector objects that appends
  to their matchers in place and stops at the first rejection.
*/
module PromqlWalk {
  import opened Wrappers
  import opened Promql

  class SelectorNode {
    const name: string
    const mods: Modifiers
    var matchers: seq<Matcher>

    constructor (sel: Selector)
      ensures Contents() == sel
    {
      name, mods, matchers := sel.name, sel.mods, sel.matchers;
    }

    ghost function Contents(): Selector
      reads this
    {
      Selector(name, matchers, mods)
    }

    /** What the walk does at a selector: reject it, leave it, or append the pin. */
    method Visit(w: string) returns (rejectErr: Option<Reject>)
      modifies this
      ensures rejectErr == RejectSelector(old(Contents()), w)
      ensures Contents() == if rejectErr.Some? then old(Contents()) else ScopeSelector(old(Contents()), w)
    {
      if name !in TENANT_SCOPED_METRICS {
        return Some(NotTenantScoped(name));
      }
      for i := 0 to |matchers|
        invariant matchers == old(matchers)
        invariant FirstWorkspaceMatcher(matchers) == FirstWorkspaceMatcher(matchers[i..])
      {
        var m := matchers[i];
        if m.name != "workspace" {
          continue;
        }
        if m.kind != MatchEqual || m.value != w {
          return Some(BadWorkspaceMatcher);
        }
        return None;
      }
      matchers := matchers + [Matcher(MatchEqual, "workspace", w)];
      return None;
    }
  }

  datatype Node =
    | VectorNode(vs: SelectorNode)
    | MatrixNode(vs: SelectorNode, range: Time)
    | SubqueryNode(body: Node, range: Time, step: Time, mods: Modifiers)
    | ApplyNode(op: Operator, args: seq<Node>)

  ghost function Footprint(n: Node): set<SelectorNode>
    decreases n, 1
  {
    match n
    case VectorNode(vs) => {vs}
    case MatrixNode(vs, _) => {vs}
    case SubqueryNode(body, _, _, _) => Footprint(body)
    case ApplyNode(_, args) => FootprintAll(args)
  }

  ghost function FootprintAll(ns: seq<Node>): set<SelectorNode>
    decreases ns, 0
  {
    if ns == [] then {} else Footprint(ns[0]) + FootprintAll(ns[1..])
  }

  /** The parser's output shares no selector between two places. */
  ghost predicate IsTree(n: Node)
    decreases n, 1
  {
    match n
    case VectorNode(_) => true
    case MatrixNode(_, _) => true
    case SubqueryNode(body, _, _, _) => IsTree(body)
    case ApplyNode(_, args) => AreTrees(args)
  }

  ghost predicate AreTrees(ns: seq<Node>)
    decreases ns, 0
  {
    ns != [] ==> IsTree(ns[0]) && AreTrees(ns[1..]) && Footprint(ns[0]) !! FootprintAll(ns[1..])
  }

  /** The expression the objects currently spell. */
  ghost function Read(n: Node): Expr
    reads Footprint(n)
    decreases n, 1
  {
    match n
    case VectorNode(vs) => VectorSelector(vs.Contents())
    case MatrixNode(vs, range) => MatrixSelector(vs.Contents(), range)
    case SubqueryNode(body, range, step, mods) => Subquery(Read(body), range, step, mods)
    case ApplyNode(op, args) => Apply(op, ReadAll(args))
  }

  ghost function ReadAll(ns: seq<Node>): seq<Expr>
    reads FootprintAll(ns)
    decreases ns, 0
  {
    if ns == [] then [] else [Read(ns[0])] + ReadAll(ns[1..])
  }

  lemma {:induction false} FirstRejectConcat(a: seq<Selector>, b: seq<Selector>, w: string)
    ensures FirstReject(a + b, w) == if FirstReject(a, w).Some? then FirstReject(a, w) else FirstReject(b, w)
  {
    if a == [] {
      assert a + b == b;
    } else {
      FirstRejectConcat(a[1..], b, w);
      assert (a + b)[1..] == a[1..] + b;
    }
  }

  /** Every selector of an existing tree exists. */
  lemma {:induction false} FootprintAllocated(n: Node)
    ensures forall o | o in Footprint(n) :: allocated(o)
    decreases n, 1
  {
    match n
    case VectorNode(_) =>
    case MatrixNode(_, _) =>
    case SubqueryNode(body, _, _, _) => FootprintAllocated(body);
    case ApplyNode(_, args) => FootprintAllAllocated(args);
  }

  lemma {:induction false} FootprintAllAllocated(ns: seq<Node>)
    ensures forall o | o in FootprintAll(ns) :: allocated(o)
    decreases ns, 0
  {
    if ns != [] {
      FootprintAllocated(ns[0]);
      FootprintAllAllocated(ns[1..]);
    }
  }

  /** The depth-first walk: node first, then children, ending at the first rejection. */
  method Inspect(n: Node, w: string) returns (rejectErr: Option<Reject>)
    requires IsTree(n)
    modifies Footprint(n)
    ensures rejectErr == FirstReject(Selectors(old(Read(n))), w)
    ensures rejectErr.None? ==> Read(n) == Scope(old(Read(n)), w)
    decreases n, 1
  {
    match n {
      case VectorNode(vs) => rejectErr := vs.Visit(w);
      case MatrixNode(vs, _) => rejectErr := vs.Visit(w);
      case SubqueryNode(body, _, _, _) => rejectErr := Inspect(body, w);
      case ApplyNode(_, args) => rejectErr := InspectAll(args, w);
    }
  }

  method InspectAll(ns: seq<Node>, w: string) returns (rejectErr: Option<Reject>)
    requires AreTrees(ns)
    modifies FootprintAll(ns)
    ensures rejectErr == FirstReject(SelectorsAll(old(ReadAll(ns))), w)
    ensures rejectErr.None? ==> ReadAll(ns) == ScopeAll(old(ReadAll(ns)), w)
    decreases ns, 0
  {
    if ns == [] {
      assert SelectorsAll(ReadAll(ns)) == [];
      return None;
    }
    var child, siblings := ns[0], ns[1..];
    ghost var first, rest := Read(child), ReadAll(siblings);
    assert ReadAll(ns)[1..] == rest;
    assert SelectorsAll(ReadAll(ns)) == Selectors(first) + SelectorsAll(rest);
    assert ScopeAll(ReadAll(ns), w) == [Scope(first, w)] + ScopeAll(rest, w);
    FirstRejectConcat(Selectors(first), SelectorsAll(rest), w);
    FootprintAllocated(child);
    FootprintAllAllocated(siblings);
    rejectErr := Inspect(child, w);
    if rejectErr.Some? {
      return;
    }
    assert ReadAll(siblings) == rest;
    rejectErr := InspectAll(siblings, w);
    assert rejectErr.None? ==> Read(child) == Scope(first, w);
  }

  /** On success the caller's tree has become the scoped expression; otherwise the walk's first error is returned. */
  method InjectWorkspace(expr: Node, workspace: string) returns (rejectErr: Option<Reject>)
    requires IsTree(expr)
    modifies Footprint(expr)
    ensures match Inject(old(Read(expr)), workspace)
            case Err(r) => rejectErr == Some(r)
            case Ok(scoped) => rejectErr == None && Read(expr) == scoped
  {
    if workspace == "" {
      return Some(MissingWorkspace);
    }
    rejectErr := Inspect(expr, workspace);
  }
}
