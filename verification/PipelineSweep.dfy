/** The start-up sweep taken whole: every listed row comes out running or failed. */
module PipelineSweep {
  import opened Wrappers
  import opened Model
  import opened Tables
  import opened Cluster
  import opened Pipeline
  import opened PipelineExecute

  /** How the sweep of one row goes: its two lookups, and its attempt. */
  datatype Chance = Chance(workspaceOk: bool, functionOk: bool, attempt: Attempt)

  /** The request the sweep executes for a row, or the reason it cannot. */
  ghost function Prepared(d: Db, row: ListedRow, c: Chance): Result<DeployRequest, string> {
    if !c.workspaceOk || row.workspaceId !in d.workspaces then Err(NO_WORKSPACE_TEXT)
    else
      var found := FindFunction(d, row.workspaceId, row.functionName);
      if !c.functionOk || found.None? then Err(NO_FUNCTION_TEXT)
      else Ok(SweepRequest(row, d.workspaces[row.workspaceId].slug, found.value))
  }

  /** The world after one row, and the text the row fails with, if it does. */
  ghost function SweptOne(v: World, now: int, row: ListedRow, c: Chance): (World, Option<string>) {
    match Prepared(v.d, row, c)
    case Err(text) => (v.(d := SetError(v.d, row.id, text, now)), Some(text))
    case Ok(req) =>
      var (v', err) := Executed(v, now, req, c.attempt);
      if err.None? then (v', None)
      else
        var text := "recovery failed: " + err.value;
        (v'.(d := SetError(v'.d, row.id, text, now)), Some(text))
  }

  ghost function Swept(v: World, now: int, rows: seq<ListedRow>, cs: seq<Chance>): World
    requires |rows| == |cs|
    decreases |rows|
  {
    if rows == [] then v else Swept(SweptOne(v, now, rows[0], cs[0]).0, now, rows[1..], cs[1..])
  }

  /** The error text of each row, in order. */
  ghost function SweepErrors(v: World, now: int, rows: seq<ListedRow>, cs: seq<Chance>): (r: seq<Option<string>>)
    requires |rows| == |cs|
    ensures |r| == |rows|
    decreases |rows|
  {
    if rows == [] then []
    else
      var (v', err) := SweptOne(v, now, rows[0], cs[0]);
      [err] + SweepErrors(v', now, rows[1..], cs[1..])
  }

  ghost predicate Distinct(rows: seq<ListedRow>) {
    forall i, j | 0 <= i < j < |rows| :: rows[i].id != rows[j].id
  }

  // ----- the sweep is a run of the protocol -----

  ghost predicate MetaFine(cs: seq<Chance>) {
    forall i | 0 <= i < |cs| :: MetaIs(cs[i].attempt, true)
  }

  lemma SweptOneIsRun(s: State, rows: seq<ListedRow>, c: Chance)
    requires s.w == SweepNext(rows) && rows != [] && MetaIs(c.attempt, true)
    ensures var (v, _) := SweptOne(World(s.d, s.k), s.now, rows[0], c);
            WorksTo(s, s.(d := v.d, k := v.k, w := SweepNext(rows[1..])))
  {
    var row, rest := rows[0], rows[1..];
    var l1, l2 := Luck(c.workspaceOk, "", false, true), Luck(c.functionOk, "", false, true);
    var s1 := SweepLookedUp(s, rows, c.workspaceOk);
    var (v, _) := SweptOne(World(s.d, s.k), s.now, row, c);
    var done := s.(d := v.d, k := v.k, w := SweepNext(rest));
    if s1.w.Failing? {
      FailingIsRun(s1, rest);
    } else {
      var s2 := SweepPrepared(s1, row, s1.w.slug, rest, c.functionOk);
      if s2.w.Failing? {
        FailingIsRun(s2, rest);
      } else {
        SweptExecutionIsRun(s2, rest, c.attempt);
      }
      WorksToStep(s1, l2, done);
    }
    WorksToStep(s, l1, done);
  }

  lemma FailingIsRun(s: State, rest: seq<ListedRow>)
    requires s.w.Failing? && s.w.src == FromSweep(rest)
    ensures WorksTo(s, s.(d := SetError(s.d, s.w.id, s.w.text, s.now), w := SweepNext(rest)))
  {
    var luck := Luck(true, "", false, true);
    WorksToSelf(Worked(s, luck));
    WorksToStep(s, luck, Worked(s, luck));
  }

  lemma SweptExecutionIsRun(s: State, rest: seq<ListedRow>, a: Attempt)
    requires s.w.Exec? && s.w.phase == ToBuilding && s.w.src == FromSweep(rest) && MetaIs(a, true)
    ensures var (v, err) := Executed(World(s.d, s.k), s.now, s.w.req, a);
            var d := if err.None? then v.d
                     else SetError(v.d, s.w.req.deploymentId, "recovery failed: " + err.value, s.now);
            WorksTo(s, s.(d := d, k := v.k, w := SweepNext(rest)))
  {
    FinishIsRun(s, a);
    FinishIsExecuted(s, a, true);
    var s1 := Finish(s, a);
    if s1.w.Failing? {
      FailingIsRun(s1, rest);
      WorksToTrans(s, s1, s1.(d := SetError(s1.d, s1.w.id, s1.w.text, s1.now), w := SweepNext(rest)));
    }
  }

  /** A sweep left alone takes the worker from its listing to idle, as `Swept` says. */
  lemma {:induction false} SweptIsRun(s: State, rows: seq<ListedRow>, cs: seq<Chance>)
    requires s.w == SweepNext(rows) && |rows| == |cs| && MetaFine(cs)
    ensures var v := Swept(World(s.d, s.k), s.now, rows, cs);
            WorksTo(s, s.(d := v.d, k := v.k, w := Idle))
    decreases |rows|
  {
    if rows == [] {
      var luck := Luck(true, "", false, true);
      assert Worked(s, luck) == s.(w := Idle);
      WorksToSelf(Worked(s, luck));
      WorksToStep(s, luck, s.(w := Idle));
    } else {
      SweptOneIsRun(s, rows, cs[0]);
      var (v1, _) := SweptOne(World(s.d, s.k), s.now, rows[0], cs[0]);
      var s1 := s.(d := v1.d, k := v1.k, w := SweepNext(rows[1..]));
      SweptIsRun(s1, rows[1..], cs[1..]);
      var v := Swept(v1, s.now, rows[1..], cs[1..]);
      WorksToTrans(s, s1, s.(d := v.d, k := v.k, w := Idle));
    }
  }

  // ----- what it leaves -----

  /** One row of the tables may have changed; functions and workspaces have not. */
  ghost predicate OnlyRow(d: Db, d': Db, id: int) {
    && d'.functions == d.functions && d'.workspaces == d.workspaces
    && d'.deployments.Keys == d.deployments.Keys
    && (forall x | x in d.deployments && x != id :: d'.deployments[x] == d.deployments[x])
  }

  ghost predicate SweptRowReads(d: Db, id: int, err: Option<string>) {
    id in d.deployments ==>
      if err.None? then d.deployments[id].status == Running
      else d.deployments[id].status == Failed && d.deployments[id].error == err
  }

  lemma ExecutedOnlyRow(v: World, now: int, req: DeployRequest, a: Attempt)
    ensures OnlyRow(v.d, Executed(v, now, req, a).0.d, req.deploymentId)
  {
  }

  lemma SweptOneRow(v: World, now: int, row: ListedRow, c: Chance)
    ensures var (v', err) := SweptOne(v, now, row, c);
            OnlyRow(v.d, v'.d, row.id) && SweptRowReads(v'.d, row.id, err)
  {
    match Prepared(v.d, row, c)
    case Err(_) =>
    case Ok(req) =>
      ExecutedOnlyRow(v, now, req, c.attempt);
      ExecutedReads(v, now, req, c.attempt);
  }

  /**
    A completed sweep leaves every listed row running, or failed with the text of what went
    wrong; rows it did not list, functions and workspaces are untouched.
  */
  lemma {:induction false} SweepIsTotal(v: World, now: int, rows: seq<ListedRow>, cs: seq<Chance>)
    requires |rows| == |cs| && Distinct(rows)
    ensures var v' := Swept(v, now, rows, cs);
            var errs := SweepErrors(v, now, rows, cs);
            && v'.d.functions == v.d.functions && v'.d.workspaces == v.d.workspaces
            && v'.d.deployments.Keys == v.d.deployments.Keys
            && (forall i | 0 <= i < |rows| :: SweptRowReads(v'.d, rows[i].id, errs[i]))
            && (forall id | id in v.d.deployments && (forall i | 0 <= i < |rows| :: rows[i].id != id) ::
                  v'.d.deployments[id] == v.d.deployments[id])
    decreases |rows|
  {
    if rows != [] {
      var rest := rows[1..];
      var (v1, err) := SweptOne(v, now, rows[0], cs[0]);
      SweptOneRow(v, now, rows[0], cs[0]);
      SweepIsTotal(v1, now, rest, cs[1..]);
      assert forall i | 0 <= i < |rest| :: rest[i] == rows[i + 1];
      assert forall i | 0 <= i < |rest| :: rest[i].id != rows[0].id;
    }
  }

  // ----- and in the cluster -----

  /** Namespace and function name a row deploys to. */
  ghost predicate SameTarget(d: Db, a: ListedRow, b: ListedRow) {
    && a.functionName == b.functionName
    && a.workspaceId in d.workspaces && b.workspaceId in d.workspaces
    && d.workspaces[a.workspaceId].slug == d.workspaces[b.workspaceId].slug
  }

  /** The function row behind a listed row is what its namespace runs. */
  ghost predicate RunsCurrent(d: Db, k: Cluster, row: ListedRow) {
    && row.workspaceId in d.workspaces
    && FindFunction(d, row.workspaceId, row.functionName).Some?
    && Deployed(k, Namespace(d.workspaces[row.workspaceId].slug),
                SpecOfRow(FindFunction(d, row.workspaceId, row.functionName).value))
  }

  lemma {:induction false} ExecutedCluster(v: World, now: int, req: DeployRequest, a: Attempt)
    ensures var (v', err) := Executed(v, now, req, a);
            && (err.None? ==> Deployed(v'.k, req.ns, FunctionOf(req)))
            && (forall ns, fn | Deployed(v.k, ns, fn) && (ns != req.ns || fn.name != req.functionName) ::
                  Deployed(v'.k, ns, fn))
  {
    var k1 := v.k.(namespaces := v.k.namespaces + {req.ns});
    var fn, cm, svc := FunctionOf(req), OutcomeOf(a.cm), OutcomeOf(a.svc);
    forall ns', fn' | Deployed(v.k, ns', fn') && (ns' != req.ns || fn'.name != req.functionName)
      ensures Deployed(k1, ns', fn') && Deployed(Deploy(k1, req.ns, fn, cm, svc).0, ns', fn')
    {
      assert Deployed(k1, ns', fn');
      DeployKeepsOthers(k1, req.ns, fn, cm, svc, ns', fn');
    }
    if Deploy(k1, req.ns, fn, cm, svc).1.None? {
      DeploySucceeds(k1, req.ns, fn, cm, svc);
    }
  }

  lemma SweptOneCluster(v: World, now: int, row: ListedRow, c: Chance, other: ListedRow)
    ensures var (v', err) := SweptOne(v, now, row, c);
            && (err.None? ==> RunsCurrent(v.d, v'.k, row))
            && (RunsCurrent(v.d, v.k, other) && !SameTarget(v.d, row, other) ==> RunsCurrent(v.d, v'.k, other))
  {
    match Prepared(v.d, row, c)
    case Err(_) =>
    case Ok(req) =>
      ExecutedCluster(v, now, req, c.attempt);
      if RunsCurrent(v.d, v.k, other) && !SameTarget(v.d, row, other) {
        NamespaceInjective(v.d.workspaces[row.workspaceId].slug, v.d.workspaces[other.workspaceId].slug);
        assert SpecOfRow(FindFunction(v.d, other.workspaceId, other.functionName).value).name == other.functionName;
      }
  }

  lemma NamespaceInjective(a: string, b: string)
    ensures Namespace(a) == Namespace(b) <==> a == b
  {
    assert Namespace(a)[3..] == a && Namespace(b)[3..] == b;
  }

  lemma FindUnchanged(d: Db, d': Db, row: ListedRow)
    requires Unique(d) && d'.functions == d.functions
    ensures FindFunction(d', row.workspaceId, row.functionName) == FindFunction(d, row.workspaceId, row.functionName)
  {
    if FindFunction(d, row.workspaceId, row.functionName).Some? {
      var x := FindFunction(d, row.workspaceId, row.functionName).value;
      var y := FindFunction(d', row.workspaceId, row.functionName).value;
      var f :| f in d.functions && d.functions[f] == x;
      var g :| g in d.functions && d.functions[g] == y;
    }
  }

  lemma {:induction false} SweptKeepsTarget(v: World, now: int, rows: seq<ListedRow>, cs: seq<Chance>, row: ListedRow)
    requires |rows| == |cs| && Unique(v.d)
    requires RunsCurrent(v.d, v.k, row)
    requires forall i | 0 <= i < |rows| :: !SameTarget(v.d, rows[i], row)
    ensures RunsCurrent(v.d, Swept(v, now, rows, cs).k, row)
    decreases |rows|
  {
    if rows != [] {
      var v1 := SweptOne(v, now, rows[0], cs[0]).0;
      SweptOneRow(v, now, rows[0], cs[0]);
      SweptOneCluster(v, now, rows[0], cs[0], row);
      FindUnchanged(v.d, v1.d, row);
      assert forall i | 0 <= i < |rows[1..]| :: rows[1..][i] == rows[i + 1];
      SweptKeepsTarget(v1, now, rows[1..], cs[1..], row);
    }
  }

  /**
    When the last swept attempt for a function succeeded, the cluster runs the function as the
    tables have it now, whatever the original request said.
  */
  lemma {:induction false} SweepDeploysCurrent(v: World, now: int, rows: seq<ListedRow>, cs: seq<Chance>, j: nat)
    requires |rows| == |cs| && j < |rows| && Unique(v.d)
    requires SweepErrors(v, now, rows, cs)[j].None?
    requires forall i | j < i < |rows| :: !SameTarget(v.d, rows[i], rows[j])
    ensures RunsCurrent(v.d, Swept(v, now, rows, cs).k, rows[j])
    decreases |rows|
  {
    var v1, rest := SweptOne(v, now, rows[0], cs[0]).0, rows[1..];
    SweptOneRow(v, now, rows[0], cs[0]);
    FindUnchanged(v.d, v1.d, rows[j]);
    if j == 0 {
      SweptOneCluster(v, now, rows[0], cs[0], rows[0]);
      assert forall i | 0 <= i < |rest| :: rest[i] == rows[i + 1];
      SweptKeepsTarget(v1, now, rest, cs[1..], rows[0]);
    } else {
      assert rest[j - 1] == rows[j];
      assert forall i | j - 1 < i < |rest| :: rest[i] == rows[i + 1];
      SweepDeploysCurrent(v1, now, rest, cs[1..], j - 1);
    }
  }
}
