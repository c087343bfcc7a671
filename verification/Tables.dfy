/**
  The relational tables and the statements issued on them (internal/db/db.go,
  internal/db/deployment.go, migrations/).  A statement is atomic; one that violates a
  constraint changes nothing.
*/
module Tables {
  import opened Wrappers
  import opened Model

  datatype WorkspaceRow = WorkspaceRow(id: int, slug: string)

  /** `code` and `image` are nullable columns. */
  datatype FunctionRow = FunctionRow(
    id: int, workspaceId: int, name: string, runtime: string, deployType: string,
    code: Option<string>, image: Option<string>, public: bool)

  datatype DeploymentRow = DeploymentRow(
    id: int, functionId: int, workspaceId: int, status: DeployStatus, error: Option<string>,
    createdAt: int, startedAt: Option<int>, completedAt: Option<int>)

  datatype Db = Db(
    workspaces: map<int, WorkspaceRow>, functions: map<int, FunctionRow>,
    deployments: map<int, DeploymentRow>, nextWorkspace: int, nextFunction: int, nextDeployment: int)

  function EmptyDb(): Db {
    Db(map[], map[], map[], 1, 1, 1)
  }

  /** The empty string is stored as NULL, and NULL reads back as the empty string. */
  function Nullable(s: string): Option<string> {
    if s == "" then None else Some(s)
  }

  function Coalesce(s: Option<string>): string {
    if s.Some? then s.value else ""
  }

  lemma {:induction false} NullRoundTrip(s: string)
    ensures Coalesce(Nullable(s)) == s
  {
  }

  // ----- workspaces -----

  ghost predicate SlugTaken(d: Db, slug: string) {
    exists w | w in d.workspaces :: d.workspaces[w].slug == slug
  }

  ghost function FindWorkspace(d: Db, slug: string): (r: Option<WorkspaceRow>)
    ensures r.None? <==> !SlugTaken(d, slug)
    ensures r.Some? ==> r.value.slug == slug && exists w | w in d.workspaces :: d.workspaces[w] == r.value
  {
    if SlugTaken(d, slug) then
      var w :| w in d.workspaces && d.workspaces[w].slug == slug;
      Some(d.workspaces[w])
    else None
  }

  ghost function InsertWorkspace(d: Db, slug: string): Db {
    if SlugTaken(d, slug) then d
    else d.(workspaces := d.workspaces[d.nextWorkspace := WorkspaceRow(d.nextWorkspace, slug)],
            nextWorkspace := d.nextWorkspace + 1)
  }

  /** Deleting a workspace cascades to its functions, its deployments, and those functions' deployments. */
  function DeleteWorkspace(d: Db, ws: int): Db {
    d.(workspaces := d.workspaces - {ws},
       functions := map f | f in d.functions && d.functions[f].workspaceId != ws :: d.functions[f],
       deployments := map p | p in d.deployments && d.deployments[p].workspaceId != ws
                              && !(d.deployments[p].functionId in d.functions
                                   && d.functions[d.deployments[p].functionId].workspaceId == ws)
                          :: d.deployments[p])
  }

  // ----- functions -----

  ghost predicate NameTaken(d: Db, ws: int, name: string) {
    exists f | f in d.functions :: d.functions[f].workspaceId == ws && d.functions[f].name == name
  }

  ghost function FindFunction(d: Db, ws: int, name: string): (r: Option<FunctionRow>)
    ensures r.None? <==> !NameTaken(d, ws, name)
    ensures r.Some? ==>
              && r.value.workspaceId == ws && r.value.name == name
              && exists f | f in d.functions :: d.functions[f] == r.value
  {
    if NameTaken(d, ws, name) then
      var f :| f in d.functions && d.functions[f].workspaceId == ws && d.functions[f].name == name;
      Some(d.functions[f])
    else None
  }

  function NewFunctionRow(d: Db, ws: int, spec: FunctionSpec): FunctionRow {
    FunctionRow(d.nextFunction, ws, spec.name, spec.runtime, spec.deployType,
                Nullable(spec.code), Nullable(spec.image), spec.public)
  }

  ghost predicate CanInsertFunction(d: Db, ws: int, name: string) {
    ws in d.workspaces && !NameTaken(d, ws, name)
  }

  ghost function InsertFunction(d: Db, ws: int, spec: FunctionSpec): Db
    requires CanInsertFunction(d, ws, spec.name)
  {
    d.(functions := d.functions[d.nextFunction := NewFunctionRow(d, ws, spec)],
       nextFunction := d.nextFunction + 1)
  }

  function WithContent(row: FunctionRow, code: string, image: string, public: bool): FunctionRow {
    row.(code := Nullable(code), image := Nullable(image), public := public)
  }

  /** A row as the platform reads it. */
  function SpecOfRow(row: FunctionRow): FunctionSpec {
    FunctionSpec(row.name, row.runtime, row.deployType, Coalesce(row.code), Coalesce(row.image), row.public)
  }

  lemma {:induction false} NewRowReadsBack(d: Db, ws: int, spec: FunctionSpec)
    ensures SpecOfRow(NewFunctionRow(d, ws, spec)) == spec
  {
    NullRoundTrip(spec.code);
    NullRoundTrip(spec.image);
  }

  function PutFunction(d: Db, row: FunctionRow): Db {
    d.(functions := d.functions[row.id := row])
  }

  /** Deleting a function cascades to its deployments. */
  function DeleteFunction(d: Db, f: int): Db {
    d.(functions := d.functions - {f},
       deployments := map p | p in d.deployments && d.deployments[p].functionId != f :: d.deployments[p])
  }

  // ----- deployments -----

  function NewDeploymentRow(d: Db, f: int, ws: int, now: int): DeploymentRow {
    DeploymentRow(d.nextDeployment, f, ws, Queued, None, now, None, None)
  }

  function InsertDeployment(d: Db, f: int, ws: int, now: int): Db {
    d.(deployments := d.deployments[d.nextDeployment := NewDeploymentRow(d, f, ws, now)],
       nextDeployment := d.nextDeployment + 1)
  }

  function WithStatus(row: DeploymentRow, status: DeployStatus, now: int): DeploymentRow {
    row.(status := status,
         startedAt := if status == Building then Some(now) else row.startedAt,
         completedAt := if status == Running || status == Failed then Some(now) else row.completedAt)
  }

  function WithError(row: DeploymentRow, text: string, now: int): DeploymentRow {
    row.(status := Failed, error := Some(text), completedAt := Some(now))
  }

  /** An update of a row that is gone affects nothing. */
  function PutDeployment(d: Db, id: int, row: DeploymentRow): Db {
    if id in d.deployments then d.(deployments := d.deployments[id := row]) else d
  }

  function SetStatus(d: Db, id: int, status: DeployStatus, now: int): Db {
    if id in d.deployments then PutDeployment(d, id, WithStatus(d.deployments[id], status, now)) else d
  }

  function SetError(d: Db, id: int, text: string, now: int): Db {
    if id in d.deployments then PutDeployment(d, id, WithError(d.deployments[id], text, now)) else d
  }

  predicate IsActive(s: DeployStatus) {
    s == Queued || s == Building || s == Deploying
  }

  datatype ListedRow = ListedRow(id: int, workspaceId: int, functionName: string)

  function Listed(d: Db, id: int): ListedRow
    requires id in d.deployments && d.deployments[id].functionId in d.functions
  {
    var row := d.deployments[id];
    ListedRow(id, row.workspaceId, d.functions[row.functionId].name)
  }

  /** The active rows joined with their functions, oldest first; ties in any order. */
  ghost predicate IsActiveListing(d: Db, rows: seq<ListedRow>) {
    && (forall i | 0 <= i < |rows| ::
          && rows[i].id in d.deployments && d.deployments[rows[i].id].functionId in d.functions
          && IsActive(d.deployments[rows[i].id].status)
          && rows[i] == Listed(d, rows[i].id))
    && (forall i, j | 0 <= i < j < |rows| ::
          rows[i].id != rows[j].id
          && (rows[i].id in d.deployments && rows[j].id in d.deployments ==>
                d.deployments[rows[i].id].createdAt <= d.deployments[rows[j].id].createdAt))
    && (forall id | id in d.deployments && IsActive(d.deployments[id].status)
                    && d.deployments[id].functionId in d.functions ::
          exists i | 0 <= i < |rows| :: rows[i].id == id)
  }

  // ----- what every statement keeps -----

  ghost predicate KeysClosed(d: Db) {
    && (forall w | w in d.workspaces :: d.workspaces[w].id == w && 1 <= w < d.nextWorkspace)
    && (forall f | f in d.functions ::
          d.functions[f].id == f && 1 <= f < d.nextFunction && d.functions[f].workspaceId in d.workspaces)
    && (forall p | p in d.deployments ::
          d.deployments[p].id == p && 1 <= p < d.nextDeployment)
    && 1 <= d.nextWorkspace && 1 <= d.nextFunction && 1 <= d.nextDeployment
  }

  /** Each deployment's function exists and belongs to the deployment's own workspace. */
  ghost predicate DeploymentsOwned(d: Db) {
    forall p | p in d.deployments ::
      d.deployments[p].functionId in d.functions
      && d.functions[d.deployments[p].functionId].workspaceId == d.deployments[p].workspaceId
  }

  /** A slug finds one workspace at most, and a workspace's function name one function. */
  ghost predicate Unique(d: Db) {
    && (forall v, w | v in d.workspaces && w in d.workspaces && d.workspaces[v].slug == d.workspaces[w].slug :: v == w)
    && (forall f, g | f in d.functions && g in d.functions
                      && d.functions[f].workspaceId == d.functions[g].workspaceId
                      && d.functions[f].name == d.functions[g].name :: f == g)
  }

  ghost predicate Consistent(d: Db) {
    KeysClosed(d) && DeploymentsOwned(d) && Unique(d)
  }

  /** Rows and identifiers only ever come from the sequences, and a row keeps its identity. */
  ghost predicate Successor(d: Db, d': Db) {
    && d.nextFunction <= d'.nextFunction && d.nextDeployment <= d'.nextDeployment
    && d.nextWorkspace <= d'.nextWorkspace
    && (forall f | f in d'.functions && f < d.nextFunction ::
          f in d.functions && SameIdentity(d.functions[f], d'.functions[f]))
    && (forall w | w in d'.workspaces && w < d.nextWorkspace ::
          w in d.workspaces && d'.workspaces[w] == d.workspaces[w])
    && (forall p | p in d'.deployments && p < d.nextDeployment ::
          p in d.deployments && d'.deployments[p].functionId == d.deployments[p].functionId
          && d'.deployments[p].workspaceId == d.deployments[p].workspaceId)
  }

  /** Everything but code, image and visibility. */
  predicate SameIdentity(a: FunctionRow, b: FunctionRow) {
    && a.id == b.id && a.workspaceId == b.workspaceId && a.name == b.name
    && a.runtime == b.runtime && a.deployType == b.deployType
  }

  lemma {:induction false} InsertWorkspaceKeeps(d: Db, slug: string)
    requires Consistent(d)
    ensures Consistent(InsertWorkspace(d, slug)) && Successor(d, InsertWorkspace(d, slug))
    ensures InsertWorkspace(d, slug).functions == d.functions && InsertWorkspace(d, slug).deployments == d.deployments
    ensures SlugTaken(InsertWorkspace(d, slug), slug)
    ensures forall w | w in d.workspaces ::
              w in InsertWorkspace(d, slug).workspaces && InsertWorkspace(d, slug).workspaces[w] == d.workspaces[w]
  {
    if !SlugTaken(d, slug) {
      assert InsertWorkspace(d, slug).workspaces[d.nextWorkspace].slug == slug;
    }
  }

  /** The rows of other workspaces stay as they are, and none of the deleted one's are left. */
  lemma {:induction false} DeleteWorkspaceKeeps(d: Db, ws: int)
    requires Consistent(d)
    ensures Consistent(DeleteWorkspace(d, ws)) && Successor(d, DeleteWorkspace(d, ws))
    ensures var d' := DeleteWorkspace(d, ws);
            && ws !in d'.workspaces
            && (forall w | w != ws :: (w in d'.workspaces <==> w in d.workspaces)
                                      && (w in d.workspaces ==> d'.workspaces[w] == d.workspaces[w]))
            && (forall f | f in d.functions ::
                  if d.functions[f].workspaceId == ws then f !in d'.functions
                  else f in d'.functions && d'.functions[f] == d.functions[f])
            && (forall p | p in d.deployments ::
                  if d.deployments[p].workspaceId == ws then p !in d'.deployments
                  else p in d'.deployments && d'.deployments[p] == d.deployments[p])
  {
  }

  lemma {:induction false} InsertFunctionKeeps(d: Db, ws: int, spec: FunctionSpec)
    requires Consistent(d) && CanInsertFunction(d, ws, spec.name)
    ensures Consistent(InsertFunction(d, ws, spec)) && Successor(d, InsertFunction(d, ws, spec))
  {
  }

  lemma {:induction false} PutFunctionKeeps(d: Db, row: FunctionRow, code: string, image: string, public: bool)
    requires Consistent(d) && row.id in d.functions && d.functions[row.id] == row
    ensures Consistent(PutFunction(d, WithContent(row, code, image, public)))
    ensures Successor(d, PutFunction(d, WithContent(row, code, image, public)))
  {
  }

  lemma {:induction false} DeleteFunctionKeeps(d: Db, f: int)
    requires Consistent(d)
    ensures Consistent(DeleteFunction(d, f)) && Successor(d, DeleteFunction(d, f))
  {
  }

  lemma {:induction false} InsertDeploymentKeeps(d: Db, f: int, ws: int, now: int)
    requires Consistent(d) && f in d.functions && d.functions[f].workspaceId == ws
    ensures Consistent(InsertDeployment(d, f, ws, now)) && Successor(d, InsertDeployment(d, f, ws, now))
  {
  }

  /** One deployment row may have been rewritten, if it is there; nothing else has moved. */
  ghost predicate OnlyDeployment(d: Db, d': Db, id: int) {
    && (id !in d.deployments ==> d' == d)
    && d' == d.(deployments := d'.deployments) && d'.deployments.Keys == d.deployments.Keys
    && (forall p | p in d.deployments && p != id :: d'.deployments[p] == d.deployments[p])
  }

  lemma OnlyDeploymentKeeps(d: Db, id: int, row: DeploymentRow)
    requires Consistent(d) && id in d.deployments
    requires row.id == id && row.functionId == d.deployments[id].functionId
    requires row.workspaceId == d.deployments[id].workspaceId
    ensures var d' := PutDeployment(d, id, row);
            Consistent(d') && Successor(d, d') && OnlyDeployment(d, d', id)
  {
  }

  lemma SameDb(d: Db)
    requires Consistent(d)
    ensures Successor(d, d)
  {
  }

  lemma {:induction false} SetStatusKeeps(d: Db, id: int, status: DeployStatus, now: int)
    requires Consistent(d)
    ensures var d' := SetStatus(d, id, status, now);
            Consistent(d') && Successor(d, d') && OnlyDeployment(d, d', id)
  {
    if id in d.deployments {
      OnlyDeploymentKeeps(d, id, WithStatus(d.deployments[id], status, now));
    } else {
      SameDb(d);
    }
  }

  lemma {:induction false} SetErrorKeeps(d: Db, id: int, text: string, now: int)
    requires Consistent(d)
    ensures var d' := SetError(d, id, text, now);
            Consistent(d') && Successor(d, d') && OnlyDeployment(d, d', id)
  {
    if id in d.deployments {
      OnlyDeploymentKeeps(d, id, WithError(d.deployments[id], text, now));
    } else {
      SameDb(d);
    }
  }

  // ----- the un-joined count -----

  function CountedRows(d: Db, f: int, ws: int): set<int> {
    set p | p in d.deployments && d.deployments[p].functionId == f && d.deployments[p].workspaceId == ws
  }

  /** The rows of the join with functions; the key `functions.id` gives each row at most one partner. */
  function JoinedRows(d: Db, f: int, ws: int): set<int> {
    set p | p in d.deployments && d.deployments[p].functionId in d.functions
            && d.deployments[p].functionId == f && d.deployments[p].workspaceId == ws
  }

  /** COUNT(*) over deployments alone is the size of the joined listing, and the listed name is the workspace's own. */
  lemma {:induction false} CountMatchesListing(d: Db, f: int, ws: int)
    requires Consistent(d)
    ensures |CountedRows(d, f, ws)| == |JoinedRows(d, f, ws)|
    ensures forall p | p in CountedRows(d, f, ws) ::
              d.deployments[p].functionId in d.functions && d.functions[d.deployments[p].functionId].workspaceId == ws
  {
    forall p
      ensures p in CountedRows(d, f, ws) <==> p in JoinedRows(d, f, ws)
    {
      if p in d.deployments {
        assert d.deployments[p].functionId in d.functions;
      }
    }
    assert CountedRows(d, f, ws) == JoinedRows(d, f, ws);
  }
}
