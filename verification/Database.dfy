/**
  The statements the platform issues, in the form they have (internal/db/db.go,
  internal/db/deployment.go): methods that read and change the tables, each shown to do what the
  functions of `Tables` say.  `ok` is whether the database carries a statement out at all.
*/
module Database {
  import opened Wrappers
  import opened Model
  import opened Tables

  /** `now` is the database's clock. */
  class DB {
    var d: Db
    const now: int

    constructor (d: Db, now: int)
      ensures this.d == d && this.now == now
    {
      this.d, this.now := d, now;
    }

    method GetWorkspaceBySlug(slug: string) returns (found: Option<WorkspaceRow>)
      requires Unique(d)
      ensures found == FindWorkspace(d, slug)
    {
      if w :| w in d.workspaces && d.workspaces[w].slug == slug {
        assert SlugTaken(d, slug);
        return Some(d.workspaces[w]);
      } else {
        return None;
      }
    }

    method GetWorkspaceByID(id: int) returns (found: Option<WorkspaceRow>)
      ensures found == if id in d.workspaces then Some(d.workspaces[id]) else None
    {
      return if id in d.workspaces then Some(d.workspaces[id]) else None;
    }

    /** The unique constraint leaves no choice of row. */
    method GetFunction(ws: int, name: string) returns (found: Option<FunctionRow>)
      requires Unique(d)
      ensures found == FindFunction(d, ws, name)
    {
      if f :| f in d.functions && d.functions[f].workspaceId == ws && d.functions[f].name == name {
        assert NameTaken(d, ws, name);
        return Some(d.functions[f]);
      } else {
        return None;
      }
    }

    /** Refused if the workspace is gone or the name is taken. */
    method CreateFunction(ws: int, spec: FunctionSpec, ok: bool) returns (row: Option<FunctionRow>)
      requires Unique(d)
      modifies this`d
      ensures row.Some? <==> ok && CanInsertFunction(old(d), ws, spec.name)
      ensures if row.Some? then d == InsertFunction(old(d), ws, spec) && row.value == NewFunctionRow(old(d), ws, spec)
              else d == old(d)
    {
      var taken := GetFunction(ws, spec.name);
      if !ok || ws !in d.workspaces || taken.Some? {
        return None;
      }
      var added := FunctionRow(d.nextFunction, ws, spec.name, spec.runtime, spec.deployType,
                              if spec.code == "" then None else Some(spec.code),
                              if spec.image == "" then None else Some(spec.image), spec.public);
      d := d.(functions := d.functions[added.id := added], nextFunction := d.nextFunction + 1);
      return Some(added);
    }

    /** Finds its row by workspace and name; no such row is not an error. */
    method UpdateFunction(ws: int, name: string, code: string, image: string, public: bool, ok: bool)
      returns (failed: bool, row: Option<FunctionRow>)
      requires Unique(d)
      modifies this`d
      ensures failed == !ok
      ensures var found := FindFunction(old(d), ws, name);
              if ok && found.Some? then
                row == Some(WithContent(found.value, code, image, public)) && d == PutFunction(old(d), row.value)
              else row.None? && d == old(d)
    {
      if !ok {
        return true, None;
      }
      var found := GetFunction(ws, name);
      if found.None? {
        return false, None;
      }
      var changed := found.value.(code := if code == "" then None else Some(code),
                               image := if image == "" then None else Some(image), public := public);
      d := d.(functions := d.functions[changed.id := changed]);
      return false, Some(changed);
    }

    /** The function's deployments go with it. */
    method RemoveFunction(ws: int, name: string, ok: bool) returns (failed: bool)
      requires Unique(d)
      modifies this`d
      ensures var found := FindFunction(old(d), ws, name);
              failed == (!ok || found.None?)
              && d == if failed then old(d) else DeleteFunction(old(d), found.value.id)
    {
      var found := GetFunction(ws, name);
      if !ok || found.None? {
        return true;
      }
      var f := found.value.id;
      d := d.(functions := d.functions - {f},
              deployments := map p | p in d.deployments && d.deployments[p].functionId != f :: d.deployments[p]);
      return false;
    }

    /** Queued, unless its function or workspace is gone. */
    method CreateDeployment(f: int, ws: int, ok: bool) returns (id: Option<int>)
      modifies this`d
      ensures id == if ok && f in old(d).functions && ws in old(d).workspaces then Some(old(d).nextDeployment) else None
      ensures d == if id.Some? then InsertDeployment(old(d), f, ws, now) else old(d)
    {
      if !ok || f !in d.functions || ws !in d.workspaces {
        return None;
      }
      id := Some(d.nextDeployment);
      d := d.(deployments := d.deployments[d.nextDeployment :=
                DeploymentRow(d.nextDeployment, f, ws, Queued, None, now, None, None)],
              nextDeployment := d.nextDeployment + 1);
    }

    method UpdateDeploymentStatus(id: int, status: DeployStatus)
      modifies this`d
      ensures d == SetStatus(old(d), id, status, now)
    {
      if id in d.deployments {
        var row := d.deployments[id].(status := status);
        match status {
          case Building => row := row.(startedAt := Some(now));
          case Running => row := row.(completedAt := Some(now));
          case Failed => row := row.(completedAt := Some(now));
          case Queued =>
          case Deploying =>
        }
        d := d.(deployments := d.deployments[id := row]);
      }
    }

    method UpdateDeploymentError(id: int, text: string)
      modifies this`d
      ensures d == SetError(old(d), id, text, now)
    {
      if id in d.deployments {
        var row := d.deployments[id].(status := Failed, error := Some(text), completedAt := Some(now));
        d := d.(deployments := d.deployments[id := row]);
      }
    }
  }
}
