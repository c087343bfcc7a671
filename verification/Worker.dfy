/**
  The deploy worker in the form it has (internal/worker/deploy.go): executeDeploy, the handling
  of one message and the recovery sweep as methods over the store, the deployer and the message,
  each shown to do what the whole-attempt functions of the protocol say, and to publish what it did.
*/
module Worker {
  import opened Wrappers
  import opened Model
  import opened Tables
  import opened Cluster
  import opened Pipeline
  import opened PipelineExecute
  import opened PipelineSweep
  import opened Deployer
  import opened Database

  /** What status subscribers see. */
  datatype StatusEvent = StatusEvent(deploymentId: int, functionName: string, status: string, url: string, error: string)

  /** The event carries the text of one of the worker's statuses. */
  ghost predicate WorkerMade(ev: StatusEvent) {
    exists s: DeployStatus :: ev.status == StatusText(s)
  }

  datatype Reply = Unanswered | Ack | Nak | Term

  /** A delivered message: a body that may not decode, and a delivery count that may not be available. */
  class Message {
    const data: Option<DeployRequest>
    const delivered: Option<nat>
    var reply: Reply

    constructor (data: Option<DeployRequest>, delivered: Option<nat>)
      ensures this.data == data && this.delivered == delivered && reply.Unanswered?
    {
      this.data, this.delivered, reply := data, delivered, Unanswered;
    }
  }

  function ReplyFor(to: Settlement): Reply {
    match to
    case Open => Nak
    case Acked => Ack
    case Termed => Term
  }

  /** What executeDeploy announces: how far it got, and the URL if it got to the end. */
  function Announced(req: DeployRequest, a: Attempt, err: Option<string>, url: string): seq<StatusEvent> {
    [StatusEvent(req.deploymentId, req.functionName, "building", "", "")]
    + (if a.ns.ok && a.rbac.ok then [StatusEvent(req.deploymentId, req.functionName, "deploying", "", "")] else [])
    + (if err.None? then [StatusEvent(req.deploymentId, req.functionName, "running", url, "")] else [])
  }

  /** What is announced of a request that has failed for good. */
  function FailureOf(req: DeployRequest, error: string): StatusEvent {
    StatusEvent(req.deploymentId, req.functionName, "failed", "", error)
  }

  /** The failure announced is the one the row holds. */
  predicate FailureRead(ev: StatusEvent, row: DeploymentRow) {
    ev.status == "failed" && ev.url == "" && row.status == Failed && row.error == Some(ev.error)
  }

  ghost predicate IsProgress(ev: StatusEvent) {
    WorkerMade(ev) && ev.status != StatusText(Failed)
  }

  /** What has been published since are statuses of the worker, none of them a failure. */
  ghost predicate Progress(before: seq<StatusEvent>, after: seq<StatusEvent>) {
    before <= after && forall i | |before| <= i < |after| :: IsProgress(after[i])
  }

  lemma {:induction false} AnnouncedIsProgress(before: seq<StatusEvent>, mid: seq<StatusEvent>, req: DeployRequest, a: Attempt,
                            err: Option<string>, url: string)
    requires Progress(before, mid)
    ensures Progress(before, mid + Announced(req, a, err, url))
  {
    assert StatusText(Building) == "building" && StatusText(Deploying) == "deploying" && StatusText(Running) == "running";
    assert StatusText(Failed)[0] == 'f';
    assert forall i | 0 <= i < |Announced(req, a, err, url)| :: IsProgress(Announced(req, a, err, url)[i]);
  }

  class DeployWorker {
    const store: DB
    const deployer: KnativeDeployer
    var published: seq<StatusEvent>

    constructor (store: DB, deployer: KnativeDeployer)
      ensures Valid() && this.store == store && this.deployer == deployer && published == []
    {
      this.store, this.deployer, published := store, deployer, [];
    }

    function World(): PipelineExecute.World
      reads store, deployer
    {
      PipelineExecute.World(store.d, deployer.Objects())
    }

    /** Every event this worker has ever published carries the text of one of its statuses. */
    ghost predicate Valid()
      reads this`published
    {
      forall i | 0 <= i < |published| :: WorkerMade(published[i])
    }

    method PublishStatus(req: DeployRequest, status: DeployStatus, url: string, error: string)
      requires Valid()
      modifies this`published
      ensures Valid()
      ensures published == old(published) + [StatusEvent(req.deploymentId, req.functionName, StatusText(status), url, error)]
    {
      var event := StatusEvent(req.deploymentId, req.functionName, StatusText(status), url, error);
      assert WorkerMade(event);
      published := published + [event];
    }

    method ExecuteDeploy(req: DeployRequest, a: Attempt) returns (err: Option<string>)
      requires Valid()
      modifies this`published, store, deployer
      ensures Valid()
      ensures (World(), err) == Executed(old(World()), store.now, req, a)
      ensures exists url :: published == old(published) + Announced(req, a, err, url)
                            && (err.None? ==> Key(req.ns, "fn-" + req.functionName) in deployer.services
                                              && url == deployer.services[Key(req.ns, "fn-" + req.functionName)].url)
    {
      ghost var before := published;
      store.UpdateDeploymentStatus(req.deploymentId, Building);
      PublishStatus(req, Building, "", "");
      var failed := deployer.EnsureNamespace(req.ns, Failure(a.ns));
      if failed.Some? {
        err := Some("ensure namespace: " + failed.value);
        assert published == before + Announced(req, a, err, "");
        return;
      }
      // Of the namespace's role, binding and pull secret only whether they could be ensured is kept.
      if !a.rbac.ok {
        err := Some("ensure rbac: " + a.rbac.detail);
        assert published == before + Announced(req, a, err, "");
        return;
      }
      store.UpdateDeploymentStatus(req.deploymentId, Deploying);
      PublishStatus(req, Deploying, "", "");
      var fn := FunctionSpec(req.functionName, req.runtime, req.deployType, req.code, req.image, req.public);
      var url;
      url, failed := deployer.Deploy(req.ns, fn, OutcomeOf(a.cm), OutcomeOf(a.svc));
      if failed.Some? {
        err := Some("deploy to knative: " + failed.value);
        assert published == before + Announced(req, a, err, "");
        return;
      }
      store.UpdateDeploymentStatus(req.deploymentId, Running);
      PublishStatus(req, Running, url, "");
      err := None;
      assert published == before + Announced(req, a, err, url);
    }

    /**
      A body that does not decode is terminated and nothing else happens; otherwise the message
      is executed and answered as `Handled` says, and a final failure is announced.
    */
    method HandleMessage(msg: Message, a: Attempt)
      requires Valid() && msg.reply.Unanswered?
      modifies this`published, store, deployer, msg`reply
      ensures Valid()
      ensures msg.data.None? ==> msg.reply == Term && World() == old(World()) && published == old(published)
      ensures msg.data.Some? ==>
                (World(), msg.reply)
                == var (v, to) := Handled(old(World()), store.now, msg.data.value, Deliveries(msg), msg.delivered.Some?, a);
                   (v, ReplyFor(to))
      ensures msg.data.Some? ==>
                var req := msg.data.value;
                var err := Executed(old(World()), store.now, req, a).1;
                exists url :: published == old(published) + Announced(req, a, err, url)
                                           + (if msg.reply.Term? then [FailureOf(req, err.value)] else [])
      ensures msg.data.Some? && msg.reply.Term? && msg.data.value.deploymentId in store.d.deployments ==>
                && published != []
                && FailureRead(published[|published| - 1], store.d.deployments[msg.data.value.deploymentId])
    {
      if msg.data.None? {
        msg.reply := Term;
        return;
      }
      var req := msg.data.value;
      ghost var before := published;
      var err := ExecuteDeploy(req, a);
      ghost var url :| published == before + Announced(req, a, err, url);
      if err.Some? {
        if msg.delivered.None? {
          msg.reply := Nak;
        } else if msg.delivered.value >= 4 {
          store.UpdateDeploymentError(req.deploymentId, err.value);
          PublishStatus(req, Failed, "", err.value);
          msg.reply := Term;
        } else {
          msg.reply := Nak;
        }
      } else {
        msg.reply := Ack;
      }
      assert published == before + Announced(req, a, err, url)
                          + (if msg.reply.Term? then [FailureOf(req, err.value)] else []);
    }

    /** Every active row in turn, each to success or to an error text; no row stops the sweep, and no failure is announced. */
    method RecoverActiveDeployments(listing: Option<seq<ListedRow>>, cs: seq<Chance>) returns (failed: bool)
      requires Valid() && Unique(store.d)
      requires listing.Some? ==> |cs| == |listing.value|
      modifies this`published, store, deployer
      ensures failed == listing.None?
      ensures World() == if listing.Some? then Swept(old(World()), store.now, listing.value, cs) else old(World())
      ensures Valid() && Progress(old(published), published)
    {
      if listing.None? {
        return true;
      }
      var active := listing.value;
      ghost var v0, rows, events0 := World(), listing.value, published;
      var i := 0;
      while i < |active|
        invariant 0 <= i <= |rows|
        invariant Unique(store.d)
        invariant Valid() && Progress(events0, published)
        invariant Swept(v0, store.now, rows, cs) == Swept(World(), store.now, rows[i..], cs[i..])
      {
        var dep, c := active[i], cs[i];
        ghost var v := World();
        SweptOneRow(v, store.now, dep, c);
        assert rows[i..][1..] == rows[i + 1..] && cs[i..][1..] == cs[i + 1..];
        i := i + 1;
        var ws := store.GetWorkspaceByID(dep.workspaceId);
        if !c.workspaceOk || ws.None? {
          store.UpdateDeploymentError(dep.id, "workspace not found during recovery");
          continue;
        }
        var fn := store.GetFunction(dep.workspaceId, dep.functionName);
        if !c.functionOk || fn.None? {
          store.UpdateDeploymentError(dep.id, "function not found during recovery");
          continue;
        }
        var req := DeployRequest(dep.id, dep.workspaceId, dep.functionName, "fn-" + ws.value.slug, fn.value.runtime,
                                 fn.value.deployType, Coalesce(fn.value.code), Coalesce(fn.value.image), fn.value.public);
        assert Prepared(v.d, dep, c) == Ok(req);
        ghost var before := published;
        var err := ExecuteDeploy(req, c.attempt);
        ghost var url :| published == before + Announced(req, c.attempt, err, url);
        AnnouncedIsProgress(events0, before, req, c.attempt, err, url);
        if err.Some? {
          store.UpdateDeploymentError(dep.id, "recovery failed: " + err.value);
        }
      }
      return false;
    }
  }

  function Deliveries(msg: Message): nat {
    if msg.delivered.Some? then msg.delivered.value else 0
  }
}
