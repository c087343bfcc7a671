/**
  What the events of whole runs say: each names the function its deployment was made for, and
  tells what the deployment's row reads at that moment.
*/
module PipelineAnnouncements {
  import opened Wrappers
  import opened Model
  import opened Tables
  import opened Cluster
  import opened Pipeline
  import opened PipelineTracking
  import opened PipelineTables
  import opened PipelineStatus
  import opened PipelineResting
  import opened PipelineConservation
  import opened Worker
  import opened PipelineEvents

  // ----- the worker knows each deployment by its function's name -----

  ghost predicate Named(s: State, id: int, name: string) {
    id in s.wrote && s.wrote[id].row.name == name
  }

  /** What the worker executes, and what its sweep has still to do, go by the names of their functions. */
  ghost predicate HandsNamed(s: State) {
    && (forall i | 0 <= i < |Remaining(s.w)| :: Named(s, Remaining(s.w)[i].id, Remaining(s.w)[i].functionName))
    && (s.w.SweepFunction? ==> Named(s, s.w.row.id, s.w.row.functionName))
    && (s.w.Exec? ==> Named(s, s.w.req.deploymentId, s.w.req.functionName))
  }

  lemma ExecNamed(s: State, luck: Luck)
    requires HandsNamed(s) && s.w.Exec?
    ensures HandsNamed(ExecStep(s, luck))
  {
    ExecStepFrame(s, luck);
    ExecStepMoves(s, luck);
    var s' := ExecStep(s, luck);
    assert Remaining(s'.w) == Remaining(s.w) || Remaining(s'.w) == [];
    assert s'.w.Exec? ==> s'.w.req == s.w.req;
  }

  /** The sweep goes on with the rows it has, and takes up the first of them. */
  lemma SweptNamed(s: State, luck: Luck)
    requires HandsNamed(s) && (s.w.SweepNext? || s.w.SweepFunction?)
    ensures HandsNamed(Worked(s, luck))
  {
    var rest, s' := Remaining(s.w), Worked(s, luck);
    assert s'.wrote == s.wrote;
    if s.w.SweepNext? && rest != [] {
      assert Remaining(s'.w) == rest[1..] && Named(s, rest[0].id, rest[0].functionName);
      assert forall i | 0 <= i < |rest[1..]| :: rest[1..][i] == rest[i + 1];
    } else {
      assert Remaining(s'.w) == rest;
    }
  }

  lemma WorkedNamed(s: State, luck: Luck)
    requires HandsNamed(s)
    ensures HandsNamed(Worked(s, luck))
  {
    match s.w
    case Exec(_, _, _) => ExecNamed(s, luck);
    case SweepNext(_) => SweptNamed(s, luck);
    case SweepFunction(_, _, _) => SweptNamed(s, luck);
    case Failing(_, _, _) => assert Remaining(Worked(s, luck).w) == Remaining(s.w);
    case Settling(_, _) =>
    case Idle =>
    case Down =>
  }

  lemma StartedNamed(s: State, listing: seq<ListedRow>, listed: bool)
    requires Grounded(s) && HandsNamed(s)
    ensures HandsNamed(Started(s, listing, listed))
  {
    if s.w.Down? && listed && IsActiveListing(s.d, listing) {
      forall i | 0 <= i < |listing|
        ensures Named(s, listing[i].id, listing[i].functionName)
      {
        assert RowBehind(s.d, listing[i].id, s.wrote[listing[i].id]);
      }
    }
  }

  lemma DeliveredNamed(s: State, i: nat)
    requires Grounded(s) && HandsNamed(s)
    ensures HandsNamed(Delivered(s, i))
  {
    if i < |s.q| && s.q[i].body.Some? {
      assert Faithful(s, s.q[i].body.value);
    }
  }

  /** Whatever the others do, the worker's rows keep their names. */
  lemma OthersNamed(s: State, e: Event)
    requires Tracked(s) && Grounded(s) && HandsNamed(s) && !e.Work? && !e.Start? && !e.Deliver? && !e.Crash?
    ensures HandsNamed(Next(s, e))
  {
    OthersKeepHands(s, e);
    forall id | id in s.wrote
      ensures id in Next(s, e).wrote && Next(s, e).wrote[id] == s.wrote[id]
    {
      WroteStays(s, e, id);
    }
  }

  lemma StepNamed(s: State, e: Event)
    requires Tracked(s) && Grounded(s) && HandsNamed(s)
    ensures HandsNamed(Next(s, e))
  {
    match e
    case Work(luck) => WorkedNamed(s, luck);
    case Start(listing, listed) => StartedNamed(s, listing, listed);
    case Deliver(i) => DeliveredNamed(s, i);
    case Crash =>
    case _ => OthersNamed(s, e);
  }

  lemma {:induction false} RunNamed(k: Cluster, es: seq<Event>)
    ensures HandsNamed(Run(Init(k), es))
  {
    if es != [] {
      RunNamed(k, es[..|es| - 1]);
      RunTracked(k, es[..|es| - 1]);
      RunGrounded(k, es[..|es| - 1]);
      StepNamed(Run(Init(k), es[..|es| - 1]), es[|es| - 1]);
    }
  }

  // ----- what an event tells -----

  /** An event with the fields its status calls for; `url` is what the deployer reports. */
  predicate WellFormed(ev: StatusEvent, url: string) {
    match ev.status
    case "building" => ev.url == "" && ev.error == ""
    case "deploying" => ev.url == "" && ev.error == ""
    case "running" => ev.url == url && ev.error == ""
    case "failed" => ev.url == ""
    case _ => false
  }

  predicate TellsRow(ev: StatusEvent, row: DeploymentRow) {
    match row.status
    case Queued => false
    case Building => ev.status == "building"
    case Deploying => ev.status == "deploying"
    case Running => ev.status == "running"
    case Failed => ev.status == "failed" && row.error == Some(ev.error)
  }

  /** The event is of a deployment by its function's name, and says what its row reads, if it is there. */
  ghost predicate Told(s: State, ev: StatusEvent) {
    && Named(s, ev.deploymentId, ev.functionName)
    && (ev.deploymentId in s.d.deployments ==> TellsRow(ev, s.d.deployments[ev.deploymentId]))
  }

  /** What the worker has announced is of the request it is on, and a failure if it has given up. */
  ghost predicate ToldBy(w: Pc, ev: StatusEvent, url: DeployRequest -> string) {
    if w.Exec? then ev.deploymentId == w.req.deploymentId && WellFormed(ev, url(w.req))
    else w.Failing? && ev.deploymentId == w.id && ev.status == "failed" && ev.url == "" && ev.error == w.text
  }

  /** The event is announced in this step, and tells what the row reads after it. */
  ghost predicate TellsIn(s: State, e: Event, ev: StatusEvent, url: DeployRequest -> string) {
    ev in Announces(s, e, url) && Told(Next(s, e), ev) && ToldBy(s.w, ev, url)
  }

  lemma StepTells(s: State, e: Event, ev: StatusEvent, url: DeployRequest -> string)
    requires Tracked(s) && Grounded(s) && HandsNamed(s) && ev in Announces(s, e, url)
    ensures TellsIn(s, e, ev, url)
  {
    WorkedFrame(s, e.luck);
    if s.w.Failing? {
      assert Faithful(s, s.q[s.w.src.i].body.value);
    } else if s.w.req.deploymentId in s.d.deployments {
      ExecTells(s, e.luck);
    }
  }

  /** Where executeDeploy announces, it has just written the row: a retry starts it anew, and success completes it. */
  lemma ExecTells(s: State, luck: Luck)
    requires s.w.Exec? && s.w.req.deploymentId in s.d.deployments
    ensures var row := ExecStep(s, luck).d.deployments[s.w.req.deploymentId];
            && (s.w.phase == ToBuilding ==> row.status == Building && row.startedAt == Some(s.now))
            && (s.w.phase == ToDeploying ==> row.status == Deploying)
            && (s.w.phase == ToRunning ==> row.status == Running && row.completedAt == Some(s.now))
  {
  }

  lemma LastTells(k: Cluster, es: seq<Event>, e: Event, url: DeployRequest -> string, ev: StatusEvent)
    requires ev in Announces(Run(Init(k), es), e, url)
    ensures TellsIn(Run(Init(k), es), e, ev, url)
  {
    RunTracked(k, es);
    RunGrounded(k, es);
    RunNamed(k, es);
    StepTells(Run(Init(k), es), e, ev, url);
  }

  /** Every event of a run was announced in some step, by the worker on that request, and told what the row read after it. */
  lemma {:induction false} EventsTell(k: Cluster, es: seq<Event>, url: DeployRequest -> string, i: nat)
    returns (before: seq<Event>, e: Event)
    requires i < |EventsOf(k, es, url)|
    ensures before + [e] <= es && TellsIn(Run(Init(k), before), e, EventsOf(k, es, url)[i], url)
  {
    var init, last := es[..|es| - 1], es[|es| - 1];
    var told := |EventsOf(k, init, url)|;
    if i < told {
      before, e := EventsTell(k, init, url, i);
    } else {
      before, e := init, last;
      LastTells(k, init, last, url, EventsOf(k, es, url)[i]);
    }
  }
}
