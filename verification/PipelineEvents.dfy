/**
  The status events of whole runs: whatever interleaves, everything published is the worker's,
  so no subscriber's stream ever ends; and a deployment whose acknowledgement is lost announces
  building after it has announced running.
*/
module PipelineEvents {
  import opened Wrappers
  import opened Model
  import opened Cluster
  import opened Pipeline
  import opened PipelineExecute
  import opened PipelineSafety
  import opened PipelineDivergence
  import opened Worker
  import opened DeployEvents

  /** What a step of the worker announces; `url` is what the deployer reports for a request. */
  function Announces(s: State, e: Event, url: DeployRequest -> string): seq<StatusEvent> {
    if !e.Work? then []
    else
      match s.w
      case Exec(phase, req, _) =>
        if phase == ToBuilding then [StatusEvent(req.deploymentId, req.functionName, "building", "", "")]
        else if phase == ToDeploying then [StatusEvent(req.deploymentId, req.functionName, "deploying", "", "")]
        else if phase == ToRunning then [StatusEvent(req.deploymentId, req.functionName, "running", url(req), "")]
        else []
      case Failing(_, text, src) =>
        if src.FromMessage? && src.i < |s.q| && s.q[src.i].body.Some?
        then [FailureOf(s.q[src.i].body.value, text)] else []
      case _ => []
  }

  /** Everything announced along a run. */
  ghost function EventsOf(k: Cluster, es: seq<Event>, url: DeployRequest -> string): seq<StatusEvent> {
    if es == [] then []
    else
      var init := es[..|es| - 1];
      EventsOf(k, init, url) + Announces(Run(Init(k), init), es[|es| - 1], url)
  }

  lemma EventsSnoc(k: Cluster, es: seq<Event>, e: Event, url: DeployRequest -> string)
    ensures EventsOf(k, es + [e], url) == EventsOf(k, es, url) + Announces(Run(Init(k), es), e, url)
  {
    assert (es + [e])[..|es|] == es;
  }

  lemma AnnouncedByWorker(s: State, e: Event, url: DeployRequest -> string)
    ensures forall i | 0 <= i < |Announces(s, e, url)| :: WorkerMade(Announces(s, e, url)[i])
  {
    if Announces(s, e, url) != [] {
      var st := if s.w.Failing? then Failed
                else if s.w.phase == ToBuilding then Building
                else if s.w.phase == ToDeploying then Deploying else Running;
      assert Announces(s, e, url)[0].status == StatusText(st);
    }
  }

  lemma {:induction false} AllByWorker(k: Cluster, es: seq<Event>, url: DeployRequest -> string)
    ensures forall i | 0 <= i < |EventsOf(k, es, url)| :: WorkerMade(EventsOf(k, es, url)[i])
  {
    if es != [] {
      var init := es[..|es| - 1];
      AllByWorker(k, init, url);
      AnnouncedByWorker(Run(Init(k), init), es[|es| - 1], url);
    }
  }

  /** Over any run, a subscriber to any deployment is sent all of its events and its stream is never ended. */
  lemma {:induction false} RunNeverEndsStream(k: Cluster, es: seq<Event>, url: DeployRequest -> string,
                                              id: int, out: seq<StatusEvent>)
    requires CutAtFirst(out, Matching(id, Decoded(EventsOf(k, es, url))), Ends)
    ensures out == Matching(id, Decoded(EventsOf(k, es, url)))
    ensures forall i | 0 <= i < |out| :: !Ends(out[i])
  {
    AllByWorker(k, es, url);
    WorkerEventsNeverEnd(id, Decoded(EventsOf(k, es, url)), out);
  }

  // ----- a smooth execution, announced -----

  /** What is still announced from a phase on when nothing fails. */
  function StillAnnounced(phase: Phase, req: DeployRequest, url: DeployRequest -> string): seq<StatusEvent> {
    (if phase == ToBuilding then [StatusEvent(req.deploymentId, req.functionName, "building", "", "")] else [])
    + (if StepsLeft(phase) >= 4 then [StatusEvent(req.deploymentId, req.functionName, "deploying", "", "")] else [])
    + [StatusEvent(req.deploymentId, req.functionName, "running", url(req), "")]
  }

  function After(p: Phase): Phase
    requires p != ToRunning
  {
    match p
    case ToBuilding => ToNamespace
    case ToNamespace => ToRbac
    case ToRbac => ToDeploying
    case ToDeploying => ToConfigMap
    case ToConfigMap => ToService
    case ToService => ToRunning
  }

  lemma FineStep(s: State)
    requires s.w.Exec?
    ensures ExecStep(s, FINE).q == s.q
    ensures ExecStep(s, FINE).w == if s.w.phase == ToRunning then AfterSuccess(s.w.src) else s.w.(phase := After(s.w.phase))
  {
    match s.w.phase
    case ToBuilding =>
    case ToNamespace =>
    case ToRbac =>
    case ToDeploying =>
    case ToConfigMap =>
    case ToService =>
    case ToRunning =>
  }

  /** From one run to the other these events are added. */
  ghost predicate Adds(k: Cluster, es: seq<Event>, fs: seq<Event>, url: DeployRequest -> string, evs: seq<StatusEvent>) {
    EventsOf(k, fs, url) == EventsOf(k, es, url) + evs
  }

  lemma AddsTrans(k: Cluster, es: seq<Event>, fs: seq<Event>, gs: seq<Event>, url: DeployRequest -> string,
                  a: seq<StatusEvent>, b: seq<StatusEvent>)
    requires Adds(k, es, fs, url, a) && Adds(k, fs, gs, url, b)
    ensures Adds(k, es, gs, url, a + b)
  {
  }

  lemma FineNext(k: Cluster, es: seq<Event>, s: State)
    requires Run(Init(k), es) == s && s.w.Exec?
    ensures var s' := Run(Init(k), es + [Work(FINE)]);
            && s'.q == s.q
            && s'.w == if s.w.phase == ToRunning then AfterSuccess(s.w.src) else s.w.(phase := After(s.w.phase))
  {
    RunSnoc(Init(k), es, Work(FINE));
    FineStep(s);
  }

  lemma AnnouncedInTurn(s: State, url: DeployRequest -> string)
    requires s.w.Exec?
    ensures Announces(s, Work(FINE), url)
            + (if s.w.phase == ToRunning then [] else StillAnnounced(After(s.w.phase), s.w.req, url))
         == StillAnnounced(s.w.phase, s.w.req, url)
  {
  }

  /** Left alone with nothing failing, the worker finishes its request and announces the rest of the lifecycle. */
  lemma {:induction false} FineExecution(k: Cluster, es: seq<Event>, s: State, url: DeployRequest -> string)
    returns (fs: seq<Event>)
    requires Run(Init(k), es) == s && s.w.Exec?
    ensures Run(Init(k), fs).w == AfterSuccess(s.w.src) && Run(Init(k), fs).q == s.q
    ensures Adds(k, es, fs, url, StillAnnounced(s.w.phase, s.w.req, url))
    decreases StepsLeft(s.w.phase), 1
  {
    FineNext(k, es, s);
    fs := FineRest(k, es, s, url);
  }

  lemma {:induction false} FineRest(k: Cluster, es: seq<Event>, s: State, url: DeployRequest -> string) returns (fs: seq<Event>)
    requires Run(Init(k), es) == s && s.w.Exec?
    requires var s' := Run(Init(k), es + [Work(FINE)]);
             && s'.q == s.q
             && s'.w == if s.w.phase == ToRunning then AfterSuccess(s.w.src) else s.w.(phase := After(s.w.phase))
    ensures Run(Init(k), fs).w == AfterSuccess(s.w.src) && Run(Init(k), fs).q == s.q
    ensures Adds(k, es, fs, url, StillAnnounced(s.w.phase, s.w.req, url))
    decreases StepsLeft(s.w.phase), 0
  {
    var next := es + [Work(FINE)];
    EventsSnoc(k, es, Work(FINE), url);
    AnnouncedInTurn(s, url);
    if s.w.phase == ToRunning {
      fs := next;
    } else {
      fs := FineExecution(k, next, Run(Init(k), next), url);
      AddsTrans(k, es, next, fs, url, Announces(s, Work(FINE), url), StillAnnounced(After(s.w.phase), s.w.req, url));
    }
  }

  // ----- an acknowledgement that is lost -----

  lemma {:induction false} NothingAnnouncedYet(k: Cluster, es: seq<Event>, url: DeployRequest -> string)
    requires forall e | e in es :: !e.Work?
    ensures EventsOf(k, es, url) == []
  {
    if es != [] {
      NothingAnnouncedYet(k, es[..|es| - 1], url);
      assert es[|es| - 1] in es;
    }
  }

  /** The create's request is delivered, before anything has been announced. */
  lemma ReachDelivered(k: Cluster, url: DeployRequest -> string) returns (es: seq<Event>)
    ensures var s := Run(Init(k), es);
            && s.w == Exec(ToBuilding, RequestOf(1, 1, "a", REQ), FromMessage(0))
            && s.q == [Message(Some(RequestOf(1, 1, "a", REQ)), 1, Open)]
    ensures EventsOf(k, es, url) == []
  {
    var before := CALLS + [Api(0, true)];
    ReachOnePublished(k);
    OnePublishedOrderly(k, OutOfTurn);
    BeginWork(k, before, OutOfTurn);
    es := before + [Start([], false)] + [Deliver(0)];
    RunSnoc(Init(k), before + [Start([], false)], Deliver(0));
    NothingAnnouncedYet(k, es, url);
  }

  function BuildingEvent(req: DeployRequest): StatusEvent {
    StatusEvent(req.deploymentId, req.functionName, "building", "", "")
  }

  const UNSETTLED := Luck(false, "", false, true)

  lemma LoseAcknowledgement(k: Cluster, es: seq<Event>, req: DeployRequest, url: DeployRequest -> string)
    requires var s := Run(Init(k), es); s.w == Settling(0, Acked) && s.q == [Message(Some(req), 1, Open)]
    ensures var fs := es + [Work(UNSETTLED)];
            && Run(Init(k), fs).w == Idle && Run(Init(k), fs).q == [Message(Some(req), 1, Open)]
            && EventsOf(k, fs, url) == EventsOf(k, es, url)
  {
    RunSnoc(Init(k), es, Work(UNSETTLED));
    EventsSnoc(k, es, Work(UNSETTLED), url);
  }

  lemma DeliverAgain(k: Cluster, es: seq<Event>, req: DeployRequest, url: DeployRequest -> string)
    requires var s := Run(Init(k), es); s.w == Idle && s.q == [Message(Some(req), 1, Open)]
    ensures var fs := es + [Deliver(0)];
            && Run(Init(k), fs).w == Exec(ToBuilding, req, FromMessage(0))
            && Run(Init(k), fs).q == [Message(Some(req), 2, Open)]
            && EventsOf(k, fs, url) == EventsOf(k, es, url)
  {
    RunSnoc(Init(k), es, Deliver(0));
    EventsSnoc(k, es, Deliver(0), url);
  }

  lemma BuildAgain(k: Cluster, es: seq<Event>, req: DeployRequest, url: DeployRequest -> string)
    requires Run(Init(k), es).w == Exec(ToBuilding, req, FromMessage(0))
    ensures var fs := es + [Work(FINE)];
            && Run(Init(k), fs).q == Run(Init(k), es).q
            && EventsOf(k, fs, url) == EventsOf(k, es, url) + [BuildingEvent(req)]
  {
    RunSnoc(Init(k), es, Work(FINE));
    EventsSnoc(k, es, Work(FINE), url);
  }

  /** The four events of a deployment executed to the end and begun again: the stream goes past the third. */
  lemma RunsOn(req: DeployRequest, url: DeployRequest -> string)
    ensures var evs := StillAnnounced(ToBuilding, req, url) + [BuildingEvent(req)];
            && Matching(req.deploymentId, Decoded(evs)) == evs
            && |evs| == 4 && evs[2].status == "running" && evs[3].status == "building"
            && CutAtFirst(evs, evs, Ends) && !CutAtFirst(evs, evs, Terminal)
  {
    var evs := StillAnnounced(ToBuilding, req, url) + [BuildingEvent(req)];
    assert evs[2].status == "running" && evs[3].status == "building";
    AllMatch(req.deploymentId, evs);
    assert StatusText(Building)[0] == 'b' && StatusText(Deploying)[0] == 'd' && StatusText(Running)[0] == 'r';
    assert Terminal(evs[2]);
  }

  /**
    The request is executed to the end, its acknowledgement is lost, and it is delivered again:
    a subscriber is told that the deployment is running, and next that it is building.
  */
  lemma {:induction false} RedeploymentRunsOn(k: Cluster, url: DeployRequest -> string) returns (es: seq<Event>)
    ensures var evs := Matching(1, Decoded(EventsOf(k, es, url)));
            && |evs| == 4 && evs[2].status == "running" && evs[3].status == "building"
            && CutAtFirst(evs, evs, Ends) && !CutAtFirst(evs, evs, Terminal)
    ensures Run(Init(k), es).q == [Message(Some(RequestOf(1, 1, "a", REQ)), 2, Open)]
  {
    var one := ReachDelivered(k, url);
    var req := RequestOf(1, 1, "a", REQ);
    var two := FineExecution(k, one, Run(Init(k), one), url);
    assert Adds(k, one, two, url, StillAnnounced(ToBuilding, req, url));
    LoseAcknowledgement(k, two, req, url);
    var three := two + [Work(UNSETTLED)];
    DeliverAgain(k, three, req, url);
    BuildAgain(k, three + [Deliver(0)], req, url);
    es := three + [Deliver(0)] + [Work(FINE)];
    assert EventsOf(k, es, url) == StillAnnounced(ToBuilding, req, url) + [BuildingEvent(req)];
    RunsOn(req, url);
  }
}
