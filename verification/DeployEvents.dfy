/**
  Forwarding a deployment's status events to a client (internal/handler/deploy_events.go), and
  what becomes of it on the events the worker publishes.
*/
module DeployEvents {
  import opened Wrappers
  import opened Model
  import opened Worker

  /** The test that ends a stream. */
  predicate Ends(ev: StatusEvent) {
    ev.status == "RUNNING" || ev.status == "FAILED"
  }

  /** The decodable events of deployment id, in order. */
  function Matching(id: int, delivered: seq<Option<StatusEvent>>): seq<StatusEvent> {
    if delivered == [] then []
    else
      var init, last := Matching(id, delivered[..|delivered| - 1]), delivered[|delivered| - 1];
      if last.Some? && last.value.deploymentId == id then init + [last.value] else init
  }

  lemma {:induction false} MatchingSplit(id: int, a: seq<Option<StatusEvent>>, b: seq<Option<StatusEvent>>)
    ensures Matching(id, a + b) == Matching(id, a) + Matching(id, b)
  {
    if b == [] {
      assert a + b == a;
    } else {
      assert (a + b)[..|a + b| - 1] == a + b[..|b| - 1];
      MatchingSplit(id, a, b[..|b| - 1]);
    }
  }

  /** Forwarded up to and including the first event that passes the test, if there is one. */
  ghost predicate CutAtFirst(out: seq<StatusEvent>, all: seq<StatusEvent>, ends: StatusEvent -> bool) {
    && out <= all
    && (forall i | 0 <= i < |out| - 1 :: !ends(out[i]))
    && (out == all || (|out| > 0 && ends(out[|out| - 1])))
  }

  /** There is only one way to cut. */
  lemma {:induction false} CutIsUnique(a: seq<StatusEvent>, b: seq<StatusEvent>, all: seq<StatusEvent>, ends: StatusEvent -> bool)
    requires CutAtFirst(a, all, ends) && CutAtFirst(b, all, ends)
    ensures a == b
  {
    if 0 < |a| <= |b| {
      assert a[|a| - 1] == b[|a| - 1];
    }
    if 0 < |b| <= |a| {
      assert a[|b| - 1] == b[|b| - 1];
    }
    assert a == all[..|a|] && b == all[..|b|];
  }

  /** `delivered` is what the subscription yields before it is closed; a body that does not decode is None. */
  method Stream(id: int, delivered: seq<Option<StatusEvent>>) returns (out: seq<StatusEvent>, ended: bool)
    ensures CutAtFirst(out, Matching(id, delivered), Ends)
    ensures ended <==> exists i | 0 <= i < |Matching(id, delivered)| :: Ends(Matching(id, delivered)[i])
  {
    out := [];
    var n := 0;
    while n < |delivered|
      invariant 0 <= n <= |delivered|
      invariant out == Matching(id, delivered[..n])
      invariant forall i | 0 <= i < |out| :: !Ends(out[i])
    {
      var msg := delivered[n];
      assert delivered[..n + 1][..n] == delivered[..n];
      assert delivered == delivered[..n + 1] + delivered[n + 1..];
      MatchingSplit(id, delivered[..n + 1], delivered[n + 1..]);
      n := n + 1;
      if msg.None? {
        continue;
      }
      var ev := msg.value;
      if ev.deploymentId != id {
        continue;
      }
      out := out + [ev];
      if ev.status == "RUNNING" || ev.status == "FAILED" {
        assert Matching(id, delivered)[|out| - 1] == ev;
        return out, true;
      }
    }
    assert delivered[..n] == delivered;
    return out, false;
  }

  // ----- on the worker's events -----

  ghost predicate FromWorkers(delivered: seq<Option<StatusEvent>>) {
    forall i | 0 <= i < |delivered| && delivered[i].Some? :: WorkerMade(delivered[i].value)
  }

  lemma NeverUpperCase(ev: StatusEvent)
    requires WorkerMade(ev)
    ensures !Ends(ev)
  {
    var s: DeployStatus :| ev.status == StatusText(s);
    assert IsLower(StatusText(s)[0]);
    assert !IsLower("RUNNING"[0]) && !IsLower("FAILED"[0]);
  }

  lemma {:induction false} MatchingIsDelivered(id: int, delivered: seq<Option<StatusEvent>>, ev: StatusEvent)
    requires ev in Matching(id, delivered)
    ensures Some(ev) in delivered && ev.deploymentId == id
  {
    var init := delivered[..|delivered| - 1];
    if ev in Matching(id, init) {
      MatchingIsDelivered(id, init, ev);
    }
  }

  /** No event a worker publishes ends a stream: the client gets every one, for as long as it stays. */
  lemma {:induction false} WorkerEventsNeverEnd(id: int, delivered: seq<Option<StatusEvent>>, out: seq<StatusEvent>)
    requires FromWorkers(delivered) && CutAtFirst(out, Matching(id, delivered), Ends)
    ensures out == Matching(id, delivered)
    ensures forall i | 0 <= i < |Matching(id, delivered)| :: !Ends(Matching(id, delivered)[i])
  {
    var all := Matching(id, delivered);
    forall i | 0 <= i < |all|
      ensures !Ends(all[i])
    {
      MatchingIsDelivered(id, delivered, all[i]);
      NeverUpperCase(all[i]);
    }
  }

  /** The states after which nothing more was to be sent: they are published in lower case. */
  predicate Terminal(ev: StatusEvent) {
    ev.status == StatusText(Running) || ev.status == StatusText(Failed)
  }

  /** On worker events the stream stops where it was meant to exactly when nothing follows the first terminal state. */
  lemma {:induction false} StopsAsIntendedIff(id: int, delivered: seq<Option<StatusEvent>>, out: seq<StatusEvent>)
    requires FromWorkers(delivered) && CutAtFirst(out, Matching(id, delivered), Ends)
    ensures CutAtFirst(out, Matching(id, delivered), Terminal)
       <==> forall i | 0 <= i < |Matching(id, delivered)| - 1 :: !Terminal(Matching(id, delivered)[i])
  {
    WorkerEventsNeverEnd(id, delivered, out);
  }

  /** The events as they reach a subscriber, every one of them decodable. */
  function Decoded(evs: seq<StatusEvent>): (r: seq<Option<StatusEvent>>)
    ensures |r| == |evs| && forall i | 0 <= i < |evs| :: r[i] == Some(evs[i])
  {
    if evs == [] then [] else Decoded(evs[..|evs| - 1]) + [Some(evs[|evs| - 1])]
  }

  /** What a worker has published is the worker's. */
  lemma PublishedFromWorker(w: DeployWorker)
    requires w.Valid()
    ensures FromWorkers(Decoded(w.published))
  {
  }

  lemma {:induction false} AllMatch(id: int, evs: seq<StatusEvent>)
    requires forall i | 0 <= i < |evs| :: evs[i].deploymentId == id
    ensures Matching(id, Decoded(evs)) == evs
  {
    if evs != [] {
      AllMatch(id, evs[..|evs| - 1]);
      assert Decoded(evs)[..|evs| - 1] == Decoded(evs[..|evs| - 1]);
      assert evs == evs[..|evs| - 1] + [evs[|evs| - 1]];
    }
  }
}
