/**
  The per-user cap on open event streams (internal/middleware/sse.go).

  Any number of requests run concurrently; the steps that touch shared memory are the lookup
  of the user's counter, the atomic increment with its comparison, the undo of a refused
  increment, and the deferred release.  `Next` performs one such step, so a run is any
  interleaving of any requests.  Counters are 32-bit and wrap.
*/
module SseLimit {
  const MAX_INT32 := 0x7fff_ffff

  /** Two's-complement wrap-around into [-2^31, 2^31). */
  function Wrap32(x: int): (r: int)
    ensures -MAX_INT32 - 1 <= r <= MAX_INT32
    ensures (r - x) % 0x1_0000_0000 == 0
    decreases if x < 0 then -2 * x else 2 * x + 1
  {
    if x > MAX_INT32 then Wrap32(x - 0x1_0000_0000)
    else if x < -MAX_INT32 - 1 then Wrap32(x + 0x1_0000_0000)
    else x
  }

  /** The construction-time clamp of the configured maximum. */
  function ClampLimit(max: int): (limit: int)
    ensures 1 <= limit <= MAX_INT32
    ensures 1 <= max <= MAX_INT32 ==> limit == max
    ensures max < 1 ==> limit == 1
    ensures max > MAX_INT32 ==> limit == MAX_INT32
  {
    if max > MAX_INT32 then MAX_INT32 else if max > 1 then max else 1
  }

  /** The n-th request of a user; the empty user is an unauthenticated one. */
  datatype Id = Id(user: string, n: nat)

  /** Refused is the moment between the increment that went over and its undo. */
  datatype Pc = Resolved | Serving | Refused | Bypassing | Finished

  datatype State = State(limit: int, counts: map<string, int>, requests: map<Id, Pc>)

  datatype Event = Resolve(id: Id) | Increment(id: Id) | Undo(id: Id) | Release(id: Id)

  function Init(max: int): State {
    State(ClampLimit(max), map[], map[])
  }

  predicate At(s: State, id: Id, pc: Pc) {
    id in s.requests && s.requests[id] == pc
  }

  /** The request moves on and its user's counter takes a value. */
  function Move(s: State, id: Id, count: int, pc: Pc): State {
    State(s.limit, s.counts[id.user := count], s.requests[id := pc])
  }

  /** An unauthenticated request moves on; there is no counter. */
  function Note(s: State, id: Id, pc: Pc): State {
    State(s.limit, s.counts, s.requests[id := pc])
  }

  function CountOf(s: State, u: string): int {
    if u in s.counts then s.counts[u] else 0
  }

  /** The counter is looked up, or stored at zero. */
  function LookedUp(s: State, id: Id): State {
    if id in s.requests then s
    else if id.user == "" then Note(s, id, Bypassing)
    else Move(s, id, CountOf(s, id.user), Resolved)
  }

  function Incremented(s: State, id: Id): State {
    if At(s, id, Resolved) then
      var n := Wrap32(CountOf(s, id.user) + 1);
      Move(s, id, n, if n > s.limit then Refused else Serving)
    else s
  }

  function GivenBack(s: State, id: Id, from: Pc): State {
    if At(s, id, from) then Move(s, id, Wrap32(CountOf(s, id.user) - 1), Finished) else s
  }

  /** Steps that are not enabled leave the state as it is. */
  function Next(s: State, e: Event): State {
    match e
    case Resolve(id) => LookedUp(s, id)
    case Increment(id) => Incremented(s, id)
    case Undo(id) => GivenBack(s, id, Refused)
    case Release(id) => if At(s, id, Bypassing) then Note(s, id, Finished) else GivenBack(s, id, Serving)
  }

  function Run(s: State, es: seq<Event>): State {
    if es == [] then s else Next(Run(s, es[..|es| - 1]), es[|es| - 1])
  }

  predicate Holding(pc: Pc) {
    pc == Serving || pc == Refused
  }

  function Streams(s: State, u: string, pc: Pc): set<Id> {
    set id | id in s.requests && id.user == u && s.requests[id] == pc
  }

  /** The requests whose increment is not yet given back. */
  function Holders(s: State, u: string): set<Id> {
    set id | id in s.requests && id.user == u && Holding(s.requests[id])
  }

  /** A user's counter is the number served plus the number refused but not yet undone. */
  ghost predicate Exact(s: State) {
    forall u | u != "" :: CountOf(s, u) == Wrap32(|Holders(s, u)|)
  }

  /** Unauthenticated requests, and no others, go past the counters. */
  ghost predicate Sorted(s: State) {
    forall id | id in s.requests ::
      if id.user == "" then At(s, id, Bypassing) || At(s, id, Finished) else !At(s, id, Bypassing)
  }

  ghost predicate Counted(s: State) {
    Exact(s) && Sorted(s)
  }

  lemma HoldersSum(s: State, u: string)
    ensures |Holders(s, u)| == |Streams(s, u, Serving)| + |Streams(s, u, Refused)|
  {
    assert Holders(s, u) == Streams(s, u, Serving) + Streams(s, u, Refused);
  }

  /** Moving one request changes its own user's holders by that request, and nobody else's. */
  lemma HoldersMoved(s: State, s': State, id: Id, pc: Pc, u: string)
    requires s'.requests == s.requests[id := pc]
    ensures Holders(s', u)
         == if u != id.user then Holders(s, u)
            else Holders(s, u) - {id} + if Holding(pc) then {id} else {}
  {
  }

  lemma SizeMoved<T>(before: set<T>, x: T, joins: bool)
    ensures |before - {x} + if joins then {x} else {}|
         == |before| + (if joins then 1 else 0) - if x in before then 1 else 0
  {
    assert |before - {x}| == |before| - if x in before then 1 else 0;
  }

  lemma {:induction false} WrapAgain(n: int, d: int)
    requires -1 <= d <= 1
    ensures Wrap32(Wrap32(n) + d) == Wrap32(n + d)
    decreases if n < 0 then -2 * n else 2 * n + 1
  {
    if n > MAX_INT32 {
      WrapAgain(n - 0x1_0000_0000, d);
    } else if n < -MAX_INT32 - 1 {
      WrapAgain(n + 0x1_0000_0000, d);
    }
  }

  lemma HolderCountMoved(s: State, s': State, id: Id, delta: int, pc: Pc)
    requires s'.requests == s.requests[id := pc]
    requires delta == (if Holding(pc) then 1 else 0) - if id in Holders(s, id.user) then 1 else 0
    ensures |Holders(s', id.user)| == |Holders(s, id.user)| + delta
  {
    HoldersMoved(s, s', id, pc, id.user);
    SizeMoved(Holders(s, id.user), id, Holding(pc));
  }

  /** The counter's change is the change in the number of holders. */
  lemma CountMoved(s: State, s': State, id: Id, delta: int, pc: Pc)
    requires CountOf(s, id.user) == Wrap32(|Holders(s, id.user)|)
    requires s'.requests == s.requests[id := pc]
    requires delta == (if Holding(pc) then 1 else 0) - if id in Holders(s, id.user) then 1 else 0
    ensures Wrap32(CountOf(s, id.user) + delta) == Wrap32(|Holders(s', id.user)|)
  {
    HolderCountMoved(s, s', id, delta, pc);
    WrapAgain(|Holders(s, id.user)|, delta);
  }

  lemma MoveExact(s: State, id: Id, delta: int, pc: Pc)
    requires Exact(s) && id.user != ""
    requires delta == (if Holding(pc) then 1 else 0) - if id in Holders(s, id.user) then 1 else 0
    ensures Exact(Move(s, id, Wrap32(CountOf(s, id.user) + delta), pc))
  {
    var s' := Move(s, id, Wrap32(CountOf(s, id.user) + delta), pc);
    CountMoved(s, s', id, delta, pc);
    forall u | u != "" && u != id.user
      ensures CountOf(s', u) == Wrap32(|Holders(s', u)|)
    {
      HoldersMoved(s, s', id, pc, u);
    }
  }

  lemma MoveSorted(s: State, id: Id, n: int, pc: Pc)
    requires Sorted(s) && id.user != "" && pc != Bypassing
    ensures Sorted(Move(s, id, n, pc))
  {
  }

  lemma NoteCounted(s: State, id: Id, pc: Pc)
    requires Counted(s) && id.user == "" && !Holding(pc) && pc != Resolved
    ensures Counted(Note(s, id, pc))
  {
    var s' := Note(s, id, pc);
    forall u | u != ""
      ensures CountOf(s', u) == Wrap32(|Holders(s', u)|)
    {
      HoldersMoved(s, s', id, pc, u);
    }
  }

  lemma {:induction false} CountedStep(s: State, e: Event)
    requires Counted(s)
    ensures Counted(Next(s, e))
  {
    match e
    case Resolve(id) => ResolveCounted(s, id);
    case Increment(id) => IncrementCounted(s, id);
    case Undo(id) => GiveBackCounted(s, id, Refused);
    case Release(id) =>
      if At(s, id, Bypassing) {
        NoteCounted(s, id, Finished);
      } else {
        GiveBackCounted(s, id, Serving);
      }
  }

  lemma ResolveCounted(s: State, id: Id)
    requires Counted(s)
    ensures Counted(LookedUp(s, id))
  {
    if id !in s.requests {
      if id.user == "" {
        NoteCounted(s, id, Bypassing);
      } else {
        WrapAgain(|Holders(s, id.user)|, 0);
        MoveExact(s, id, 0, Resolved);
        MoveSorted(s, id, CountOf(s, id.user), Resolved);
      }
    }
  }

  lemma IncrementCounted(s: State, id: Id)
    requires Counted(s)
    ensures Counted(Incremented(s, id))
  {
    if At(s, id, Resolved) {
      var n := Wrap32(CountOf(s, id.user) + 1);
      if n > s.limit {
        MoveExact(s, id, 1, Refused);
        MoveSorted(s, id, n, Refused);
      } else {
        MoveExact(s, id, 1, Serving);
        MoveSorted(s, id, n, Serving);
      }
    }
  }

  lemma GiveBackCounted(s: State, id: Id, pc: Pc)
    requires Counted(s) && Holding(pc)
    ensures Counted(GivenBack(s, id, pc))
  {
    if At(s, id, pc) {
      MoveExact(s, id, -1, Finished);
      MoveSorted(s, id, Wrap32(CountOf(s, id.user) - 1), Finished);
    }
  }

  /** In every interleaving the counter is exact, modulo 2^32. */
  lemma {:induction false} CounterIsExact(max: int, es: seq<Event>)
    ensures Counted(Run(Init(max), es)) && Run(Init(max), es).limit == ClampLimit(max)
  {
    if es != [] {
      CounterIsExact(max, es[..|es| - 1]);
      CountedStep(Run(Init(max), es[..|es| - 1]), es[|es| - 1]);
    }
  }

  /**
    An increment is refused exactly when served plus in-transit was already at the limit --
    as long as the counter has not reached 2^31 - 1, where it wraps and admits everybody.
  */
  lemma {:induction false} RefusedIff(s: State, id: Id)
    requires Counted(s) && At(s, id, Resolved) && 1 <= s.limit <= MAX_INT32
    requires |Holders(s, id.user)| <= MAX_INT32
    ensures At(Next(s, Increment(id)), id, Refused)
       <==> s.limit <= |Streams(s, id.user, Serving)| + |Streams(s, id.user, Refused)| < MAX_INT32
    ensures !At(Next(s, Increment(id)), id, Refused) ==> At(Next(s, Increment(id)), id, Serving)
  {
    var n := |Holders(s, id.user)|;
    HoldersSum(s, id.user);
    assert CountOf(s, id.user) == n;
    assert Wrap32(MAX_INT32 + 1) == -MAX_INT32 - 1;
  }

  /** In every state along the run the user has fewer than 2^31 increments outstanding. */
  ghost predicate Uncrowded(max: int, es: seq<Event>, u: string) {
    forall k | 0 <= k <= |es| :: |Holders(Run(Init(max), es[..k]), u)| <= MAX_INT32
  }

  /** No interleaving serves a user more streams than the limit, however crowded the others are. */
  lemma {:induction false} CapHolds(max: int, es: seq<Event>, u: string)
    requires u != "" && Uncrowded(max, es, u)
    ensures |Streams(Run(Init(max), es), u, Serving)| <= ClampLimit(max)
  {
    if es != [] {
      var init := es[..|es| - 1];
      forall k | 0 <= k <= |init|
        ensures |Holders(Run(Init(max), init[..k]), u)| <= MAX_INT32
      {
        assert init[..k] == es[..k];
      }
      CapHolds(max, init, u);
      CounterIsExact(max, init);
      assert init == es[..|init|] && es == es[..|es|];
      CapStep(Run(Init(max), init), es[|es| - 1], u);
    }
  }

  lemma CapStep(s: State, e: Event, u: string)
    requires Counted(s) && 1 <= s.limit <= MAX_INT32 && u != ""
    requires |Holders(s, u)| <= MAX_INT32 && |Holders(Next(s, e), u)| <= MAX_INT32
    requires |Streams(s, u, Serving)| <= s.limit
    ensures |Streams(Next(s, e), u, Serving)| <= s.limit
  {
    if e.Increment? && e.id.user == u && Admits(s, e.id) {
      AdmittedHolds(s, e.id);
      CapIncrement(s, e.id);
    } else {
      ServedShrinks(s, e, u);
      SubsetSize(Streams(Next(s, e), u, Serving), Streams(s, u, Serving));
    }
  }

  predicate Admits(s: State, id: Id) {
    At(s, id, Resolved) && Wrap32(CountOf(s, id.user) + 1) <= s.limit
  }

  lemma AdmittedHolds(s: State, id: Id)
    requires At(s, id, Resolved)
    ensures |Holders(Incremented(s, id), id.user)| == |Holders(s, id.user)| + 1
  {
    assert Holders(Incremented(s, id), id.user) == Holders(s, id.user) + {id};
  }

  lemma CapIncrement(s: State, id: Id)
    requires Counted(s) && 1 <= s.limit <= MAX_INT32
    requires |Holders(s, id.user)| < MAX_INT32 && Admits(s, id)
    ensures |Streams(Incremented(s, id), id.user, Serving)| <= s.limit
  {
    var u := id.user;
    HoldersSum(s, u);
    RefusedIff(s, id);
    StreamsMoved(s, Incremented(s, id), id, Serving, u);
    SizeMoved(Streams(s, u, Serving), id, true);
  }

  /** Only an increment that stays within the limit opens a stream. */
  lemma ServedShrinks(s: State, e: Event, u: string)
    requires !(e.Increment? && e.id.user == u && Admits(s, e.id))
    ensures Streams(Next(s, e), u, Serving) <= Streams(s, u, Serving)
  {
  }

  lemma SubsetSize<T>(a: set<T>, b: set<T>)
    requires a <= b
    ensures |a| <= |b|
  {
    assert b == a + (b - a);
  }

  lemma StreamsMoved(s: State, s': State, id: Id, pc: Pc, u: string)
    requires s'.requests == s.requests[id := pc]
    ensures Streams(s', u, Serving)
         == if u != id.user then Streams(s, u, Serving)
            else Streams(s, u, Serving) - {id} + if pc == Serving then {id} else {}
  {
  }

  /** Once all of a user's requests have finished, the user's counter is back at zero. */
  lemma {:induction false} DrainsToZero(max: int, es: seq<Event>, u: string)
    requires u != ""
    requires forall id | id in Run(Init(max), es).requests && id.user == u ::
               Run(Init(max), es).requests[id] == Finished
    ensures CountOf(Run(Init(max), es), u) == 0
  {
    CounterIsExact(max, es);
    assert Holders(Run(Init(max), es), u) == {};
  }

  /** In every interleaving an unauthenticated request is let through at once, and has no counter. */
  lemma {:induction false} UnauthenticatedPasses(max: int, es: seq<Event>, id: Id)
    requires id.user == ""
    ensures var s := Run(Init(max), es);
            if id in s.requests then At(s, id, Bypassing) || At(s, id, Finished)
            else At(Next(s, Resolve(id)), id, Bypassing) && Next(s, Resolve(id)).counts == s.counts
  {
    CounterIsExact(max, es);
  }

  // ----- users do not affect each other -----

  function Own(s: State, u: string): State {
    State(s.limit,
          if u in s.counts then map[u := s.counts[u]] else map[],
          map id | id in s.requests && id.user == u :: s.requests[id])
  }

  function EventsOf(es: seq<Event>, u: string): seq<Event> {
    if es == [] then []
    else
      var last := es[|es| - 1];
      EventsOf(es[..|es| - 1], u) + if last.id.user == u then [last] else []
  }

  lemma OwnMove(s: State, id: Id, n: int, pc: Pc, u: string)
    ensures Own(Move(s, id, n, pc), u) == if id.user == u then Move(Own(s, u), id, n, pc) else Own(s, u)
    ensures Own(Note(s, id, pc), u) == if id.user == u then Note(Own(s, u), id, pc) else Own(s, u)
  {
  }

  lemma OwnStep(s: State, e: Event, u: string)
    ensures Own(Next(s, e), u) == if e.id.user == u then Next(Own(s, u), e) else Own(s, u)
  {
    var id := e.id;
    if Next(s, e) != s {
      OwnMove(s, id, CountOf(Next(s, e), id.user), Next(s, e).requests[id], u);
    }
  }

  /** A user sees the same decisions and counter whatever the others do in between. */
  lemma {:induction false} UsersAreIsolated(max: int, es: seq<Event>, u: string)
    ensures Own(Run(Init(max), es), u) == Run(Init(max), EventsOf(es, u))
  {
    if es == [] {
      assert Own(Init(max), u) == Init(max);
    } else {
      var init, last := es[..|es| - 1], es[|es| - 1];
      UsersAreIsolated(max, init, u);
      OwnStep(Run(Init(max), init), last, u);
      if last.id.user == u {
        assert (EventsOf(init, u) + [last])[..|EventsOf(init, u)|] == EventsOf(init, u);
      } else {
        assert EventsOf(init, u) + [] == EventsOf(init, u);
      }
    }
  }

  /** "Refused only while `limit` streams are served" is false: an increment in transit counts too. */
  lemma {:induction false} RefusedWithNothingServed(u: string)
    requires u != ""
    ensures var a, b, c := Id(u, 0), Id(u, 1), Id(u, 2);
            var s := Run(Init(1), [Resolve(a), Resolve(b), Resolve(c), Increment(a), Increment(b), Release(a)]);
            Streams(s, u, Serving) == {} && At(Next(s, Increment(c)), c, Refused)
  {
    OneStillInTransit(u);
  }

  lemma OneStillInTransit(u: string)
    requires u != ""
    ensures var a, b, c := Id(u, 0), Id(u, 1), Id(u, 2);
            Run(Init(1), [Resolve(a), Resolve(b), Resolve(c), Increment(a), Increment(b), Release(a)])
            == State(1, map[u := 1], map[a := Finished, b := Refused, c := Resolved])
  {
    var a, b, c := Id(u, 0), Id(u, 1), Id(u, 2);
    var es := [Resolve(a), Resolve(b), Resolve(c), Increment(a), Increment(b), Release(a)];
    ThreeResolved(u);
    OneServedOneRefused(u);
    assert es[..3] == [Resolve(a), Resolve(b), Resolve(c)];
    RunSnoc(Init(1), es, 3);
    RunSnoc(Init(1), es, 4);
    RunSnoc(Init(1), es, 5);
    assert es[..6] == es;
  }

  lemma ThreeResolved(u: string)
    requires u != ""
    ensures Run(Init(1), [Resolve(Id(u, 0)), Resolve(Id(u, 1)), Resolve(Id(u, 2))])
         == State(1, map[u := 0], map[Id(u, 0) := Resolved, Id(u, 1) := Resolved, Id(u, 2) := Resolved])
  {
    var es := [Resolve(Id(u, 0)), Resolve(Id(u, 1)), Resolve(Id(u, 2))];
    RunSnoc(Init(1), es, 0);
    RunSnoc(Init(1), es, 1);
    RunSnoc(Init(1), es, 2);
    assert es[..3] == es;
  }

  lemma OneServedOneRefused(u: string)
    ensures var a, b, c := Id(u, 0), Id(u, 1), Id(u, 2);
            var s := State(1, map[u := 0], map[a := Resolved, b := Resolved, c := Resolved]);
            Next(Next(Next(s, Increment(a)), Increment(b)), Release(a))
            == State(1, map[u := 1], map[a := Finished, b := Refused, c := Resolved])
  {
    var a, b, c := Id(u, 0), Id(u, 1), Id(u, 2);
    var s := State(1, map[u := 0], map[a := Resolved, b := Resolved, c := Resolved]);
    assert Next(s, Increment(a)) == State(1, map[u := 1], map[a := Serving, b := Resolved, c := Resolved]);
  }

  lemma RunSnoc(s: State, es: seq<Event>, k: nat)
    requires k < |es|
    ensures Run(s, es[..k + 1]) == Next(Run(s, es[..k]), es[k])
  {
    assert es[..k + 1][..k] == es[..k];
  }
}
