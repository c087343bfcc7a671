/**
  The counters of the stream cap as shared objects, with one method for each step that
  touches them.  `state` is the protocol state the objects stand for.
*/
module SseMiddleware {
  import opened SseLimit

  /** An atomic 32-bit counter. */
  class AtomicInt32 {
    var v: int

    constructor ()
      ensures v == 0
    {
      v := 0;
    }

    method Add(delta: int) returns (r: int)
      modifies this
      ensures v == Wrap32(old(v) + delta) && r == v
    {
      v := Wrap32(v + delta);
      r := v;
    }
  }

  class ConnectionLimit {
    const limit: int
    var counts: map<string, AtomicInt32>
    ghost var state: State

    ghost predicate Valid()
      reads this, counts.Values
    {
      && limit == state.limit
      && counts.Keys == state.counts.Keys
      && (forall u | u in counts :: counts[u].v == state.counts[u])
      && (forall u, v | u in counts && v in counts && u != v :: counts[u] != counts[v])
      && (forall id | id in state.requests && id.user != "" :: id.user in counts)
      && Sorted(state)
    }

    constructor (max: int)
      ensures Valid() && state == Init(max) && fresh(counts.Values)
    {
      limit, counts, state := ClampLimit(max), map[], Init(max);
    }

    /** A request arrives and finds its user's counter, storing a new one if there is none. */
    method LoadOrStore(id: Id)
      requires Valid() && id !in state.requests
      modifies this
      ensures Valid() && fresh(counts.Values - old(counts.Values))
      ensures state == Next(old(state), Resolve(id))
    {
      if id.user != "" && id.user !in counts {
        var c := new AtomicInt32();
        counts := counts[id.user := c];
      }
      state := Next(state, Resolve(id));
    }

    /** The increment and its comparison with the limit. */
    method Enter(id: Id) returns (refused: bool)
      requires Valid() && At(state, id, Resolved)
      modifies this`state, counts.Values
      ensures Valid()
      ensures state == Next(old(state), Increment(id))
      ensures refused == At(state, id, Refused)
    {
      var r := counts[id.user].Add(1);
      refused := r > limit;
      IncrementSorted(state, id);
      state := Next(state, Increment(id));
    }

    /** Taking an increment back: the undo of a refused request, or the release of a served one. */
    method GiveBack(id: Id)
      requires Valid() && (At(state, id, Refused) || At(state, id, Serving))
      modifies this`state, counts.Values
      ensures Valid()
      ensures state == Next(old(state), if At(old(state), id, Refused) then Undo(id) else Release(id))
    {
      var _ := counts[id.user].Add(-1);
      GiveBackSorted(state, id);
      state := Next(state, if At(state, id, Refused) then Undo(id) else Release(id));
    }
  }

  lemma IncrementSorted(s: State, id: Id)
    requires Sorted(s)
    ensures Sorted(Next(s, Increment(id)))
    ensures At(s, id, Resolved) ==> id.user != ""
  {
  }

  lemma GiveBackSorted(s: State, id: Id)
    requires Sorted(s)
    ensures Sorted(Next(s, Undo(id))) && Sorted(Next(s, Release(id)))
    ensures At(s, id, Refused) || At(s, id, Serving) ==> id.user != ""
  {
  }
}
