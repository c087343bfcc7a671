/**
  The per-key token bucket of internal/ratelimit/ratelimit.go.

  `Tokens` replays one key's calls through the refill-and-spend recurrence of the code.
  `Credit` is the independent reading: what the refill law grants the window from call `i`
  to call `n`, minus the calls already admitted in it.  The main result is that the
  recurrence computes exactly the least credit over all windows.
  Times are reals (seconds) and `float64` is read as `real`.
*/
module RateLimit {
  import opened Wrappers

  datatype Config = Config(capacity: int, refill: real)

  datatype Level = Level(tokens: real, last: real)

  datatype Call = Call(key: string, at: real)

  function Min(a: real, b: real): real {
    if a <= b then a else b
  }

  /** What `elapsed` seconds of refill add. */
  function Gain(cfg: Config, elapsed: real): real {
    elapsed * cfg.refill
  }

  /** The tokens of a bucket after the refill at `now`; an absent bucket starts full. */
  function Refilled(cfg: Config, bucket: Option<Level>, now: real): real {
    var was := if bucket.None? then Level(cfg.capacity as real, now) else bucket.value;
    Min(cfg.capacity as real, was.tokens + Gain(cfg, now - was.last))
  }

  function Spent(tokens: real, now: real): Level {
    Level(if tokens >= 1.0 then tokens - 1.0 else tokens, now)
  }

  /** The bucket before call `n` of a key called at the times `ts`. */
  function Before(cfg: Config, ts: seq<real>, n: nat): Option<Level>
    requires n <= |ts|
    decreases n, 0
  {
    if n == 0 then None else Some(Spent(Tokens(cfg, ts, n - 1), ts[n - 1]))
  }

  /** The tokens offered to call `n`. */
  function Tokens(cfg: Config, ts: seq<real>, n: nat): real
    requires n < |ts|
    decreases n, 1
  {
    Refilled(cfg, Before(cfg, ts, n), ts[n])
  }

  /** How many of the calls in [i, n) were admitted. */
  function Admitted(cfg: Config, ts: seq<real>, i: nat, n: nat): nat
    requires i <= n <= |ts|
  {
    if i == n then 0
    else Admitted(cfg, ts, i, n - 1) + if Tokens(cfg, ts, n - 1) >= 1.0 then 1 else 0
  }

  /** What the window from call `i` to call `n` still has to give when call `n` arrives. */
  function Credit(cfg: Config, ts: seq<real>, i: nat, n: nat): real
    requires i <= n < |ts|
  {
    cfg.capacity as real + Gain(cfg, ts[n] - ts[i]) - Admitted(cfg, ts, i, n) as real
  }

  lemma GainAdds(cfg: Config, a: real, b: real)
    ensures Gain(cfg, a + b) == Gain(cfg, a) + Gain(cfg, b)
  {
  }

  lemma GainGrows(cfg: Config, a: real, b: real)
    requires cfg.refill >= 0.0 && a <= b
    ensures Gain(cfg, a) <= Gain(cfg, b) && (a >= 0.0 ==> Gain(cfg, a) >= 0.0)
  {
  }

  /** From call n - 1 to call n every older window's credit moves by the same amount. */
  lemma CreditStep(cfg: Config, ts: seq<real>, i: nat, n: nat)
    requires i < n < |ts|
    ensures Credit(cfg, ts, i, n)
         == Credit(cfg, ts, i, n - 1) + Gain(cfg, ts[n] - ts[n - 1])
            - if Tokens(cfg, ts, n - 1) >= 1.0 then 1.0 else 0.0
  {
    GainAdds(cfg, ts[n] - ts[n - 1], ts[n - 1] - ts[i]);
    assert ts[n] - ts[i] == ts[n] - ts[n - 1] + (ts[n - 1] - ts[i]);
  }

  lemma TokensStep(cfg: Config, ts: seq<real>, n: nat)
    requires 0 < n < |ts|
    ensures Tokens(cfg, ts, n)
         == Min(cfg.capacity as real,
                Tokens(cfg, ts, n - 1)
                + (Gain(cfg, ts[n] - ts[n - 1]) - if Tokens(cfg, ts, n - 1) >= 1.0 then 1.0 else 0.0))
  {
  }

  lemma FirstCallIsOfferedAll(cfg: Config, ts: seq<real>)
    requires ts != []
    ensures Tokens(cfg, ts, 0) == cfg.capacity as real
  {
    assert Gain(cfg, ts[0] - ts[0]) == 0.0;
  }

  /** Shifting every credit and adding the full one keeps "is the least credit". */
  lemma LeastShifted(full: real, least: real, shift: real, old': seq<real>, new': seq<real>)
    requires |new'| == |old'| + 1 && new'[|old'|] == full
    requires forall i | 0 <= i < |old'| :: new'[i] == old'[i] + shift && least <= old'[i]
    requires least in old'
    ensures forall i | 0 <= i < |new'| :: Min(full, least + shift) <= new'[i]
    ensures Min(full, least + shift) in new'
  {
    var j :| 0 <= j < |old'| && old'[j] == least;
    assert new'[j] in new' && new'[|old'|] in new';
  }

  /** The credits of all windows ending at call `n`. */
  ghost function Credits(cfg: Config, ts: seq<real>, n: nat): (cs: seq<real>)
    requires n < |ts|
    ensures |cs| == n + 1 && forall i | 0 <= i <= n :: cs[i] == Credit(cfg, ts, i, n)
  {
    seq(n + 1, i requires 0 <= i <= n => Credit(cfg, ts, i, n))
  }

  /** The code's recurrence computes the least credit over all windows. */
  lemma {:induction false} TokensAreLeastCredit(cfg: Config, ts: seq<real>, n: nat)
    requires n < |ts|
    ensures forall i | 0 <= i <= n :: Tokens(cfg, ts, n) <= Credits(cfg, ts, n)[i]
    ensures Tokens(cfg, ts, n) in Credits(cfg, ts, n)
  {
    if n == 0 {
      FirstCallIsOfferedAll(cfg, ts);
      assert Credits(cfg, ts, 0)[0] == cfg.capacity as real;
    } else {
      TokensAreLeastCredit(cfg, ts, n - 1);
      TokensStep(cfg, ts, n);
      var t := Tokens(cfg, ts, n - 1);
      var shift := Gain(cfg, ts[n] - ts[n - 1]) - if t >= 1.0 then 1.0 else 0.0;
      forall i | 0 <= i < n
        ensures Credits(cfg, ts, n)[i] == Credits(cfg, ts, n - 1)[i] + shift
      {
        CreditStep(cfg, ts, i, n);
      }
      assert Credit(cfg, ts, n, n) == cfg.capacity as real;
      LeastShifted(cfg.capacity as real, t, shift, Credits(cfg, ts, n - 1), Credits(cfg, ts, n));
    }
  }

  /** Every window ending at call `n` can pay `price`. */
  ghost predicate Payable(cfg: Config, ts: seq<real>, n: nat, price: real)
    requires n < |ts|
  {
    forall i | 0 <= i <= n :: Credit(cfg, ts, i, n) >= price
  }

  lemma {:induction false} AdmittedIffPayable(cfg: Config, ts: seq<real>, n: nat, price: real)
    requires n < |ts|
    ensures Tokens(cfg, ts, n) >= price <==> Payable(cfg, ts, n, price)
  {
    TokensAreLeastCredit(cfg, ts, n);
  }

  ghost predicate Monotone(ts: seq<real>) {
    forall i, j | 0 <= i <= j < |ts| :: ts[i] <= ts[j]
  }

  /** Any closed window of calls admits at most capacity + refill * length of them. */
  lemma {:induction false} WindowBound(cfg: Config, ts: seq<real>, i: nat, j: nat)
    requires i <= j < |ts| && Monotone(ts)
    requires cfg.capacity >= 0 && cfg.refill >= 0.0
    ensures Admitted(cfg, ts, i, j + 1) as real <= cfg.capacity as real + Gain(cfg, ts[j] - ts[i])
  {
    if Tokens(cfg, ts, j) >= 1.0 {
      AdmittedIffPayable(cfg, ts, j, 1.0);
      assert Credit(cfg, ts, i, j) >= 1.0;
    } else if i == j {
      assert Gain(cfg, ts[j] - ts[i]) == 0.0;
    } else {
      WindowBound(cfg, ts, i, j - 1);
      GainGrows(cfg, ts[j - 1] - ts[i], ts[j] - ts[i]);
    }
  }

  /** That is, at most capacity tokens and refill of them a second. */
  lemma {:induction false} WindowRate(cfg: Config, ts: seq<real>, i: nat, j: nat)
    requires i <= j < |ts| && Monotone(ts)
    requires cfg.capacity >= 0 && cfg.refill >= 0.0
    ensures Admitted(cfg, ts, i, j + 1) as real <= cfg.capacity as real + (ts[j] - ts[i]) * cfg.refill
  {
    WindowBound(cfg, ts, i, j);
  }

  /** In proportion to the configured window, what is refilled is in proportion to the configured maximum. */
  lemma {:induction false} GainInProportion(cfg: Config, max: int, window: real, elapsed: real)
    requires cfg.refill * window == max as real
    ensures Gain(cfg, elapsed) * window == max as real * elapsed
  {
    assert elapsed * cfg.refill * window == elapsed * (cfg.refill * window);
  }

  /** No stretch of calls as long as the configured window admits more than twice the configured maximum. */
  lemma {:induction false} TwiceTheMaximum(cfg: Config, max: int, window: real, ts: seq<real>, i: nat, j: nat)
    requires i <= j < |ts| && Monotone(ts)
    requires cfg.capacity == max && max >= 0 && window > 0.0 && cfg.refill * window == max as real
    requires ts[j] - ts[i] <= window
    ensures Admitted(cfg, ts, i, j + 1) <= 2 * max
  {
    RefillNotNegative(cfg.refill, window, max as real);
    WindowBound(cfg, ts, i, j);
    GainGrows(cfg, ts[j] - ts[i], window);
    GainInProportion(cfg, max, window, window);
    OnlyFactor(Gain(cfg, window), max as real, window);
  }

  lemma RefillNotNegative(refill: real, window: real, max: real)
    requires window > 0.0 && max >= 0.0 && refill * window == max
    ensures refill >= 0.0
  {
  }

  lemma OnlyFactor(a: real, b: real, c: real)
    requires c > 0.0 && a * c == b * c
    ensures a == b
  {
  }

  /** A bucket never leaves [0, capacity]. */
  lemma {:induction false} LevelInRange(cfg: Config, ts: seq<real>, n: nat)
    requires n < |ts| && Monotone(ts)
    requires cfg.capacity >= 0 && cfg.refill >= 0.0
    ensures 0.0 <= Tokens(cfg, ts, n) <= cfg.capacity as real
    ensures 0.0 <= Spent(Tokens(cfg, ts, n), ts[n]).tokens <= cfg.capacity as real
  {
    if n == 0 {
      FirstCallIsOfferedAll(cfg, ts);
    } else {
      LevelInRange(cfg, ts, n - 1);
      TokensStep(cfg, ts, n);
      GainGrows(cfg, 0.0, ts[n] - ts[n - 1]);
    }
  }

  /** A call that comes at least 1/refill after the key's previous call is never refused. */
  lemma {:induction false} SpacedCallAdmitted(cfg: Config, ts: seq<real>, n: nat)
    requires n < |ts| && Monotone(ts)
    requires cfg.capacity >= 1 && cfg.refill > 0.0
    requires n > 0 ==> Gain(cfg, ts[n] - ts[n - 1]) >= 1.0
    ensures Tokens(cfg, ts, n) >= 1.0
  {
    if n == 0 {
      FirstCallIsOfferedAll(cfg, ts);
    } else {
      TokensStep(cfg, ts, n);
      LevelInRange(cfg, ts, n - 1);
    }
  }

  /** Later calls do not change what an earlier call was offered. */
  lemma {:induction false} TokensOfPrefix(cfg: Config, ts: seq<real>, more: seq<real>, n: nat)
    requires n < |ts|
    ensures Tokens(cfg, ts + more, n) == Tokens(cfg, ts, n)
  {
    if n > 0 {
      TokensOfPrefix(cfg, ts, more, n - 1);
    }
  }

  /** One key's own calls, in order. */
  function Times(calls: seq<Call>, key: string): (ts: seq<real>)
  {
    if calls == [] then []
    else
      var last := calls[|calls| - 1];
      Times(calls[..|calls| - 1], key) + if last.key == key then [last.at] else []
  }

  lemma TimesSnoc(calls: seq<Call>, c: Call, key: string)
    ensures Times(calls + [c], key) == Times(calls, key) + if c.key == key then [c.at] else []
  {
    assert (calls + [c])[..|calls|] == calls;
  }

  class Bucket {
    var tokens: real
    var last: real

    constructor (tokens: real, last: real)
      ensures this.tokens == tokens && this.last == last
    {
      this.tokens := tokens;
      this.last := last;
    }

    /** Refill up to `now`, then spend one token if there is one. */
    method Draw(cfg: Config, now: real) returns (remaining: int, allowed: bool)
      modifies this
      ensures var offered := Refilled(cfg, Some(Level(old(tokens), old(last))), now);
              && Level(tokens, last) == Spent(offered, now)
              && allowed == (offered >= 1.0)
              && remaining == AnswerOf(offered)
    {
      var elapsed := now - last;
      assert elapsed * cfg.refill == Gain(cfg, elapsed);
      tokens := Min(cfg.capacity as real, tokens + Gain(cfg, elapsed));
      last := now;
      if tokens >= 1.0 {
        tokens := tokens - 1.0;
        return tokens.Floor, true;
      }
      return 0, false;
    }
  }

  class InMemoryLimiter {
    const capacity: int
    const refill: real
    var buckets: map<string, Bucket>
    ghost var levels: map<string, Level>  // the buckets' contents
    ghost var calls: seq<Call>  // every call so far, of every key

    function Cfg(): Config {
      Config(capacity, refill)
    }

    /** No two keys share a bucket, and each bucket is what its own key's calls make of a fresh one. */
    ghost predicate Valid()
      reads this, buckets.Values
    {
      && (forall k, l | k in buckets && l in buckets && k != l :: buckets[k] != buckets[l])
      && buckets.Keys == levels.Keys
      && (forall k | k in buckets :: Level(buckets[k].tokens, buckets[k].last) == levels[k])
      && Isolated(Cfg(), levels, calls)
    }

    constructor (maxRequests: int, window: real)
      requires window != 0.0
      ensures Valid() && calls == []
      ensures capacity == maxRequests && refill * window == maxRequests as real
      ensures Gain(Cfg(), window) == maxRequests as real
      ensures fresh(buckets.Values)
    {
      capacity := maxRequests;
      refill := maxRequests as real / window;
      buckets, levels := map[], map[];
      calls := [];
    }

    /**
      The decision and the remaining count depend on this key's calls only, and are given by
      the credits: a call is admitted iff it is payable, and `remaining` more would be payable
      at the same instant but not one more than that.
    */
    method Allow(key: string, now: real) returns (remaining: int, allowed: bool)
      requires Valid()
      modifies this, buckets.Values
      ensures Valid() && fresh(buckets.Values - old(buckets.Values))
      ensures calls == old(calls) + [Call(key, now)]
      ensures Times(calls, key) != [] && Decided(Cfg(), Times(calls, key), remaining, allowed)
    {
      ghost var offered := Refilled(Cfg(), Lookup(levels, key), now);
      ghost var levels', calls' := levels[key := Spent(offered, now)], calls + [Call(key, now)];
      CallDecided(Cfg(), levels, calls, key, now);
      FreshBucketIsFull(Cfg(), now);
      var b: Bucket;
      if key !in buckets {
        b := new Bucket(capacity as real, now);
        buckets := buckets[key := b];
      } else {
        b := buckets[key];
      }
      assert Refilled(Cfg(), Some(Level(b.tokens, b.last)), now) == offered;
      assert buckets.Values <= old(buckets.Values) + {b};
      remaining, allowed := b.Draw(Cfg(), now);
      levels, calls := levels', calls';
    }
  }

  /** What one more call does to the buckets, and how it is decided. */
  lemma CallDecided(cfg: Config, levels: map<string, Level>, calls: seq<Call>, key: string, now: real)
    requires Isolated(cfg, levels, calls)
    ensures var offered := Refilled(cfg, Lookup(levels, key), now);
            var calls' := calls + [Call(key, now)];
            && Isolated(cfg, levels[key := Spent(offered, now)], calls')
            && Times(calls', key) != []
            && Decided(cfg, Times(calls', key), AnswerOf(offered), offered >= 1.0)
  {
    var offered := Refilled(cfg, Lookup(levels, key), now);
    IsolatedStep(cfg, levels, calls, key, now);
    DecidedByTokens(cfg, Times(calls + [Call(key, now)], key), AnswerOf(offered), offered >= 1.0);
  }

  /** The count reported for a call that was offered `tokens`. */
  function AnswerOf(tokens: real): int {
    if tokens >= 1.0 then (tokens - 1.0).Floor else 0
  }

  /** Refilling a bucket that was filled this instant changes nothing. */
  lemma FreshBucketIsFull(cfg: Config, now: real)
    ensures Refilled(cfg, Some(Level(cfg.capacity as real, now)), now) == Refilled(cfg, None, now)
  {
  }

  /** The answer to the last call of `ts`, told by the credits alone. */
  ghost predicate Decided(cfg: Config, ts: seq<real>, remaining: int, allowed: bool)
    requires ts != []
  {
    && (allowed <==> Payable(cfg, ts, |ts| - 1, 1.0))
    && (allowed ==>
          && 0 <= remaining
          && Payable(cfg, ts, |ts| - 1, 1.0 + remaining as real)
          && !Payable(cfg, ts, |ts| - 1, 2.0 + remaining as real))
    && (!allowed ==> remaining == 0)
  }

  lemma DecidedByTokens(cfg: Config, ts: seq<real>, remaining: int, allowed: bool)
    requires ts != []
    requires allowed == (Tokens(cfg, ts, |ts| - 1) >= 1.0)
    requires remaining == AnswerOf(Tokens(cfg, ts, |ts| - 1))
    ensures Decided(cfg, ts, remaining, allowed)
  {
    AdmittedIffPayable(cfg, ts, |ts| - 1, 1.0);
    AdmittedIffPayable(cfg, ts, |ts| - 1, 1.0 + remaining as real);
    AdmittedIffPayable(cfg, ts, |ts| - 1, 2.0 + remaining as real);
  }

  /** A key's bucket after the calls `ts`. */
  ghost function Replayed(cfg: Config, ts: seq<real>): Option<Level> {
    Before(cfg, ts, |ts|)
  }

  lemma ReplayedSnoc(cfg: Config, ts: seq<real>, now: real)
    ensures Tokens(cfg, ts + [now], |ts|) == Refilled(cfg, Replayed(cfg, ts), now)
    ensures Replayed(cfg, ts + [now]) == Some(Spent(Refilled(cfg, Replayed(cfg, ts), now), now))
  {
    if ts != [] {
      TokensOfPrefix(cfg, ts, [now], |ts| - 1);
    }
    assert Before(cfg, ts + [now], |ts|) == Before(cfg, ts, |ts|);
  }

  /** A key has a bucket iff it was called, and the bucket depends on that key's calls only. */
  ghost predicate Isolated(cfg: Config, levels: map<string, Level>, calls: seq<Call>) {
    forall key :: IsolatedAt(cfg, levels, calls, key)
  }

  ghost predicate IsolatedAt(cfg: Config, levels: map<string, Level>, calls: seq<Call>, key: string) {
    Lookup(levels, key) == Replayed(cfg, Times(calls, key))
  }

  ghost function Lookup(levels: map<string, Level>, key: string): Option<Level> {
    if key in levels then Some(levels[key]) else None
  }

  /** One more call moves its own key's bucket as that key's history says, and no other. */
  lemma {:induction false} IsolatedStep(cfg: Config, levels: map<string, Level>, calls: seq<Call>, key: string, now: real)
    requires Isolated(cfg, levels, calls)
    ensures Times(calls + [Call(key, now)], key) == Times(calls, key) + [now]
    ensures Refilled(cfg, Lookup(levels, key), now)
         == Tokens(cfg, Times(calls, key) + [now], |Times(calls, key)|)
    ensures Isolated(cfg, levels[key := Spent(Refilled(cfg, Lookup(levels, key), now), now)],
                     calls + [Call(key, now)])
  {
    var ts := Times(calls, key);
    assert IsolatedAt(cfg, levels, calls, key);
    ReplayedSnoc(cfg, ts, now);
    var levels' := levels[key := Spent(Refilled(cfg, Lookup(levels, key), now), now)];
    forall k
      ensures IsolatedAt(cfg, levels', calls + [Call(key, now)], k)
    {
      TimesSnoc(calls, Call(key, now), k);
      assert IsolatedAt(cfg, levels, calls, k);
      if k != key {
        assert Times(calls, k) + [] == Times(calls, k);
      }
    }
    TimesSnoc(calls, Call(key, now), key);
  }
}
