/**
  Tailing a function's logs in polled windows (internal/handler/logs_proxy.go): the windows
  tile time, and a log line reaches the client at most once.

  Times are in nanoseconds.  `entry` says which line of the log a value is; it is history, and
  nothing looks at it.
*/
module LogWindows {
  import opened Wrappers

  const PRIMING := 30_000_000_000
  const LIMIT := 200

  datatype Value = Value(ns: string, line: string, entry: nat)
  datatype LokiStream = LokiStream(labels: map<string, string>, values: seq<Value>)
  datatype LogLine = LogLine(ts: int, line: string, level: string, entry: nat)

  /** A frame written to the client: a comment about an upstream error, or a line. */
  datatype Frame = Comment(error: string) | Log(line: LogLine)

  /** A tick of the clock and the answer to the query it makes. */
  datatype Tick = Tick(now: int, answer: Result<seq<LokiStream>, string>)

  datatype Window = Window(start: int, end: int)

  /** Whole milliseconds, rounded toward zero. */
  function Milliseconds(ns: int): (r: int)
    ensures ns >= 0 ==> r * 1_000_000 <= ns < r * 1_000_000 + 1_000_000
    ensures ns < 0 ==> r * 1_000_000 - 1_000_000 < ns <= r * 1_000_000
  {
    if ns >= 0 then ns / 1_000_000 else -(-ns / 1_000_000)
  }

  // ----- one answer, flattened -----

  function LevelOf(s: LokiStream): string {
    if "level" in s.labels then s.labels["level"] else ""
  }

  /** The lines of a stream whose timestamps parse. */
  function LinesOf(s: LokiStream, n: nat, parse: string -> Option<int>): seq<LogLine>
    requires n <= |s.values|
  {
    if n == 0 then []
    else
      var v := s.values[n - 1];
      LinesOf(s, n - 1, parse)
      + if parse(v.ns).None? then [] else [LogLine(Milliseconds(parse(v.ns).value), v.line, LevelOf(s), v.entry)]
  }

  function Lines(result: seq<LokiStream>, n: nat, parse: string -> Option<int>): seq<LogLine>
    requires n <= |result|
  {
    if n == 0 then [] else Lines(result, n - 1, parse) + LinesOf(result[n - 1], |result[n - 1].values|, parse)
  }

  method Flatten(result: seq<LokiStream>, parse: string -> Option<int>) returns (out: seq<LogLine>)
    ensures out == Lines(result, |result|, parse)
  {
    out := [];
    var i := 0;
    while i < |result|
      invariant 0 <= i <= |result|
      invariant out == Lines(result, i, parse)
    {
      var stream, j := result[i], 0;
      ghost var before := out;
      while j < |stream.values|
        invariant 0 <= j <= |stream.values|
        invariant out == before + LinesOf(stream, j, parse)
      {
        var v := stream.values[j];
        j := j + 1;
        var ns := parse(v.ns);
        if ns.None? {
          continue;
        }
        out := out + [LogLine(Milliseconds(ns.value), v.line,
                              if "level" in stream.labels then stream.labels["level"] else "", v.entry)];
      }
      i := i + 1;
    }
  }

  // ----- the polling loop -----

  function Logs(lines: seq<LogLine>, n: nat): seq<Frame>
    requires n <= |lines|
  {
    if n == 0 then [] else Logs(lines, n - 1) + [Log(lines[n - 1])]
  }

  function FramesFor(t: Tick, parse: string -> Option<int>): seq<Frame> {
    match t.answer
    case Err(error) => [Comment(error)]
    case Ok(result) => Logs(Lines(result, |result|, parse), |Lines(result, |result|, parse)|)
  }

  function Frames(ticks: seq<Tick>, n: nat, parse: string -> Option<int>): seq<Frame>
    requires n <= |ticks|
  {
    if n == 0 then [] else Frames(ticks, n - 1, parse) + FramesFor(ticks[n - 1], parse)
  }

  function Windows(begun: int, ticks: seq<Tick>, n: nat): (r: seq<Window>)
    requires n <= |ticks|
    ensures |r| == n
  {
    if n == 0 then []
    else Windows(begun, ticks, n - 1) + [Window(if n == 1 then begun - PRIMING else ticks[n - 2].now, ticks[n - 1].now)]
  }

  /** The windows follow one another without gap or overlap, from before the start to the last tick. */
  ghost predicate Tile(windows: seq<Window>, begun: int, ticks: seq<Tick>) {
    && |windows| == |ticks|
    && (|ticks| > 0 ==> windows[0].start == begun - PRIMING)
    && (forall i | 0 <= i < |windows| :: windows[i].end == ticks[i].now)
    && (forall i | 0 < i < |windows| :: windows[i].start == windows[i - 1].end)
  }

  lemma {:induction false} WindowsTile(begun: int, ticks: seq<Tick>, n: nat)
    requires n <= |ticks|
    ensures Tile(Windows(begun, ticks, n), begun, ticks[..n])
  {
    if n > 0 {
      WindowsTile(begun, ticks, n - 1);
      assert forall i | 0 <= i < n - 1 :: ticks[..n][i] == ticks[..n - 1][i];
    }
  }

  lemma AllWindowsTile(begun: int, ticks: seq<Tick>)
    ensures Tile(Windows(begun, ticks, |ticks|), begun, ticks)
  {
    WindowsTile(begun, ticks, |ticks|);
    assert ticks[..|ticks|] == ticks;
  }

  method WriteLines(frames: seq<Frame>, lines: seq<LogLine>) returns (written: seq<Frame>)
    ensures written == frames + Logs(lines, |lines|)
  {
    written := frames;
    var i := 0;
    while i < |lines|
      invariant 0 <= i <= |lines|
      invariant written == frames + Logs(lines, i)
    {
      written := written + [Log(lines[i])];
      i := i + 1;
    }
  }

  /** `windows` records the intervals queried. */
  method Stream(begun: int, ticks: seq<Tick>, parse: string -> Option<int>)
    returns (frames: seq<Frame>, windows: seq<Window>)
    ensures Tile(windows, begun, ticks)
    ensures frames == Frames(ticks, |ticks|, parse)
  {
    frames, windows := [], [];
    var since := begun - 30_000_000_000;
    var n := 0;
    while n < |ticks|
      invariant 0 <= n <= |ticks|
      invariant windows == Windows(begun, ticks, n)
      invariant since == if n == 0 then begun - PRIMING else ticks[n - 1].now
      invariant frames == Frames(ticks, n, parse)
    {
      var now, answer := ticks[n].now, ticks[n].answer;
      windows := windows + [Window(since, now)];
      n := n + 1;
      if answer.Err? {
        frames := frames + [Comment(answer.error)];
        since := now;
        continue;
      }
      var lines := Flatten(answer.value, parse);
      frames := WriteLines(frames, lines);
      since := now;
    }
    AllWindowsTile(begun, ticks);
  }

  // ----- flattening keeps order -----

  predicate Parses(s: LokiStream, j: nat, parse: string -> Option<int>) {
    j < |s.values| && parse(s.values[j].ns).Some?
  }

  function LineAt(s: LokiStream, j: nat, parse: string -> Option<int>): LogLine
    requires Parses(s, j, parse)
  {
    LogLine(Milliseconds(parse(s.values[j].ns).value), s.values[j].line, LevelOf(s), s.values[j].entry)
  }

  predicate Before(a: (nat, nat), b: (nat, nat)) {
    a.0 < b.0 || (a.0 == b.0 && a.1 < b.1)
  }

  predicate Parsable(result: seq<LokiStream>, p: (nat, nat), parse: string -> Option<int>) {
    p.0 < |result| && Parses(result[p.0], p.1, parse)
  }

  /** `at` says where each line comes from: every parsable value once, streams and values in order. */
  ghost predicate ComeFrom(lines: seq<LogLine>, at: seq<(nat, nat)>, result: seq<LokiStream>, parse: string -> Option<int>) {
    && |at| == |lines|
    && (forall k | 0 <= k < |at| ::
          Parsable(result, at[k], parse) && lines[k] == LineAt(result[at[k].0], at[k].1, parse))
    && (forall k, l | 0 <= k < l < |at| :: Before(at[k], at[l]))
  }

  /** Every parsable value of the first n streams, and of the first m values of the next, is among `at`. */
  ghost predicate Covers(at: seq<(nat, nat)>, result: seq<LokiStream>, n: nat, m: nat, parse: string -> Option<int>) {
    forall p | Parsable(result, p, parse) :: p in at <==> Before(p, (n, m))
  }

  lemma {:induction false} StreamInOrder(result: seq<LokiStream>, n: nat, m: nat, parse: string -> Option<int>, at: seq<(nat, nat)>)
    returns (at': seq<(nat, nat)>)
    requires n < |result| && m <= |result[n].values|
    requires ComeFrom(Lines(result, n, parse), at, result, parse) && Covers(at, result, n, 0, parse)
    ensures ComeFrom(Lines(result, n, parse) + LinesOf(result[n], m, parse), at', result, parse)
    ensures Covers(at', result, n, m, parse)
  {
    if m == 0 {
      at' := at;
      assert Lines(result, n, parse) + [] == Lines(result, n, parse);
    } else {
      var before := StreamInOrder(result, n, m - 1, parse, at);
      var lines := Lines(result, n, parse) + LinesOf(result[n], m - 1, parse);
      if Parses(result[n], m - 1, parse) {
        at' := before + [(n, m - 1)];
        forall k | 0 <= k < |before|
          ensures Before(before[k], (n, m - 1))
        {
          assert Parsable(result, before[k], parse) && before[k] in before;
        }
        assert Lines(result, n, parse) + LinesOf(result[n], m, parse) == lines + [LineAt(result[n], m - 1, parse)];
      } else {
        at' := before;
        assert LinesOf(result[n], m, parse) == LinesOf(result[n], m - 1, parse);
      }
    }
  }

  /** The lines of an answer are its parsable values, each once, in the order of streams and of values. */
  lemma {:induction false} FlattenedInOrder(result: seq<LokiStream>, n: nat, parse: string -> Option<int>)
    returns (at: seq<(nat, nat)>)
    requires n <= |result|
    ensures ComeFrom(Lines(result, n, parse), at, result, parse) && Covers(at, result, n, 0, parse)
  {
    if n == 0 {
      at := [];
    } else {
      var before := FlattenedInOrder(result, n - 1, parse);
      at := StreamInOrder(result, n - 1, |result[n - 1].values|, parse, before);
    }
  }

  // ----- a line of the log is shown at most once -----

  /** A line of the log: when it was written, and its timestamp as text. */
  datatype Entry = Entry(time: int, ns: string)

  predicate Inside(w: Window, time: int) { w.start <= time < w.end }

  /** Some value of the answer is line e. */
  ghost predicate Present(t: Tick, e: nat) {
    t.answer.Ok? && exists p: (nat, nat) :: Is(t.answer.value, p, e)
  }

  ghost predicate Is(result: seq<LokiStream>, p: (nat, nat), e: nat) {
    p.0 < |result| && p.1 < |result[p.0].values| && result[p.0].values[p.1].entry == e
  }

  /** The answer holds lines of the log from its own half-open window, none of them twice. */
  ghost predicate Faithful(t: Tick, w: Window, log: seq<Entry>) {
    t.answer.Ok? ==>
      && (forall p: (nat, nat), e: nat | Is(t.answer.value, p, e) ::
            e < |log| && Inside(w, log[e].time) && t.answer.value[p.0].values[p.1].ns == log[e].ns)
      && (forall p: (nat, nat), p': (nat, nat), e: nat | Is(t.answer.value, p, e) && Is(t.answer.value, p', e) :: p == p')
  }

  /** Nothing is missing from an answer whose window holds no more lines than the limit. */
  ghost predicate Complete(t: Tick, w: Window, log: seq<Entry>) {
    t.answer.Ok? && |Held(w, log)| <= LIMIT ==> forall e | e in Held(w, log) :: Present(t, e)
  }

  ghost function Held(w: Window, log: seq<Entry>): set<nat> {
    set e: nat | 0 <= e < |log| && Inside(w, log[e].time)
  }

  ghost predicate AnsweredAt(begun: int, ticks: seq<Tick>, log: seq<Entry>, i: nat)
    requires i < |ticks|
  {
    Faithful(ticks[i], Windows(begun, ticks, |ticks|)[i], log) && Complete(ticks[i], Windows(begun, ticks, |ticks|)[i], log)
  }

  ghost predicate Answered(begun: int, ticks: seq<Tick>, log: seq<Entry>) {
    forall i | 0 <= i < |ticks| :: AnsweredAt(begun, ticks, log, i)
  }

  /** The clock does not go back. */
  ghost predicate Ticking(begun: int, ticks: seq<Tick>) {
    && (forall i | 0 <= i < |ticks| :: begun <= ticks[i].now)
    && (forall i, j | 0 <= i <= j < |ticks| :: ticks[i].now <= ticks[j].now)
  }

  predicate ShowsLine(f: Frame, e: nat) { f.Log? && f.line.entry == e }

  /** How many of the first n frames show line e. */
  function CountUpTo(frames: seq<Frame>, n: nat, e: nat): nat
    requires n <= |frames|
  {
    if n == 0 then 0 else CountUpTo(frames, n - 1, e) + if ShowsLine(frames[n - 1], e) then 1 else 0
  }

  function Count(frames: seq<Frame>, e: nat): nat { CountUpTo(frames, |frames|, e) }

  lemma {:induction false} CountPrefix(a: seq<Frame>, b: seq<Frame>, n: nat, e: nat)
    requires n <= |a| && a <= b
    ensures CountUpTo(b, n, e) == CountUpTo(a, n, e)
    decreases n
  {
    if n > 0 {
      CountPrefix(a, b, n - 1, e);
    }
  }

  lemma {:induction false} CountSuffix(a: seq<Frame>, b: seq<Frame>, n: nat, e: nat)
    requires n <= |b|
    ensures CountUpTo(a + b, |a| + n, e) == Count(a, e) + CountUpTo(b, n, e)
    decreases n
  {
    if n == 0 {
      CountPrefix(a, a + b, |a|, e);
    } else {
      CountSuffix(a, b, n - 1, e);
      assert (a + b)[|a| + n - 1] == b[n - 1];
    }
  }

  ghost predicate DistinctEntries(lines: seq<LogLine>) {
    forall i, j | 0 <= i < j < |lines| :: lines[i].entry != lines[j].entry
  }

  ghost predicate Among(lines: seq<LogLine>, n: nat, e: nat)
    requires n <= |lines|
  {
    exists i | 0 <= i < n :: lines[i].entry == e
  }

  lemma {:induction false} LogsAt(lines: seq<LogLine>, n: nat)
    requires n <= |lines|
    ensures |Logs(lines, n)| == n && forall i | 0 <= i < n :: Logs(lines, n)[i] == Log(lines[i])
    decreases n
  {
    if n > 0 {
      LogsAt(lines, n - 1);
    }
  }

  lemma {:induction false} CountLogs(lines: seq<LogLine>, n: nat, e: nat)
    requires n <= |lines| && DistinctEntries(lines) && |Logs(lines, |lines|)| == |lines|
    ensures CountUpTo(Logs(lines, |lines|), n, e) == if Among(lines, n, e) then 1 else 0
    decreases n
  {
    LogsAt(lines, |lines|);
    if n > 0 {
      CountLogs(lines, n - 1, e);
      assert Among(lines, n, e) <==> Among(lines, n - 1, e) || lines[n - 1].entry == e;
    }
  }

  /** One tick shows a line once if its answer holds it and its timestamp parses, and else not at all. */
  lemma CountTick(t: Tick, w: Window, log: seq<Entry>, parse: string -> Option<int>, e: nat)
    requires Faithful(t, w, log) && e < |log|
    ensures Count(FramesFor(t, parse), e) == if Present(t, e) && parse(log[e].ns).Some? then 1 else 0
  {
    match t.answer
    case Err(error) =>
      var frames := FramesFor(t, parse);
      assert !ShowsLine(frames[0], e) && CountUpTo(frames, 0, e) == 0;
    case Ok(result) =>
      var lines := Lines(result, |result|, parse);
      var at := FlattenedInOrder(result, |result|, parse);
      forall k | 0 <= k < |lines|
        ensures Is(result, at[k], lines[k].entry)
      {
      }
      LogsAt(lines, |lines|);
      CountLogs(lines, |lines|, e);
      if Present(t, e) && parse(log[e].ns).Some? {
        var p: (nat, nat) :| Is(result, p, e);
        assert Parsable(result, p, parse) && p in at;
        var k :| 0 <= k < |at| && at[k] == p;
        assert lines[k].entry == e;
      }
      if Among(lines, |lines|, e) {
        var k :| 0 <= k < |lines| && lines[k].entry == e;
        assert Is(result, at[k], e);
      }
  }

  ghost predicate Shows(begun: int, ticks: seq<Tick>, i: nat, log: seq<Entry>, parse: string -> Option<int>, e: nat)
    requires i < |ticks| && e < |log|
  {
    Inside(Windows(begun, ticks, |ticks|)[i], log[e].time) && Present(ticks[i], e) && parse(log[e].ns).Some?
  }

  /** The windows up to tick n are the first n of all of them. */
  lemma {:induction false} WindowAt(begun: int, ticks: seq<Tick>, n: nat, i: nat)
    requires i < n <= |ticks|
    ensures Windows(begun, ticks, n)[i] == Window(if i == 0 then begun - PRIMING else ticks[i - 1].now, ticks[i].now)
  {
    if i < n - 1 {
      WindowAt(begun, ticks, n - 1, i);
    }
  }

  /** No instant is in two windows. */
  lemma {:induction false} WindowsDisjoint(begun: int, ticks: seq<Tick>, i: nat, j: nat, time: int)
    requires Ticking(begun, ticks) && i < j < |ticks|
    ensures !(Inside(Windows(begun, ticks, |ticks|)[i], time) && Inside(Windows(begun, ticks, |ticks|)[j], time))
  {
    WindowAt(begun, ticks, |ticks|, i);
    WindowAt(begun, ticks, |ticks|, j);
    assert ticks[i].now <= ticks[j - 1].now;
  }

  /** Every instant from thirty seconds before the start until the last tick is in a window. */
  lemma {:induction false} WindowsCover(begun: int, ticks: seq<Tick>, n: nat, time: int) returns (i: nat)
    requires n < |ticks| && begun - PRIMING <= time < ticks[n].now
    ensures i <= n && Inside(Windows(begun, ticks, |ticks|)[i], time)
  {
    WindowAt(begun, ticks, |ticks|, n);
    if n == 0 || ticks[n - 1].now <= time {
      i := n;
    } else {
      i := WindowsCover(begun, ticks, n - 1, time);
    }
  }

  ghost predicate ShownBefore(begun: int, ticks: seq<Tick>, n: nat, log: seq<Entry>, parse: string -> Option<int>, e: nat)
    requires n <= |ticks| && e < |log|
  {
    exists i | 0 <= i < n :: Shows(begun, ticks, i, log, parse, e)
  }

  lemma ShownNext(begun: int, ticks: seq<Tick>, n: nat, log: seq<Entry>, parse: string -> Option<int>, e: nat)
    requires n < |ticks| && e < |log| && Ticking(begun, ticks)
    ensures ShownBefore(begun, ticks, n + 1, log, parse, e)
       <==> ShownBefore(begun, ticks, n, log, parse, e) || Shows(begun, ticks, n, log, parse, e)
    ensures Shows(begun, ticks, n, log, parse, e) ==> !ShownBefore(begun, ticks, n, log, parse, e)
  {
    if Shows(begun, ticks, n, log, parse, e) {
      forall i | 0 <= i < n
        ensures !Shows(begun, ticks, i, log, parse, e)
      {
        WindowsDisjoint(begun, ticks, i, n, log[e].time);
      }
    }
  }

  /** How often each tick shows line e, added up. */
  ghost function TimesShown(begun: int, ticks: seq<Tick>, n: nat, log: seq<Entry>, parse: string -> Option<int>, e: nat): nat
    requires n <= |ticks| && e < |log|
  {
    if n == 0 then 0
    else TimesShown(begun, ticks, n - 1, log, parse, e) + if Shows(begun, ticks, n - 1, log, parse, e) then 1 else 0
  }

  lemma ShownByTick(begun: int, ticks: seq<Tick>, n: nat, log: seq<Entry>, parse: string -> Option<int>, e: nat)
    requires n < |ticks| && e < |log| && Answered(begun, ticks, log)
    ensures Count(FramesFor(ticks[n], parse), e) == if Shows(begun, ticks, n, log, parse, e) then 1 else 0
  {
    var w := Windows(begun, ticks, |ticks|)[n];
    assert AnsweredAt(begun, ticks, log, n);
    CountTick(ticks[n], w, log, parse, e);
    if Present(ticks[n], e) {
      var p: (nat, nat) :| Is(ticks[n].answer.value, p, e);
      assert Inside(w, log[e].time);
    }
  }

  lemma {:induction false} CountFrames(begun: int, ticks: seq<Tick>, n: nat, log: seq<Entry>,
                                       parse: string -> Option<int>, e: nat)
    requires n <= |ticks| && e < |log| && Answered(begun, ticks, log)
    ensures Count(Frames(ticks, n, parse), e) == TimesShown(begun, ticks, n, log, parse, e)
    decreases n
  {
    if n > 0 {
      CountFrames(begun, ticks, n - 1, log, parse, e);
      ShownByTick(begun, ticks, n - 1, log, parse, e);
      var before, added := Frames(ticks, n - 1, parse), FramesFor(ticks[n - 1], parse);
      CountSuffix(before, added, |added|, e);
    }
  }

  lemma {:induction false} ShownAtMostOnce(begun: int, ticks: seq<Tick>, n: nat, log: seq<Entry>,
                                           parse: string -> Option<int>, e: nat)
    requires n <= |ticks| && e < |log| && Ticking(begun, ticks)
    ensures TimesShown(begun, ticks, n, log, parse, e) == if ShownBefore(begun, ticks, n, log, parse, e) then 1 else 0
    decreases n
  {
    if n > 0 {
      ShownAtMostOnce(begun, ticks, n - 1, log, parse, e);
      ShownNext(begun, ticks, n - 1, log, parse, e);
    }
  }

  /**
    Whatever the ticks and errors: a line is shown at most once, and once exactly when the query
    of its window was answered with the line present and its timestamp parses.
  */
  lemma {:induction false} ShownOnceIff(begun: int, ticks: seq<Tick>, log: seq<Entry>, parse: string -> Option<int>, e: nat)
    requires e < |log| && Ticking(begun, ticks) && Answered(begun, ticks, log)
    ensures Count(Frames(ticks, |ticks|, parse), e) <= 1
    ensures Count(Frames(ticks, |ticks|, parse), e) == 1
       <==> exists i | 0 <= i < |ticks| :: Shows(begun, ticks, i, log, parse, e)
  {
    CountFrames(begun, ticks, |ticks|, log, parse, e);
    ShownAtMostOnce(begun, ticks, |ticks|, log, parse, e);
  }

  /** A line in a window that was answered and not too full is shown. */
  lemma {:induction false} ShownUnderLimit(begun: int, ticks: seq<Tick>, log: seq<Entry>,
                                           parse: string -> Option<int>, e: nat, i: nat)
    requires e < |log| && i < |ticks| && Ticking(begun, ticks) && Answered(begun, ticks, log)
    requires var w := Windows(begun, ticks, |ticks|)[i];
             Inside(w, log[e].time) && ticks[i].answer.Ok? && |Held(w, log)| <= 200 && parse(log[e].ns).Some?
    ensures Count(Frames(ticks, |ticks|, parse), e) == 1
  {
    var w := Windows(begun, ticks, |ticks|)[i];
    assert e in Held(w, log);
    assert AnsweredAt(begun, ticks, log, i);
    assert Shows(begun, ticks, i, log, parse, e);
    ShownOnceIff(begun, ticks, log, parse, e);
  }

  /** A line whose window's query fails is never shown: the next window starts after it. */
  lemma {:induction false} LostWithItsWindow(begun: int, ticks: seq<Tick>, log: seq<Entry>,
                                             parse: string -> Option<int>, e: nat, i: nat)
    requires e < |log| && i < |ticks| && Ticking(begun, ticks) && Answered(begun, ticks, log)
    requires Inside(Windows(begun, ticks, |ticks|)[i], log[e].time) && ticks[i].answer.Err?
    ensures Count(Frames(ticks, |ticks|, parse), e) == 0
  {
    forall j | 0 <= j < |ticks|
      ensures !Shows(begun, ticks, j, log, parse, e)
    {
      if j < i {
        WindowsDisjoint(begun, ticks, j, i, log[e].time);
      } else if i < j {
        WindowsDisjoint(begun, ticks, i, j, log[e].time);
      }
    }
    ShownOnceIff(begun, ticks, log, parse, e);
  }
}
