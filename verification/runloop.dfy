/** The branch structure of `main`: render once, forever at an interval, or a
    fixed number of times, refuse `--count` without `--seconds`, or do nothing.
    A run is a trace of events. `Render(i)` gathers the `i`-th sample (counting
    from 0) and displays it; what it shows is `FrameAt(opts, sample, i)`, where
    `sample(i)` stands for the operating system's `i`-th reading. Printing a
    blank line and sleeping between renders is one `Pause` event. */
module RunLoop {
  import opened Machine
  import opened Flags
  import opened Units
  import opened Sampler
  import opened Render

  datatype Plan = Once | Forever | Repeat(count: nat) | CountWithoutSeconds | Idle

  /** Which branch of `main` runs for the given `--seconds` and `--count`. */
  function PlanOf(seconds: Int64, count: Int64): (p: Plan)
    ensures p == Once <==> seconds == 0 && count == 0
    ensures p == Forever <==> seconds > 0 && count == 0
    ensures p == CountWithoutSeconds <==> count > 0 && seconds == 0
    ensures p.Repeat? <==> count > 0 && seconds != 0
    ensures p.Repeat? ==> p.count == count
    ensures p == Idle <==> count < 0 || (seconds < 0 && count == 0)
  {
    if seconds == 0 && count == 0 then Once
    else if seconds > 0 && count == 0 then Forever
    else if count > 0 then
      if seconds == 0 then CountWithoutSeconds else Repeat(count)
    else Idle
  }

  datatype Event = Render(index: nat) | Pause(seconds: int) | LogError(message: string)

  /** How the run ends: with an exit status, or still looping when observation stops. */
  datatype Exit = Exited(code: nat) | Interrupted

  const CountRequiresSeconds: string := "--count requires --seconds"

  /** What `Render(i)` displays: the `i`-th reading, gathered and rendered in
      the unit the flags select once for the whole run. */
  function FrameAt(opts: Options, sample: nat -> RawStats, i: nat): (o: Output)
    ensures o.Json? <==> opts.json
    ensures o.Yaml? <==> !opts.json && opts.yaml
    ensures !o.Table? ==>
              DocumentShows(o.doc, GatherData(sample(i)), Divisor(GetBaseExponent(opts)),
                            GetBaseExponent(opts).prefix, opts.total)
    ensures !o.Table? ==> o.doc["descriptor"] == Text(GetBaseExponent(opts).prefix + "bytes")
    ensures o.Table? ==>
              TableShows(o.header, o.rows, GatherData(sample(i)), Divisor(GetBaseExponent(opts)), opts.total)
  {
    DisplayOutput(opts, GetBaseExponent(opts), GatherData(sample(i)))
  }

  /** Renders of successive samples at even positions, pauses at odd ones. */
  predicate Alternates(events: seq<Event>, seconds: int) {
    forall j :: 0 <= j < |events| ==>
      events[j] == if j % 2 == 0 then Render(j / 2) else Pause(seconds)
  }

  function CountRenders(events: seq<Event>): nat {
    if |events| == 0 then 0
    else CountRenders(events[..|events| - 1]) + (if events[|events| - 1].Render? then 1 else 0)
  }

  function CountPauses(events: seq<Event>): nat {
    if |events| == 0 then 0
    else CountPauses(events[..|events| - 1]) + (if events[|events| - 1].Pause? then 1 else 0)
  }

  /** An alternating trace of length `k` holds `ceil(k/2)` renders and `floor(k/2)` pauses. */
  lemma {:induction false} AlternationCounts(events: seq<Event>, seconds: int)
    requires Alternates(events, seconds)
    ensures CountRenders(events) == (|events| + 1) / 2
    ensures CountPauses(events) == |events| / 2
  {
    if |events| > 0 {
      var prefix := events[..|events| - 1];
      assert Alternates(prefix, seconds) by {
        forall j | 0 <= j < |prefix|
          ensures prefix[j] == if j % 2 == 0 then Render(j / 2) else Pause(seconds)
        {
          assert prefix[j] == events[j];
        }
      }
      AlternationCounts(prefix, seconds);
      var last := |events| - 1;
      assert events[last] == if last % 2 == 0 then Render(last / 2) else Pause(seconds);
    }
  }

  /** The `--seconds N --count C` loop: `count` renders, with a pause after
      every render but the last. */
  method RunCount(seconds: int, count: nat) returns (events: seq<Event>)
    ensures |events| == if count == 0 then 0 else 2 * count - 1
    ensures Alternates(events, seconds)
    ensures CountRenders(events) == count
    ensures CountPauses(events) == if count == 0 then 0 else count - 1
    ensures count > 0 ==> events[|events| - 1] == Render(count - 1)
  {
    events := [];
    var i := 1;
    while i < count + 1
      invariant 1 <= i <= count + 1
      invariant |events| == 2 * (i - 1) - (if i > count && count > 0 then 1 else 0)
      invariant Alternates(events, seconds)
    {
      events := events + [Render(i - 1)];
      if i != count {
        events := events + [Pause(seconds)];
      }
      i := i + 1;
    }
    AlternationCounts(events, seconds);
  }

  /** The `--seconds N` loop observed for `horizon` iterations: every render is
      followed by a pause, and the loop has no exit of its own. */
  method RunForever(seconds: int, horizon: nat) returns (events: seq<Event>)
    ensures |events| == 2 * horizon
    ensures Alternates(events, seconds)
    ensures CountRenders(events) == horizon && CountPauses(events) == horizon
  {
    events := [];
    var i := 0;
    while i < horizon
      invariant 0 <= i <= horizon
      invariant |events| == 2 * i
      invariant Alternates(events, seconds)
    {
      events := events + [Render(i), Pause(seconds)];
      i := i + 1;
    }
    AlternationCounts(events, seconds);
  }

  /** One run of the program after flag parsing, with the counted loop's bound
      computed as written (see `CountLoopIterationsAsWritten`); `horizon` is how many
      iterations of an endless loop are observed before the process is stopped
      from outside. */
  method Run(opts: Options, horizon: nat) returns (events: seq<Event>, status: Exit)
    ensures PlanOf(opts.seconds, opts.count) == Once ==>
              events == [Render(0)] && status == Exited(0)
    ensures PlanOf(opts.seconds, opts.count) == Forever ==>
              && Alternates(events, opts.seconds) && |events| == 2 * horizon
              && CountRenders(events) == horizon && status == Interrupted
    ensures PlanOf(opts.seconds, opts.count).Repeat? ==>
              && Alternates(events, opts.seconds)
              && CountRenders(events) == CountLoopIterationsAsWritten(opts.count)
              && (opts.count < INT64_MAX ==>
                    CountRenders(events) == opts.count && CountPauses(events) == opts.count - 1)
              && (|events| > 0 ==> events[|events| - 1].Render?)
              && status == Exited(0)
    ensures PlanOf(opts.seconds, opts.count) == CountWithoutSeconds ==>
              events == [LogError(CountRequiresSeconds)] && status == Exited(1)
    ensures PlanOf(opts.seconds, opts.count) == Idle ==> events == [] && status == Exited(0)
  {
    if opts.seconds == 0 && opts.count == 0 {
      events := [Render(0)];
      status := Exited(0);
    } else if opts.seconds > 0 && opts.count == 0 {
      events := RunForever(opts.seconds, horizon);
      status := Interrupted;
    } else if opts.count > 0 {
      if opts.seconds == 0 {
        events := [LogError(CountRequiresSeconds)];
        status := Exited(1);
      } else {
        events := RunCount(opts.seconds, CountLoopIterationsAsWritten(opts.count));
        status := Exited(0);
      }
    } else {
      events := [];
      status := Exited(0);
    }
  }

  /** The endless loop never stops on its own: observing it longer always
      extends what was seen before by one more render and pause. */
  lemma ForeverKeepsRendering(seconds: int, shorter: seq<Event>, longer: seq<Event>)
    requires Alternates(shorter, seconds) && Alternates(longer, seconds)
    requires |longer| == |shorter| + 2 && |shorter| % 2 == 0
    ensures longer == shorter + [Render(|shorter| / 2), Pause(seconds)]
  {
    var k := |shorter|;
    assert longer[k] == Render(k / 2);
    assert (k + 1) % 2 == 1;
  }

  // The loop bound as written: `for i := 1; i < opts.Count+1; i++` on a
  // 64-bit `int`, where `opts.Count+1` wraps for the largest count.

  /** How many times the counted loop's body runs as written. */
  function CountLoopIterationsAsWritten(count: Int64): (n: nat)
    ensures 0 < count < INT64_MAX ==> n == count
  {
    var bound := AddInt64(count, 1);
    if bound > 1 then bound - 1 else 0
  }

  /** For the largest accepted count, `opts.Count+1` wraps to the smallest
      `int`, so the loop renders nothing although `main` took the counted branch. */
  lemma CountBoundWrapsAtMaximum()
    ensures PlanOf(1, INT64_MAX) == Repeat(INT64_MAX)
    ensures CountLoopIterationsAsWritten(INT64_MAX) == 0
  {
  }
}
