/** What the sampling loop of src/main.rs guarantees. The loop is stated on
    `Ticks`, for any readings and memory results, and `RunUpTo` is `Ticks` of
    what the collectors make of an oracle: the series are the successes in
    tick order, the CPU baseline is the last good reading, the events come
    three to a tick with the sleep left out after the last one, and what one
    collector sees cannot change the other's series. */
module SamplingProperties {
  import opened Wrappers
  import opened Cpu
  import Memory
  import opened Mermaid
  import opened Markdown
  import opened Sampling

  // ---------------------------------------------------------------------------
  // Reference definitions of the two series

  /** The successful memory samples of the first `n` ticks, in order. */
  function MemorySamples(results: MemoryResults, n: nat): seq<Memory.MemoryStats> {
    if n == 0 then []
    else MemorySamples(results, n - 1) + (if results(n - 1).Ok? then [results(n - 1).value] else [])
  }

  /** The last reading of the first `n` ticks that parsed, if any. */
  function LastReading(readings: CpuReadings, n: nat): Option<CpuTime> {
    if n == 0 then None
    else match readings(n - 1)
      case Ok(current) => Some(current)
      case Err(_) => LastReading(readings, n - 1)
  }

  /** The CPU samples of the first `n` ticks: one per reading that parsed,
      measured against the last reading before it that parsed. */
  function CpuSamples(readings: CpuReadings, clock: nat -> nat, n: nat): seq<CpuStats> {
    if n == 0 then []
    else CpuSamples(readings, clock, n - 1) + CpuSampleAt(readings, clock, n - 1)
  }

  /** What tick `i` adds to the CPU series: its sample against the last good
      reading before it, or nothing when its reading failed. */
  function CpuSampleAt(readings: CpuReadings, clock: nat -> nat, i: nat): seq<CpuStats> {
    match readings(i)
    case Ok(current) => [Sample(LastReading(readings, i), current, clock(i))]
    case Err(_) => []
  }

  // ---------------------------------------------------------------------------
  // The loop computes the reference series

  /** The memory series holds exactly the successful memory samples, in tick
      order, whatever the CPU readings and the settings. */
  lemma {:induction false} MemorySeries(readings: CpuReadings, clock: nat -> nat, results: MemoryResults,
                                        n: nat, iterations: int, interval: nat)
    ensures Ticks(readings, clock, results, n, iterations, interval).memoryData == MemorySamples(results, n)
  {
    if n > 0 {
      MemorySeries(readings, clock, results, n - 1, iterations, interval);
    }
  }

  /** The CPU series holds one sample per good reading, each against the
      previous good reading, and the collector's baseline is the last good
      reading. */
  lemma {:induction false} CpuSeries(readings: CpuReadings, clock: nat -> nat, results: MemoryResults,
                                     n: nat, iterations: int, interval: nat)
    ensures Ticks(readings, clock, results, n, iterations, interval).cpuData == CpuSamples(readings, clock, n)
    ensures Ticks(readings, clock, results, n, iterations, interval).baseline == LastReading(readings, n)
  {
    if n > 0 {
      CpuSeries(readings, clock, results, n - 1, iterations, interval);
    }
  }

  /** A tick adds at most one sample to each series; a series has one sample
      per tick exactly when no tick failed. */
  lemma {:induction false} MemorySamplesCount(results: MemoryResults, n: nat)
    ensures |MemorySamples(results, n)| <= n
    ensures |MemorySamples(results, n)| == n <==> forall i :: 0 <= i < n ==> results(i).Ok?
  {
    if n > 0 {
      MemorySamplesCount(results, n - 1);
      if results(n - 1).Err? {
        assert !(forall i :: 0 <= i < n ==> results(i).Ok?);
      }
    }
  }

  lemma {:induction false} CpuSamplesCount(readings: CpuReadings, clock: nat -> nat, n: nat)
    ensures |CpuSamples(readings, clock, n)| <= n
    ensures |CpuSamples(readings, clock, n)| == n <==> forall i :: 0 <= i < n ==> readings(i).Ok?
  {
    if n > 0 {
      CpuSamplesCount(readings, clock, n - 1);
      if readings(n - 1).Err? {
        assert !(forall i :: 0 <= i < n ==> readings(i).Ok?);
      }
    }
  }

  /** Cold start: until a reading parses there is neither a baseline nor a
      sample, and the first CPU sample of a run shows zero load. */
  lemma {:induction false} FirstCpuSampleIdle(readings: CpuReadings, clock: nat -> nat, n: nat)
    ensures LastReading(readings, n).None? <==> CpuSamples(readings, clock, n) == []
    ensures CpuSamples(readings, clock, n) != [] ==>
      var s := CpuSamples(readings, clock, n)[0]; s.totalLoad == 0.0 && s.userLoad == 0.0 && s.systemLoad == 0.0
  {
    if n > 0 {
      FirstCpuSampleIdle(readings, clock, n - 1);
      var before := CpuSamples(readings, clock, n - 1);
      if before != [] {
        assert CpuSamples(readings, clock, n)[0] == before[0];
      }
    }
  }

  /** The loop's series on an oracle: at most one sample a tick, one every
      tick exactly when every read succeeded (every /proc/stat read parsed,
      every memory collect returned a sample); and the first CPU sample
      shows zero load. */
  lemma SeriesOfRun(oracle: Oracle, n: nat, iterations: int, interval: nat)
    ensures var run := RunUpTo(oracle, n, iterations, interval);
      var readings, results := ParsedReadings(oracle), MemoryResultsOf(oracle);
      && |run.cpuData| <= n && |run.memoryData| <= n
      && (|run.cpuData| == n <==> forall i :: 0 <= i < n ==> readings(i).Ok?)
      && (|run.memoryData| == n <==> forall i :: 0 <= i < n ==> results(i).Ok?)
      && (run.cpuData != [] ==>
            run.cpuData[0].totalLoad == 0.0 && run.cpuData[0].userLoad == 0.0 && run.cpuData[0].systemLoad == 0.0)
  {
    var readings, clock, results := ParsedReadings(oracle), CpuClock(oracle), MemoryResultsOf(oracle);
    CpuSeries(readings, clock, results, n, iterations, interval);
    MemorySeries(readings, clock, results, n, iterations, interval);
    CpuSamplesCount(readings, clock, n);
    MemorySamplesCount(results, n);
    FirstCpuSampleIdle(readings, clock, n);
  }

  // ---------------------------------------------------------------------------
  // Independence

  /** The CPU collector sees the same timestamps and reads in both oracles. */
  predicate SameCpuInputs(a: Oracle, b: Oracle, n: nat) {
    forall i :: 0 <= i < n ==> a(i).cpuNow == b(i).cpuNow && a(i).cpuRead == b(i).cpuRead
  }

  /** The memory collector sees the same clocks and reads in both oracles. */
  predicate SameMemoryInputs(a: Oracle, b: Oracle, n: nat) {
    forall i :: 0 <= i < n ==> a(i).memoryClock == b(i).memoryClock && a(i).memoryRead == b(i).memoryRead
  }

  lemma {:induction false} CpuInputsDecide(r: CpuReadings, r': CpuReadings, clock: nat -> nat, clock': nat -> nat, n: nat)
    requires forall i :: 0 <= i < n ==> r(i) == r'(i) && clock(i) == clock'(i)
    ensures CpuSamples(r, clock, n) == CpuSamples(r', clock', n) && LastReading(r, n) == LastReading(r', n)
  {
    if n > 0 {
      CpuInputsDecide(r, r', clock, clock', n - 1);
    }
  }

  lemma {:induction false} MemoryInputsDecide(results: MemoryResults, results': MemoryResults, n: nat)
    requires forall i :: 0 <= i < n ==> results(i) == results'(i)
    ensures MemorySamples(results, n) == MemorySamples(results', n)
  {
    if n > 0 {
      MemoryInputsDecide(results, results', n - 1);
    }
  }

  /** The CPU series depends on nothing but the CPU collector's inputs, and
      the memory series on nothing but the memory collector's: not on the
      other collector, not on the iteration count, not on the interval. */
  lemma SeriesIndependent(a: Oracle, b: Oracle, n: nat, iterations: int, interval: nat, iterations': int, interval': nat)
    ensures SameCpuInputs(a, b, n) ==>
      RunUpTo(a, n, iterations, interval).cpuData == RunUpTo(b, n, iterations', interval').cpuData
    ensures SameMemoryInputs(a, b, n) ==>
      RunUpTo(a, n, iterations, interval).memoryData == RunUpTo(b, n, iterations', interval').memoryData
  {
    CpuSeries(ParsedReadings(a), CpuClock(a), MemoryResultsOf(a), n, iterations, interval);
    CpuSeries(ParsedReadings(b), CpuClock(b), MemoryResultsOf(b), n, iterations', interval');
    MemorySeries(ParsedReadings(a), CpuClock(a), MemoryResultsOf(a), n, iterations, interval);
    MemorySeries(ParsedReadings(b), CpuClock(b), MemoryResultsOf(b), n, iterations', interval');
    if SameCpuInputs(a, b, n) {
      CpuInputsDecide(ParsedReadings(a), ParsedReadings(b), CpuClock(a), CpuClock(b), n);
    }
    if SameMemoryInputs(a, b, n) {
      MemoryInputsDecide(MemoryResultsOf(a), MemoryResultsOf(b), n);
    }
  }

  // ---------------------------------------------------------------------------
  // One tick

  /** A tick keeps both series as they were, adding at most one sample to each. */
  lemma TickSeries(run: Run, reading: Result<CpuTime, CpuError>, now: nat,
                   memory: Result<Memory.MemoryStats, Memory.MemoryError>, i: nat, iterations: int, interval: nat)
    ensures var next := TickRun(run, reading, now, memory, i, iterations, interval);
      && run.cpuData <= next.cpuData && |next.cpuData| <= |run.cpuData| + 1
      && run.memoryData <= next.memoryData && |next.memoryData| <= |run.memoryData| + 1
  {
  }

  /** The events of one tick: a CPU event, the memory result, then one sleep
      of `interval` seconds unless it is the last index. */
  lemma TickEvents(run: Run, reading: Result<CpuTime, CpuError>, now: nat,
                   memory: Result<Memory.MemoryStats, Memory.MemoryError>, i: nat, iterations: int, interval: nat)
      returns (added: seq<Event>)
    ensures TickRun(run, reading, now, memory, i, iterations, interval).events == run.events + added
    ensures |added| == if i < iterations - 1 then 3 else 2
    ensures IsCpuEvent(added[0]) && added[1] == MemoryEvent(memory)
    ensures i < iterations - 1 ==> added[2] == Slept(interval)
    ensures Sleeps(added) == if i < iterations - 1 then [interval] else []
  {
    var c := CpuEvent(Advance(run.baseline, now, reading).result);
    var m := MemoryEvent(memory);
    var sleep := if i < iterations - 1 then [Slept(interval)] else [];
    added := [c, m] + sleep;
    assert run.events + [c, m] + sleep == run.events + added;
    SleepsOne(c);
    SleepsOne(m);
    SleepsAppend([c], [m]);
    assert [c] + [m] == [c, m];
    if sleep != [] {
      SleepsOne(Slept(interval));
    }
    SleepsAppend([c, m], sleep);
  }

  // ---------------------------------------------------------------------------
  // Append only

  /** The series and the events only ever grow: each tick appends. */
  lemma {:induction false} RunGrows(readings: CpuReadings, clock: nat -> nat, results: MemoryResults,
                                    m: nat, n: nat, iterations: int, interval: nat)
    requires m <= n
    ensures var a := Ticks(readings, clock, results, m, iterations, interval);
      var b := Ticks(readings, clock, results, n, iterations, interval);
      a.cpuData <= b.cpuData && a.memoryData <= b.memoryData && a.events <= b.events
    decreases n - m
  {
    if m < n {
      RunGrows(readings, clock, results, m, n - 1, iterations, interval);
      var a := Ticks(readings, clock, results, m, iterations, interval);
      var p := Ticks(readings, clock, results, n - 1, iterations, interval);
      var b := Ticks(readings, clock, results, n, iterations, interval);
      var added := TickEvents(p, readings(n - 1), clock(n - 1), results(n - 1), n - 1, iterations, interval);
      TickSeries(p, readings(n - 1), clock(n - 1), results(n - 1), n - 1, iterations, interval);
      PrefixSnoc(a.events, p.events, b.events);
      PrefixSnoc(a.cpuData, p.cpuData, b.cpuData);
      PrefixSnoc(a.memoryData, p.memoryData, b.memoryData);
    }
  }

  lemma PrefixSnoc<T>(a: seq<T>, p: seq<T>, b: seq<T>)
    requires a <= p && p <= b
    ensures a <= b
  {
    assert b[..|a|] == p[..|a|];
  }

  // ---------------------------------------------------------------------------
  // Layout of the events

  /** Tick `i` left a CPU event at `3i`, its memory result at `3i + 1` and,
      unless it is the last index, a sleep of `interval` seconds at `3i + 2`. */
  predicate TickLaidOut(events: seq<Event>, results: MemoryResults, i: nat, iterations: int, interval: nat) {
    && 3 * i + 1 < |events|
    && IsCpuEvent(events[3 * i])
    && events[3 * i + 1] == MemoryEvent(results(i))
    && (i < iterations - 1 ==> 3 * i + 2 < |events| && events[3 * i + 2] == Slept(interval))
  }

  /** Three events a tick, one fewer once the last index has run. */
  function EventCount(n: nat, iterations: int): nat {
    if n > 0 && n == iterations then 3 * n - 1 else 3 * n
  }

  lemma {:induction false} EventLayout(readings: CpuReadings, clock: nat -> nat, results: MemoryResults,
                                       n: nat, iterations: int, interval: nat)
    requires n <= TickCount(iterations)
    ensures var events := Ticks(readings, clock, results, n, iterations, interval).events;
      && |events| == EventCount(n, iterations)
      && forall i :: 0 <= i < n ==> TickLaidOut(events, results, i, iterations, interval)
  {
    if n > 0 {
      EventLayout(readings, clock, results, n - 1, iterations, interval);
      var p := Ticks(readings, clock, results, n - 1, iterations, interval);
      var events := Ticks(readings, clock, results, n, iterations, interval).events;
      var added := TickEvents(p, readings(n - 1), clock(n - 1), results(n - 1), n - 1, iterations, interval);
      assert |p.events| == 3 * (n - 1);
      assert events == p.events + added;
      LaidOutLast(p.events, added, results, n - 1, iterations, interval);
      forall i | 0 <= i < n - 1
        ensures TickLaidOut(events, results, i, iterations, interval)
      {
        LaidOutKept(p.events, added, results, i, iterations, interval);
      }
    }
  }

  /** Appending keeps the layout of an earlier tick. */
  lemma LaidOutKept(before: seq<Event>, added: seq<Event>, results: MemoryResults, i: nat, iterations: int, interval: nat)
    requires TickLaidOut(before, results, i, iterations, interval)
    ensures TickLaidOut(before + added, results, i, iterations, interval)
  {
    var events := before + added;
    assert events[3 * i] == before[3 * i] && events[3 * i + 1] == before[3 * i + 1];
    if i < iterations - 1 {
      assert events[3 * i + 2] == before[3 * i + 2];
    }
  }

  /** The events of tick `i`, appended after `3i` events, are laid out. */
  lemma LaidOutLast(before: seq<Event>, added: seq<Event>, results: MemoryResults, i: nat, iterations: int, interval: nat)
    requires |before| == 3 * i
    requires |added| == if i < iterations - 1 then 3 else 2
    requires IsCpuEvent(added[0]) && added[1] == MemoryEvent(results(i))
    requires i < iterations - 1 ==> added[2] == Slept(interval)
    ensures TickLaidOut(before + added, results, i, iterations, interval)
  {
    var events := before + added;
    assert events[3 * i] == added[0] && events[3 * i + 1] == added[1];
    if i < iterations - 1 {
      assert events[3 * i + 2] == added[2];
    }
  }

  /** The sleeps among `events`, in order, by their length in seconds. */
  function Sleeps(events: seq<Event>): seq<nat> {
    if events == [] then []
    else
      var last := events[|events| - 1];
      Sleeps(events[..|events| - 1]) + (if last.Slept? then [last.secs] else [])
  }

  lemma {:induction false} SleepsAppend(a: seq<Event>, b: seq<Event>)
    ensures Sleeps(a + b) == Sleeps(a) + Sleeps(b)
    decreases |b|
  {
    if b != [] {
      var init := b[..|b| - 1];
      assert (a + b)[..|a + b| - 1] == a + init;
      SleepsAppend(a, init);
    } else {
      assert a + b == a;
    }
  }

  lemma SleepsOne(e: Event)
    ensures Sleeps([e]) == if e.Slept? then [e.secs] else []
  {
    assert [e][..0] == [];
  }

  /** How many sleeps the first `n` ticks take. */
  function SleepCount(n: nat, iterations: int): nat {
    if n > 0 && n == iterations then n - 1 else n
  }

  /** Every tick but the last sleeps, always for the configured interval. */
  lemma {:induction false} RunSleeps(readings: CpuReadings, clock: nat -> nat, results: MemoryResults,
                                     n: nat, iterations: int, interval: nat)
    requires n <= TickCount(iterations)
    ensures var sleeps := Sleeps(Ticks(readings, clock, results, n, iterations, interval).events);
      && |sleeps| == SleepCount(n, iterations)
      && forall k :: 0 <= k < |sleeps| ==> sleeps[k] == interval
  {
    if n > 0 {
      RunSleeps(readings, clock, results, n - 1, iterations, interval);
      var p := Ticks(readings, clock, results, n - 1, iterations, interval);
      var added := TickEvents(p, readings(n - 1), clock(n - 1), results(n - 1), n - 1, iterations, interval);
      SleepsAppend(p.events, added);
      SleepsGrow(Sleeps(p.events), Sleeps(added), n, iterations, interval);
    }
  }

  lemma SleepsGrow(before: seq<nat>, added: seq<nat>, n: nat, iterations: int, interval: nat)
    requires 0 < n <= TickCount(iterations)
    requires |before| == SleepCount(n - 1, iterations) && forall k :: 0 <= k < |before| ==> before[k] == interval
    requires added == if n - 1 < iterations - 1 then [interval] else []
    ensures |before + added| == SleepCount(n, iterations)
    ensures forall k :: 0 <= k < |before + added| ==> (before + added)[k] == interval
  {
  }

  // ---------------------------------------------------------------------------
  // The whole loop of `main`

  /** With `n > 0` ticks to run, the loop takes `3n - 1` steps: every tick
      collects both samples, the last one does not sleep, every other one
      sleeps for the interval; with no ticks to run nothing happens. */
  lemma WholeLoop(readings: CpuReadings, clock: nat -> nat, results: MemoryResults, iterations: int, interval: nat)
    ensures var run := Ticks(readings, clock, results, TickCount(iterations), iterations, interval);
      && (iterations <= 0 ==> run == Run([], [], [], None))
      && (iterations > 0 ==>
            && |run.events| == 3 * iterations - 1
            && IsMemoryEvent(run.events[|run.events| - 1])
            && |Sleeps(run.events)| == iterations - 1
            && forall k :: 0 <= k < |Sleeps(run.events)| ==> Sleeps(run.events)[k] == interval)
  {
    var n := TickCount(iterations);
    EventLayout(readings, clock, results, n, iterations, interval);
    RunSleeps(readings, clock, results, n, iterations, interval);
    if iterations > 0 {
      var events := Ticks(readings, clock, results, n, iterations, interval).events;
      assert TickLaidOut(events, results, n - 1, iterations, interval);
    }
  }

  /** `main` with its settings: the loop as above, and with no ticks to run
      the report is the warning. */
  lemma MainLoop(env: Env, oracle: Oracle, fmt: Format)
    ensures var iterations := Iterations(env);
      var run := RunUpTo(oracle, TickCount(iterations), iterations, IntervalSecs(env));
      && (iterations <= 0 ==> run == Run([], [], [], None) && Report(run.cpuData, fmt) == HEADER + NO_DATA)
      && (iterations > 0 ==>
            && |run.events| == 3 * iterations - 1
            && |Sleeps(run.events)| == iterations - 1
            && forall k :: 0 <= k < |Sleeps(run.events)| ==> Sleeps(run.events)[k] == IntervalSecs(env))
  {
    WholeLoop(ParsedReadings(oracle), CpuClock(oracle), MemoryResultsOf(oracle), Iterations(env), IntervalSecs(env));
  }

  /** Without either variable set, `main` runs 60 ticks and sleeps 59 times
      for 5 seconds. */
  lemma DefaultLoop(env: Env, oracle: Oracle)
    requires ITERATIONS_VAR !in env && INTERVAL_VAR !in env
    ensures var run := RunUpTo(oracle, TickCount(Iterations(env)), Iterations(env), IntervalSecs(env));
      |run.events| == 179 && |Sleeps(run.events)| == 59 &&
      forall k :: 0 <= k < 59 ==> Sleeps(run.events)[k] == 5
  {
    IterationsDefaults(env, 0);
    IntervalDefaults(env, 0);
    MainLoop(env, oracle, x => "");
  }

  /** The report goes to the step summary exactly when it is named; otherwise
      the process exits with status 1. */
  lemma FinishOutcome(env: Env, report: string)
    ensures Finish(env, report).Exited? <==> SUMMARY_VAR !in env
    ensures Finish(env, report).Exited? ==> Finish(env, report).status == 1
    ensures Finish(env, report).Appended? ==>
      Finish(env, report).path == env[SUMMARY_VAR] && Finish(env, report).text == report + "\n"
  {
  }
}
