/** The sampling loop of `main` (src/main.rs): the iteration count and the
    interval come from the environment with defaults; each tick collects a
    CPU sample and then a memory sample, keeps the successes and logs the
    failures, and sleeps unless it is the last; the report then goes to the
    step summary file, or the process exits with status 1.

    The collectors' clocks and file reads are an oracle indexed by tick, the
    sleeps and the error logs are events, and the summary file append is the
    outcome. */
module Sampling {
  import opened Wrappers
  import opened Numeric
  import opened Text
  import opened Cpu
  import Memory
  import opened Mermaid
  import opened Markdown

  // ---------------------------------------------------------------------------
  // The environment

  type Env = map<string, string>

  const ITERATIONS_VAR: string := "TELEMETRY_ITERATIONS"
  const INTERVAL_VAR: string := "TELEMETRY_INTERVAL"
  const SUMMARY_VAR: string := "GITHUB_STEP_SUMMARY"

  const DEFAULT_ITERATIONS: int := 60
  const DEFAULT_INTERVAL: nat := 5

  /** `TELEMETRY_ITERATIONS` parsed as an `i32`, or 60 when it is unset or
      does not parse. */
  function Iterations(env: Env): (n: int)
    ensures I32_MIN <= n <= I32_MAX
  {
    if ITERATIONS_VAR in env && ParseI32(env[ITERATIONS_VAR]).Some? then ParseI32(env[ITERATIONS_VAR]).value
    else DEFAULT_ITERATIONS
  }

  /** `TELEMETRY_INTERVAL` parsed as a `u64`, or 5 when it is unset or does
      not parse. */
  function IntervalSecs(env: Env): (secs: nat)
    ensures secs <= U64_MAX
  {
    if INTERVAL_VAR in env && ParseU64(env[INTERVAL_VAR]).Some? then ParseU64(env[INTERVAL_VAR]).value
    else DEFAULT_INTERVAL
  }

  /** An unset or unparsable variable gives the default; a printed number
      gives that number, a negative count included. */
  lemma IterationsDefaults(env: Env, n: nat)
    ensures ITERATIONS_VAR !in env ==> Iterations(env) == 60
    ensures ITERATIONS_VAR in env && ParseI32(env[ITERATIONS_VAR]).None? ==> Iterations(env) == 60
    ensures ITERATIONS_VAR in env && n <= I32_MAX && env[ITERATIONS_VAR] == NatToString(n) ==>
      Iterations(env) == n
    ensures ITERATIONS_VAR in env && n <= -I32_MIN && env[ITERATIONS_VAR] == "-" + NatToString(n) ==>
      Iterations(env) == -(n as int)
  {
    if ITERATIONS_VAR in env && n <= I32_MAX && env[ITERATIONS_VAR] == NatToString(n) {
      ParseI32NatToString(n);
    }
    if ITERATIONS_VAR in env && n <= -I32_MIN && env[ITERATIONS_VAR] == "-" + NatToString(n) {
      ParseI32Negative(n);
    }
  }

  /** The same for the interval. */
  lemma IntervalDefaults(env: Env, n: nat)
    ensures INTERVAL_VAR !in env ==> IntervalSecs(env) == 5
    ensures INTERVAL_VAR in env && ParseU64(env[INTERVAL_VAR]).None? ==> IntervalSecs(env) == 5
    ensures INTERVAL_VAR in env && n <= U64_MAX && env[INTERVAL_VAR] == NatToString(n) ==>
      IntervalSecs(env) == n
  {
    if INTERVAL_VAR in env && n <= U64_MAX && env[INTERVAL_VAR] == NatToString(n) {
      ParseU64NatToString(n);
    }
  }

  // ---------------------------------------------------------------------------
  // Ticks and events

  /** What the collectors see at one tick: the CPU collector's timestamp and
      /proc/stat read, the memory collector's clock and /proc/meminfo read. */
  datatype Tick = Tick(
    cpuNow: nat, cpuRead: Result<string, IoError>,
    memoryClock: Option<nat>, memoryRead: Result<string, IoError>)

  /** The tick inputs, by tick index. */
  type Oracle = nat -> Tick

  /** What the loop does that is visible from outside: a sample kept, an
      error logged, a sleep. */
  datatype Event =
    | CpuCollected(cpu: CpuStats)
    | CpuFailed(cpuError: CpuError)
    | MemoryCollected(memory: Memory.MemoryStats)
    | MemoryFailed(memoryError: Memory.MemoryError)
    | Slept(secs: nat)

  predicate IsCpuEvent(e: Event) {
    e.CpuCollected? || e.CpuFailed?
  }

  predicate IsMemoryEvent(e: Event) {
    e.MemoryCollected? || e.MemoryFailed?
  }

  function CpuEvent(r: Result<CpuStats, CpuError>): Event {
    match r
    case Ok(stats) => CpuCollected(stats)
    case Err(e) => CpuFailed(e)
  }

  function MemoryEvent(r: Result<Memory.MemoryStats, Memory.MemoryError>): Event {
    match r
    case Ok(stats) => MemoryCollected(stats)
    case Err(e) => MemoryFailed(e)
  }

  /** The state of the loop: both series, the events so far and the CPU
      collector's baseline. */
  datatype Run = Run(
    cpuData: seq<CpuStats>, memoryData: seq<Memory.MemoryStats>,
    events: seq<Event>, baseline: Option<CpuTime>)

  /** `0..iterations` has this many indices. */
  function TickCount(iterations: int): nat {
    if iterations > 0 then iterations else 0
  }

  /** What the CPU collector made of each tick's read of /proc/stat. */
  type CpuReadings = nat -> Result<CpuTime, CpuError>

  /** What the memory collector returned at each tick. */
  type MemoryResults = nat -> Result<Memory.MemoryStats, Memory.MemoryError>

  function ParsedReadings(oracle: Oracle): CpuReadings {
    (i: nat) => ReadProcStat(oracle(i).cpuRead)
  }

  function CpuClock(oracle: Oracle): nat -> nat {
    (i: nat) => oracle(i).cpuNow
  }

  function MemoryResultsOf(oracle: Oracle): MemoryResults {
    (i: nat) => Memory.CollectResult(oracle(i).memoryClock, oracle(i).memoryRead)
  }

  /** Tick `i`, given what the CPU collector read and what the memory
      collector returned: keep each success, log each failure, and sleep
      unless `i` is the last index. */
  function TickRun(run: Run, reading: Result<CpuTime, CpuError>, now: nat,
                   memory: Result<Memory.MemoryStats, Memory.MemoryError>,
                   i: nat, iterations: int, interval: nat): Run {
    var step := Advance(run.baseline, now, reading);
    var cpuData := if step.result.Ok? then run.cpuData + [step.result.value] else run.cpuData;
    var memoryData := if memory.Ok? then run.memoryData + [memory.value] else run.memoryData;
    var sleep := if i < iterations - 1 then [Slept(interval)] else [];
    Run(cpuData, memoryData, run.events + [CpuEvent(step.result), MemoryEvent(memory)] + sleep, step.baseline)
  }

  /** The state after the first `n` ticks, given what the collectors saw at each. */
  function Ticks(readings: CpuReadings, clock: nat -> nat, results: MemoryResults,
                 n: nat, iterations: int, interval: nat): Run
    decreases n
  {
    if n == 0 then Run([], [], [], None)
    else TickRun(Ticks(readings, clock, results, n - 1, iterations, interval),
                 readings(n - 1), clock(n - 1), results(n - 1), n - 1, iterations, interval)
  }

  /** The state after the first `n` ticks of `oracle`. */
  function RunUpTo(oracle: Oracle, n: nat, iterations: int, interval: nat): Run {
    Ticks(ParsedReadings(oracle), CpuClock(oracle), MemoryResultsOf(oracle), n, iterations, interval)
  }

  /** How `main` ends: the report appended to the step summary file, or exit
      status 1 when `GITHUB_STEP_SUMMARY` is unset. */
  datatype Outcome = Appended(path: string, text: string) | Exited(status: int)

  /** `writeln!` appends the report and a line break. */
  function Finish(env: Env, report: string): Outcome {
    if SUMMARY_VAR in env then Appended(env[SUMMARY_VAR], report + "\n") else Exited(1)
  }

  /** One pass of the loop body: collect both samples, keep the successes,
      log the failures, and sleep unless `i` is the last index. */
  method CollectTick(cpuCollector: CpuCollector, tick: Tick, i: nat, iterations: int, intervalSecs: nat,
                     cpuData: seq<CpuStats>, memoryData: seq<Memory.MemoryStats>, events: seq<Event>)
      returns (cpuData': seq<CpuStats>, memoryData': seq<Memory.MemoryStats>, events': seq<Event>)
    modifies cpuCollector
    ensures Run(cpuData', memoryData', events', cpuCollector.lastCpuTime) ==
      TickRun(Run(cpuData, memoryData, events, old(cpuCollector.lastCpuTime)),
              ReadProcStat(tick.cpuRead), tick.cpuNow, Memory.CollectResult(tick.memoryClock, tick.memoryRead),
              i, iterations, intervalSecs)
  {
    ghost var step := CollectStep(cpuCollector.lastCpuTime, tick.cpuNow, tick.cpuRead);
    var cpuResult := cpuCollector.Collect(tick.cpuNow, tick.cpuRead);
    assert cpuResult == step.result && cpuCollector.lastCpuTime == step.baseline;
    cpuData', events' := cpuData, events;
    match cpuResult {
      case Ok(stats) =>
        cpuData' := cpuData' + [stats];
        events' := events' + [CpuCollected(stats)];
      case Err(e) =>
        events' := events' + [CpuFailed(e)];
    }
    var memoryResult := Memory.Collect(tick.memoryClock, tick.memoryRead);
    memoryData' := memoryData;
    match memoryResult {
      case Ok(stats) =>
        memoryData' := memoryData' + [stats];
        events' := events' + [MemoryCollected(stats)];
      case Err(e) =>
        events' := events' + [MemoryFailed(e)];
    }
    assert events' == events + [CpuEvent(cpuResult), MemoryEvent(memoryResult)];
    if i < iterations - 1 {
      events' := events' + [Slept(intervalSecs)];
    } else {
      assert events' == events' + [];
    }
  }

  /** The `for` loop of `main`: `iterations` ticks with a fresh CPU collector. */
  method SampleLoop(oracle: Oracle, iterations: int, intervalSecs: nat)
      returns (cpuData: seq<CpuStats>, memoryData: seq<Memory.MemoryStats>, events: seq<Event>)
    ensures var run := RunUpTo(oracle, TickCount(iterations), iterations, intervalSecs);
      cpuData == run.cpuData && memoryData == run.memoryData && events == run.events
  {
    var cpuCollector := new CpuCollector();
    cpuData, memoryData, events := [], [], [];
    ghost var n := TickCount(iterations);
    var i := 0;
    while i < iterations
      invariant 0 <= i <= n
      invariant Run(cpuData, memoryData, events, cpuCollector.lastCpuTime) ==
        RunUpTo(oracle, i, iterations, intervalSecs)
      decreases iterations - i
    {
      cpuData, memoryData, events :=
        CollectTick(cpuCollector, oracle(i), i, iterations, intervalSecs, cpuData, memoryData, events);
      i := i + 1;
    }
    assert i == n;
  }

  /** The end of `main`: append the report and a line break to the step
      summary file, or exit with status 1 when none is named. */
  method WriteSummary(env: Env, report: string) returns (outcome: Outcome)
    ensures outcome == Finish(env, report)
  {
    if SUMMARY_VAR in env {
      outcome := Appended(env[SUMMARY_VAR], report + "\n");
    } else {
      outcome := Exited(1);
    }
  }

  /** `main`: read the settings, run the ticks and hand the CPU series to
      the report. */
  method RunTelemetry(env: Env, oracle: Oracle, fmt: Format)
      returns (cpuData: seq<CpuStats>, memoryData: seq<Memory.MemoryStats>, events: seq<Event>, outcome: Outcome)
    ensures var run := RunUpTo(oracle, TickCount(Iterations(env)), Iterations(env), IntervalSecs(env));
      cpuData == run.cpuData && memoryData == run.memoryData && events == run.events
    ensures outcome == Finish(env, Report(cpuData, fmt))
  {
    var iterations := Iterations(env);
    var intervalSecs := IntervalSecs(env);
    cpuData, memoryData, events := SampleLoop(oracle, iterations, intervalSecs);
    var report := GenerateReport(cpuData, fmt);
    outcome := WriteSummary(env, report.value);
  }
}
