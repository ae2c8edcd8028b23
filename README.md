# workflow-telemetry-rust, modelled in Dafny

This project models the sampling core of the workflow telemetry tool. The tool
samples CPU and memory utilisation on a Linux runner. It reads `/proc/stat` and
`/proc/meminfo` once per tick for a configurable number of ticks, and sleeps
between ticks. It then renders the CPU series as a Mermaid `xychart-beta`
inside a Markdown report and appends that report to the GitHub step summary
file.

The modules follow the source files:

- `Cpu` models `src/collectors/cpu.rs`.
  - `CpuTime`, its four sums and `parse_proc_stat` are pure functions.
  - `CpuCollector` is a class. Its one field, `lastCpuTime`, is updated by its `Collect` method.
- `Memory` models `src/collectors/memory.rs`.
  - The `/proc/meminfo` scan is a method with a `for` loop (`ScanLines`), proved against `ParseMeminfo`.
  - The arithmetic after the scan is the function `Usage`.
- `Sampling` models `src/main.rs`: the environment defaults, and the tick loop as a `while` loop over a `CpuCollector` object, proved against the function `RunUpTo`.
- `SamplingProperties` states what that loop promises: series lengths, tick order, append-only growth, independence of the two series, and the sleep schedule.
- `Mermaid` models `src/reporters/mermaid.rs`.
  - `generate_cpu_chart` is a method that pushes one line after another, proved against the function `CpuChart`.
  - Lemmas read the chart back line by line.
- `Markdown` models `src/reporters/markdown.rs`: `generate_report` is a method that extends a string in an if/else, proved against `Report`.
- `Text`, `Numeric` and `Wrappers` hold the Rust library behaviour the core relies on:
  - `str::lines`, `split_whitespace`, `trim`, `strip_prefix` and `join`;
  - `u64`/`i32` parsing and decimal printing;
  - `saturating_sub`, `f64::ceil` and the saturating float-to-`i32` cast;
  - `Option` and `Result`.

The modelling choices are:

- **Inputs.** The clocks and file reads are inputs.
  - A CPU collect takes `now` (milliseconds) and `read`, the outcome of reading `/proc/stat`.
  - A memory collect takes `clock` (`None` when the system time lies before the Unix epoch) and `read`.
  - The loop takes an `Oracle`: a function from the tick index to a `Tick` holding what both collectors see at that tick.
- **Events.** Sleeps and error logs become `Event`s in the loop's event list. The final write to the step summary becomes an `Outcome`.
- **Numbers.** Loads and percentages are exact reals. Counters and sizes are `nat`.
  - `u64` and `i32` limits appear where the source parses or casts.
- **Float formatting.** The `{:.1}` formatting of a float is the function parameter `fmt: real -> string`.

## Model

| member | source | states |
|---|---|---|
| `Cpu.Active` | src/collectors/cpu.rs:44-46 | the active sum plus `idle` and `iowait` is the total; it equals user time plus system time plus `steal` |
| `Cpu.CpuTimeSums` | src/collectors/cpu.rs:173-190 | the unit-test record has total 7000, active 1800, user time 1100 and system time 600 |
| `Cpu.CountersInOrder` | src/collectors/cpu.rs:142-151 | the counters succeed exactly when all eight words parse, and are then user, nice, system, idle, iowait, irq, softirq, steal in that order; otherwise the error names the first field that does not parse |
| `Cpu.ParseProcStatRejects` | src/collectors/cpu.rs:132-140 | empty content fails with `EmptyProcStat`; a first line with fewer than nine words, or whose first word is not `cpu`, fails with `InvalidFormat` |
| `Cpu.ParseProcStatAccepts` | src/collectors/cpu.rs:130-152 | parsing succeeds if and only if the content is not empty, the first line has at least nine words, the first is `cpu` and words 1 to 8 parse as `u64`; the reading is then the values of words 1 to 8 as user, nice, system, idle, iowait, irq, softirq and steal |
| `Cpu.WordsAccepted` | src/collectors/cpu.rs:142-151 | the counters of a line succeed exactly when words 1 to 8 all parse as `u64`, and are then those words' values in order |
| `Cpu.ProcStatTextWords` | src/collectors/cpu.rs:132-137 | the first line of a printed reading splits into `cpu`, the eight printed counters and the further words |
| `Cpu.ParseProcStatText` | src/collectors/cpu.rs:130-152 | round trip: printing a reading as the kernel does (`cpu`, blanks, the counters, any further words, any further lines) and parsing it gives the reading back |
| `Cpu.ParseProcStatSample` | src/collectors/cpu.rs:192-201 | the unit-test line `cpu  74608 2520 24433 1117073 6176 4054 500 100 0 0` parses to user 74608, nice 2520, system 24433, idle 1117073 |
| `Cpu.Sample` | src/collectors/cpu.rs:75-114 | the sample carries `now`; with no baseline all three loads are 0; otherwise each load is its saturating delta as a percentage of the total delta, and 0 when the total delta is 0 |
| `Cpu.CollectStepBaseline` | src/collectors/cpu.rs:71-120 | a collect fails exactly when the read or the parse fails, and then returns that error and keeps the baseline; a success keeps the new reading as the baseline and stamps the sample with `now` |
| `Cpu.ColdStartIsZero` | src/collectors/cpu.rs:106-114 | without a baseline all three loads are 0, whatever the counters |
| `Cpu.DeltasSaturate` | src/collectors/cpu.rs:77-80 | each delta is 0 exactly when the current sum is not above the previous one, and otherwise the plain difference |
| `Cpu.AdvancedDeltas` | src/collectors/cpu.rs:77-80 | when no counter went backwards, the active delta is the user delta plus the system delta plus the steal delta, and at most the total delta |
| `Cpu.AdvancedLoadsBounded` | src/collectors/cpu.rs:77-98 | when no counter went backwards, 0 <= user load + system load <= total load <= 100 |
| `Cpu.SameReadingTwice` | src/collectors/cpu.rs:82-98 | the same reading twice in a row gives three zero loads, by the division guard |
| `Cpu.HalfActive` | src/collectors/cpu.rs:82-86 | active up by 100 while the total is up by 200 gives a total load of exactly 50 |
| `Cpu.CpuCollector.constructor` | src/collectors/cpu.rs:64-68 | a new collector has no baseline |
| `Cpu.CpuCollector.Collect` | src/collectors/cpu.rs:71-120 | the result and the new baseline are those of `CollectStep` on the old baseline, so the field changes only on success |
| `Cpu.FirstCollect` | src/collectors/cpu.rs:64-120 | the first collect after `new` succeeds exactly when the read parses, and then returns three zero loads stamped with `now` |
| `Memory.FieldValue` | src/collectors/memory.rs:41-47 | the value is the `u64` parse of the first whitespace token, and 0 when there is no token or it does not parse |
| `Memory.LastValueSnoc` | src/collectors/memory.rs:39-47 | one more line sets the key's value when it starts with the key, and otherwise keeps it |
| `Memory.ScanLines` | src/collectors/memory.rs:36-49 | the loop leaves in `totalKb` and `availableKb` the value of the last `MemTotal:` and the last `MemAvailable:` line, 0 if there is none |
| `Memory.ScanMeminfo` | src/collectors/memory.rs:36-49 | the scan of the file is `ParseMeminfo` of its text |
| `Memory.KeysExclusive` | src/collectors/memory.rs:40-44 | no line starts with both keys, so the `else if` never hides a `MemAvailable:` line |
| `Memory.OtherLineIgnored` | src/collectors/memory.rs:39-49 | inserting a line that starts with neither key anywhere changes neither value |
| `Memory.IgnoredLine` | src/collectors/memory.rs:39-49 | a line that does not start with a key leaves that key's value unchanged, wherever it stands |
| `Memory.LastOccurrenceWins` | src/collectors/memory.rs:39-49 | when a key occurs several times, its last line decides the value |
| `Memory.AbsentKey` | src/collectors/memory.rs:36-37 | a key that starts no line has the value 0 |
| `Memory.PrintedValue` | src/collectors/memory.rs:41-47 | round trip: blanks, a printed number and then blanks or nothing read back as that number |
| `Memory.Usage` | src/collectors/memory.rs:51-65 | total MB is total kB divided by 1024 rounded down, used MB likewise of the saturating difference, used MB <= total MB; the percentage is 0 when the total is 0, otherwise used/total × 100, and lies in [0, 100] |
| `Memory.CollectErrors` | src/collectors/memory.rs:27-66 | a collect fails exactly when the clock or the read fails, the clock first; any text, however malformed, gives a sample stamped with the clock whose percentage lies in [0, 100] |
| `Memory.Collect` | src/collectors/memory.rs:27-66 | the method returns `CollectResult` of the clock and the read |
| `Sampling.Iterations` | src/main.rs:18-21 | the iteration count is an `i32` |
| `Sampling.IntervalSecs` | src/main.rs:23-26 | the interval is a `u64` |
| `Sampling.IterationsDefaults` | src/main.rs:18-21 | an unset or unparsable `TELEMETRY_ITERATIONS` gives 60; a printed number, negative ones included, gives that number |
| `Sampling.IntervalDefaults` | src/main.rs:23-26 | an unset or unparsable `TELEMETRY_INTERVAL` gives 5; a printed number gives that number |
| `Sampling.CollectTick` | src/main.rs:31-41 | one pass of the loop body: the CPU collect, then the memory collect, each success pushed and each failure logged, then the sleep unless this is the last index; the new state is `TickRun` of the old |
| `Sampling.SampleLoop` | src/main.rs:13-42 | the loop over `0..iterations` returns the series and events of `RunUpTo` after `max(iterations, 0)` ticks |
| `Sampling.WriteSummary` | src/main.rs:46-57 | the outcome is `Finish`: the report and a line break appended to the summary file, or exit status 1 |
| `Sampling.RunTelemetry` | src/main.rs:12-57 | `main`: the settings from the environment, the loop, the report of the CPU series, and the summary outcome |
| `SamplingProperties.CpuSeries` | src/main.rs:30-34 | the CPU series is the reference `CpuSamples`: in tick order, one sample per successful collect, each against the last successful reading before it; the collector's baseline is that last reading |
| `SamplingProperties.MemorySeries` | src/main.rs:35-38 | the memory series is the successful memory results, in tick order |
| `SamplingProperties.MemorySamplesCount` | src/main.rs:35-38 | the memory series has at most one entry per tick, and one per tick exactly when every memory collect succeeded |
| `SamplingProperties.CpuSamplesCount` | src/main.rs:31-34 | the same for the CPU series |
| `SamplingProperties.FirstCpuSampleIdle` | src/main.rs:31-34 | there is no baseline exactly when no CPU sample was kept, and the first kept sample has three zero loads |
| `SamplingProperties.SeriesOfRun` | src/main.rs:30-42 | after `n` ticks: each series has at most `n` entries, exactly `n` if and only if every collect of that metric succeeded, and the first CPU sample is idle |
| `SamplingProperties.CpuInputsDecide` | src/main.rs:31-34 | the CPU series and baseline depend only on the CPU readings and clock of the ticks so far |
| `SamplingProperties.MemoryInputsDecide` | src/main.rs:35-38 | the memory series depends only on the memory results of the ticks so far |
| `SamplingProperties.SeriesIndependent` | src/main.rs:30-42 | the CPU series does not depend on the memory collector, the iteration count or the interval, and the memory series does not depend on the CPU collector, the iteration count or the interval, so a failure in one metric never affects the other |
| `SamplingProperties.TickSeries` | src/main.rs:31-38 | a tick keeps both series as they were and adds at most one entry to each |
| `SamplingProperties.TickEvents` | src/main.rs:31-41 | a tick appends a CPU event, then the memory result, then a sleep of the interval unless it is the last index |
| `SamplingProperties.RunGrows` | src/main.rs:30-42 | the series and the events after `m` ticks are prefixes of those after `n >= m` ticks: entries are never changed after the push |
| `SamplingProperties.EventLayout` | src/main.rs:30-42 | after `n` ticks there are 3n events (one fewer once the last index has run), tick `i` at positions 3i to 3i + 2 |
| `SamplingProperties.RunSleeps` | src/main.rs:39-41 | after `n` ticks there is one sleep per tick that is not the last index, each of the interval |
| `SamplingProperties.WholeLoop` | src/main.rs:30-42 | with iterations <= 0 nothing happens; otherwise there are 3 × iterations − 1 events, the last a memory event, and iterations − 1 sleeps, each of the interval |
| `SamplingProperties.MainLoop` | src/main.rs:18-44 | the same with the settings from the environment; with no ticks the report is the header and the warning |
| `SamplingProperties.DefaultLoop` | src/main.rs:18-42 | with neither variable set: 60 ticks, 179 events and 59 sleeps of 5 seconds |
| `SamplingProperties.FinishOutcome` | src/main.rs:46-57 | the process exits with status 1 exactly when `GITHUB_STEP_SUMMARY` is unset; otherwise the report and a line break are appended to that path |
| `Mermaid.LabelIndicesFrom` | src/reporters/mermaid.rs:17-21 | the labelled indices are exactly those with `i % 5 == 0` or `i == len - 1`, in increasing order |
| `Mermaid.EndsLabelled` | src/reporters/mermaid.rs:19 | the first and the last sample are always labelled |
| `Mermaid.LabelsDistinct` | src/reporters/mermaid.rs:17-21 | no index is labelled twice |
| `Mermaid.FoldMax` | src/reporters/mermaid.rs:26-28 | the fold of `f64::max` is at least the start value and every value, and equals one of them |
| `Mermaid.YAxisMax` | src/reporters/mermaid.rs:26-30 | the bound is at least 10 and an `i32`; unless the cast saturates at the `i32` maximum, it is at least every total load and the least integer with that property that is at least 10 |
| `Mermaid.GenerateCpuChart` | src/reporters/mermaid.rs:4-57 | the method's string is `CpuChart`: the placeholder for no data, otherwise the ten lines, each pushed with its line break |
| `Mermaid.EmptyChartRead` | src/reporters/mermaid.rs:5-7 | the placeholder reads back as its seven lines, including `title "No CPU data"`, `x-axis [0]` and `y-axis "CPU %" 0 --> 10` |
| `Mermaid.HeaderSpellings` | src/reporters/mermaid.rs:6-12 | the placeholder spells `xyChart-beta` and a chart with data `xychart-beta`; the two lines before agree |
| `Mermaid.ChartOpensWithFence` | src/reporters/mermaid.rs:10 | a chart with data opens with the `mermaid` fence |
| `Mermaid.ChartLinesInitials` | src/reporters/mermaid.rs:10-55 | every line of a chart with data is non-empty and begins with a backquote, a percent sign, an `x` or a blank |
| `Mermaid.ChartLinesPlain` | src/reporters/mermaid.rs:10-55 | when the formatter prints no line break, every chart line is free of line breaks and does not end in a carriage return |
| `Mermaid.ChartRead` | src/reporters/mermaid.rs:9-56 | a chart with data reads back, line by line, as its ten lines: it opens with the `mermaid` fence, closes with the bare fence and ends in a line break |
| `Mermaid.RowRead` | src/reporters/mermaid.rs:34-39 | a data row reads back as one entry per value, entry `k` being `fmt` of value `k`, in data order |
| `Mermaid.ChartRowsRead` | src/reporters/mermaid.rs:34-53 | the three data rows of a chart read back, entry `k` of each being `fmt` of sample `k`'s total, user and system load respectively, one entry per sample |
| `Mermaid.LabelsRead` | src/reporters/mermaid.rs:16-23 | the x-axis line reads back as the labels, each parsing to the labelled sample's time divided by 1000 |
| `Mermaid.YAxisRead` | src/reporters/mermaid.rs:26-31 | the y-axis line is its fixed opening followed by the bound in decimal |
| `Markdown.GenerateReport` | src/reporters/markdown.rs:6-21 | the result is always `Ok`: the header and either the chart and a line break, or the warning and a blank line |
| `Markdown.ReportStartsWithHeader` | src/reporters/markdown.rs:10 | every report begins with `# Workflow Telemetry Report` and a blank line |
| `Markdown.ReportRead` | src/reporters/markdown.rs:6-21 | when `fmt` prints no line break, the report reads back as the title, a blank line, the chart's ten lines or the warning, and a blank line |
| `Markdown.NoWarningInChart` | src/reporters/markdown.rs:13-18 | the warning is among the report's lines if and only if there is no data |
| `Markdown.FenceOnlyWithData` | src/reporters/markdown.rs:13-18 | the opening fence is among the report's lines if and only if there is data |
| `Markdown.ChartOrWarning` | src/reporters/markdown.rs:13-19 | exactly one of the chart and the warning appears in the report's lines: the fence when there is data, the warning when there is none |
| `Numeric.SaturatingSub` | src/collectors/cpu.rs:77-80 | `saturating_sub` is 0 exactly when the subtrahend is not smaller, and otherwise the difference |
| `Numeric.Percent` | src/collectors/cpu.rs:82-98 | the guarded percentage is 0 for a zero whole, otherwise part/whole × 100; it is not negative, and at most 100 when the part is at most the whole |
| `Numeric.PercentAdditive` | src/collectors/cpu.rs:82-98 | percentages of one whole add up like their parts |
| `Numeric.PercentMonotone` | src/collectors/cpu.rs:82-98 | a larger part gives a percentage that is not smaller |
| `Numeric.Ceil` | src/reporters/mermaid.rs:30 | `ceil` gives the least integer not below its argument |
| `Text.Lines` | src/collectors/cpu.rs:132-135 | `lines()` gives no line exactly when the text is empty, and no line holds a line break |
| `Text.SplitWhitespace` | src/collectors/cpu.rs:137 | `split_whitespace` gives non-empty words without whitespace |
| `Text.SplitWhitespaceTrim` | src/collectors/memory.rs:41 | `trim` before `split_whitespace` changes nothing |
| `Text.StripPrefix` | src/collectors/memory.rs:40-44 | `strip_prefix` succeeds exactly when the line starts with the key, and gives the rest of the line |
| `Text.ParseU64` | src/collectors/cpu.rs:143-150 | a `u64` parse is at most 2^64 − 1 |
| `Text.ParseU64NatToString` | src/main.rs:23-26 | round trip: a printed `u64` parses back to itself |
| `Text.ParseI32` | src/main.rs:18-21 | an `i32` parse lies in its range |
| `Text.ParseI32NatToString` | src/main.rs:18-21 | round trip: a printed non-negative `i32` parses back to itself |
| `Text.ParseI32Negative` | src/main.rs:18-21 | round trip: a minus sign and a printed number down to −2^31 parse back to the negative number |
| `Text.NatToString` | src/reporters/mermaid.rs:20 | `format!("{}")` of an unsigned number is a non-empty run of digits whose value is the number, with no leading zero |
| `Text.SplitJoin` | src/reporters/mermaid.rs:22 | round trip: parts joined by a separator split back into those parts when none contains its first character, as for the labels joined by `", "` |

## Left out

- Time and I/O are left out. The system clocks and the reads of `/proc/stat` and `/proc/meminfo` are inputs. `thread::sleep` becomes a `Slept` event. The `eprintln!` output is left out: the "Collecting …" line at src/main.rs:28 and the summary messages. Of the error lines at src/main.rs:33 and 37 only the message text is left out; each failure is recorded as a `CpuFailed` or `MemoryFailed` event that carries its error. The write to the summary file becomes the `Outcome` value.
- The `expect` panics are left out. These are `Time went backwards` in the CPU clock (src/collectors/cpu.rs:155-160), the open and write of the summary file (src/main.rs:47-52), and the report's `expect` (src/main.rs:44, which cannot fire because the report is always `Ok`). The CPU clock is the input `now`.
- `as_millis() as u64` truncation is left out. The millisecond timestamps are `nat` inputs, so truncation to 64 bits is not modelled.
- Cpu.Active: the `CpuTime` sums use unbounded `nat`. A `u64` overflow in `total()` or `active()` (src/collectors/cpu.rs:33-46) would panic in a debug build, and this is not modelled.
- Float arithmetic is left out. Loads and percentages are exact reals, so IEEE rounding and `f64` are not modelled.
- `{:.1}` is the parameter `fmt`. The lemmas that read the chart or the report back require `fmt` to print no line break (and, for the rows, no comma). Real `{:.1}` output satisfies both.
- Cpu.ParseProcStatSample: the unit-test string is stated as `ProcStatText` of the reading, which is `cpu`, two blanks, the counters, `0 0` and no line break. It is proved through the general round trip and not on the literal.
- The `generate_report` call is modelled with one argument. src/main.rs:44 passes `&memory_data` as a second argument, but src/reporters/markdown.rs:6 takes one. The model follows markdown.rs, so the memory series does not reach the report.
- The markdown test that asserts `Resource Usage` (src/reporters/markdown.rs:48) is not a property: the code never prints that text.
- SamplingProperties.EventLayout: a CPU event is stated only to be a CPU event. Its content, the sample or the error, is stated by `CpuSeries` and `CollectTick`.
- `iterations - 1` at src/main.rs:39 is `i32` arithmetic. Inside the loop `iterations >= 1`, so it cannot overflow, and the model uses unbounded `int`.
- These files are not part of this model: src/reporters/svg.rs, src/reporters/png.rs and src/charts/mod.rs (wrappers over plotting libraries), src/post.js and src/index.js (GitHub Actions plumbing), and src/collectors/mod.rs (re-exports).
- Cancellation, a termination handler and mid-run persistence are not modelled. The Rust code has none of them.
- `used_mb` follows the code, `used_kb / 1024`. It is not derived from a size in bytes.
