/** The CPU utilisation collector (src/collectors/cpu.rs): parsing the
    aggregate `cpu` line of /proc/stat, the four derived sums of a reading, and
    the collector whose only state is the previous reading. The clock and the
    file read are inputs: `now` is the millisecond timestamp, `read` the
    outcome of reading /proc/stat. */
module Cpu {
  import opened Wrappers
  import opened Numeric
  import opened Text

  /** One CPU sample: a timestamp in milliseconds and three loads in percent. */
  datatype CpuStats = CpuStats(time: nat, totalLoad: real, userLoad: real, systemLoad: real)

  /** The eight cumulative counters of the aggregate `cpu` line, in file order. */
  datatype CpuTime = CpuTime(
    user: nat, nice: nat, system: nat, idle: nat,
    iowait: nat, irq: nat, softirq: nat, steal: nat)
  {
    /** Every counter. */
    function Total(): nat {
      user + nice + system + idle + iowait + irq + softirq + steal
    }

    /** Every counter except the two idle ones. */
    function Active(): (r: nat)
      ensures r + idle + iowait == Total()
      ensures r == UserTime() + SystemTime() + steal
    {
      user + nice + system + irq + softirq + steal
    }

    function UserTime(): nat {
      user + nice
    }

    function SystemTime(): nat {
      system + irq + softirq
    }
  }

  /** Every counter is a `u64`. */
  predicate FitsU64(t: CpuTime) {
    && t.user <= U64_MAX && t.nice <= U64_MAX && t.system <= U64_MAX && t.idle <= U64_MAX
    && t.iowait <= U64_MAX && t.irq <= U64_MAX && t.softirq <= U64_MAX && t.steal <= U64_MAX
  }

  /** The record of the unit test of the four sums. */
  lemma CpuTimeSums()
    ensures var t := CpuTime(1000, 100, 500, 5000, 200, 50, 50, 100);
      t.Total() == 7000 && t.Active() == 1800 && t.UserTime() == 1100 && t.SystemTime() == 600
  {
  }

  // ---------------------------------------------------------------------------
  // Parsing /proc/stat

  /** Why a CPU reading failed; the constructors follow the error contexts of
      the source ("Failed to read /proc/stat", "Empty /proc/stat", "Invalid
      /proc/stat format", "Invalid <field> time"). */
  datatype CpuError = ReadFailed(cause: IoError) | EmptyProcStat | InvalidFormat | InvalidTime(field: string)

  const FIELD_NAMES: seq<string> := ["user", "nice", "system", "idle", "iowait", "irq", "softirq", "steal"]

  /** Counter `k` (0 to 7) from the parse of its word, or the error naming it. */
  function Counter(values: seq<Option<nat>>, k: nat): Result<nat, CpuError>
    requires k < 8 == |values|
  {
    match values[k]
    case Some(v) => Ok(v)
    case None => Err(InvalidTime(FIELD_NAMES[k]))
  }

  /** The eight counters taken in order with `?`, so that the error names the
      first counter whose word is not a `u64`. */
  function CountersFrom(values: seq<Option<nat>>): Result<CpuTime, CpuError>
    requires |values| == 8
  {
    var user :- Counter(values, 0);
    var nice :- Counter(values, 1);
    var system :- Counter(values, 2);
    var idle :- Counter(values, 3);
    var iowait :- Counter(values, 4);
    var irq :- Counter(values, 5);
    var softirq :- Counter(values, 6);
    var steal :- Counter(values, 7);
    Ok(CpuTime(user, nice, system, idle, iowait, irq, softirq, steal))
  }

  /** The `u64` parses of words 1 to 8 of the `cpu` line. */
  function CounterWords(parts: seq<string>): (values: seq<Option<nat>>)
    requires |parts| >= 9
    ensures |values| == 8
    ensures forall k :: 0 <= k < 8 ==> values[k] == ParseU64(parts[k + 1])
  {
    seq(8, k requires 0 <= k < 8 => ParseU64(parts[k + 1]))
  }

  /** The counters succeed exactly when every word parses; they are then the
      parsed words in order, and otherwise the error names the first counter
      whose word does not parse. */
  lemma CountersInOrder(values: seq<Option<nat>>)
    requires |values| == 8
    ensures CountersFrom(values).Ok? <==> forall k :: 0 <= k < 8 ==> values[k].Some?
    ensures CountersFrom(values).Ok? ==> CountersFrom(values).value == CpuTime(
      values[0].value, values[1].value, values[2].value, values[3].value,
      values[4].value, values[5].value, values[6].value, values[7].value)
    ensures forall k :: 0 <= k < 8 && values[k].None? && (forall j :: 0 <= j < k ==> values[j].Some?) ==>
      CountersFrom(values) == Err(InvalidTime(FIELD_NAMES[k]))
  {
  }

  /** `CpuCollector::parse_proc_stat`: the first line must split into at least
      nine words, the first being `cpu`; words 1 to 8 are the counters, later
      words and later lines are ignored. */
  function ParseProcStat(content: string): (r: Result<CpuTime, CpuError>)
  {
    var lines := Lines(content);
    if lines == [] then Err(EmptyProcStat)
    else
      var parts := SplitWhitespace(lines[0]);
      if |parts| < 9 || parts[0] != "cpu" then Err(InvalidFormat)
      else CountersFrom(CounterWords(parts))
  }

  /** The words of the first line of `content` (none for empty content). */
  function FirstLineWords(content: string): seq<string> {
    var lines := Lines(content);
    if lines == [] then [] else SplitWhitespace(lines[0])
  }

  /** The three ways the line itself can be rejected. */
  lemma ParseProcStatRejects(content: string)
    ensures content == [] ==> ParseProcStat(content) == Err(EmptyProcStat)
    ensures content != [] && |FirstLineWords(content)| < 9 ==> ParseProcStat(content) == Err(InvalidFormat)
    ensures content != [] && FirstLineWords(content) != [] && FirstLineWords(content)[0] != "cpu" ==>
      ParseProcStat(content) == Err(InvalidFormat)
  {
  }

  /** Success exactly when the first line has the right shape and counters 1
      to 8 all parse; the reading is then those words, in order. */
  lemma ParseProcStatAccepts(content: string)
    ensures ParseProcStat(content).Ok? <==>
      var parts := FirstLineWords(content);
      content != [] && |parts| >= 9 && parts[0] == "cpu" && forall k :: 1 <= k <= 8 ==> ParseU64(parts[k]).Some?
    ensures ParseProcStat(content).Ok? ==>
      var parts := FirstLineWords(content);
      |parts| >= 9 && ParseProcStat(content) == Ok(CpuTime(
        ParseU64(parts[1]).value, ParseU64(parts[2]).value, ParseU64(parts[3]).value, ParseU64(parts[4]).value,
        ParseU64(parts[5]).value, ParseU64(parts[6]).value, ParseU64(parts[7]).value, ParseU64(parts[8]).value))
  {
    var parts := FirstLineWords(content);
    if content != [] && |parts| >= 9 && parts[0] == "cpu" {
      ParseProcStatOfWords(content, parts);
      WordsAccepted(parts);
    }
  }

  /** The counter words give a reading exactly when words 1 to 8 all parse,
      and the reading is then those words' values in order. */
  lemma WordsAccepted(parts: seq<string>)
    requires |parts| >= 9
    ensures CountersFrom(CounterWords(parts)).Ok? <==> forall k :: 1 <= k <= 8 ==> ParseU64(parts[k]).Some?
    ensures CountersFrom(CounterWords(parts)).Ok? ==> CountersFrom(CounterWords(parts)) == Ok(CpuTime(
      ParseU64(parts[1]).value, ParseU64(parts[2]).value, ParseU64(parts[3]).value, ParseU64(parts[4]).value,
      ParseU64(parts[5]).value, ParseU64(parts[6]).value, ParseU64(parts[7]).value, ParseU64(parts[8]).value))
  {
    var values := CounterWords(parts);
    CountersInOrder(values);
    assert values[0] == ParseU64(parts[1]) && values[1] == ParseU64(parts[2]) && values[2] == ParseU64(parts[3]);
    assert values[3] == ParseU64(parts[4]) && values[4] == ParseU64(parts[5]) && values[5] == ParseU64(parts[6]);
    assert values[6] == ParseU64(parts[7]) && values[7] == ParseU64(parts[8]);
    assert (forall k :: 1 <= k <= 8 ==> ParseU64(parts[k]).Some?) <==> (forall k :: 0 <= k < 8 ==> values[k].Some?) by {
      assert forall k :: 1 <= k <= 8 ==> values[k - 1] == ParseU64(parts[k]);
    }
  }

  /** The first line of /proc/stat as the kernel prints it: `cpu`, a run of
      blanks, the eight counters and any further words separated by single
      spaces, then either the end of the text or a line break and further lines. */
  function ProcStatText(t: CpuTime, gap: string, extra: seq<string>, rest: string): string {
    "cpu" + gap + Join(CounterStrings(t) + extra, " ") + rest
  }

  /** Blanks that keep the text on one line. */
  predicate LineGap(gap: string) {
    gap != [] && forall i :: 0 <= i < |gap| ==> IsWhitespace(gap[i]) && gap[i] != '\n'
  }

  /** The eight counters in decimal. */
  function CounterStrings(t: CpuTime): (words: seq<string>)
    ensures |words| == 8
    ensures forall k :: 0 <= k < 8 ==> words[k] != [] && NoWhitespace(words[k])
  {
    [NatToString(t.user), NatToString(t.nice), NatToString(t.system), NatToString(t.idle),
     NatToString(t.iowait), NatToString(t.irq), NatToString(t.softirq), NatToString(t.steal)]
  }

  /** A word, blanks and space-separated words split into the first word
      and the others. */
  lemma ProcStatLineWords(w: string, gap: string, words: seq<string>)
    requires w != [] && NoWhitespace(w) && LineGap(gap) && |words| >= 1
    requires forall k :: 0 <= k < |words| ==> words[k] != [] && NoWhitespace(words[k])
    ensures SplitWhitespace(w + gap + Join(words, " ")) == [w] + words
  {
    var body := Join(words, " ");
    var more := gap[1..] + body;
    assert gap + body == [gap[0]] + more;
    assert w + gap + body == w + [gap[0]] + more;
    SplitWhitespaceCons(w, gap[0], more);
    SplitWhitespaceGap(gap, body);
    SplitWhitespaceJoin(words);
  }

  /** `cpu`, blanks and space-separated words form one line that does not end
      in a carriage return. */
  lemma ProcStatLineSingle(gap: string, words: seq<string>)
    requires LineGap(gap) && |words| >= 1
    requires forall k :: 0 <= k < |words| ==> words[k] != [] && NoWhitespace(words[k])
    ensures var line := "cpu" + gap + Join(words, " "); '\n' !in line && line[|line| - 1] != '\r'
  {
    var body := Join(words, " ");
    var line := "cpu" + gap + body;
    JoinNoNewline(words, " ");
    WordsEnd(words, " ");
    assert line[|line| - 1] == body[|body| - 1];
    assert IsWhitespace('\r');
    forall i | 0 <= i < |line|
      ensures line[i] != '\n'
    {
      if i >= 3 + |gap| {
        assert line[i] == body[i - 3 - |gap|];
      } else if i >= 3 {
        assert line[i] == gap[i - 3];
      }
    }
  }

  /** A line without a line break or a final carriage return is the first
      line, whether the text ends there or a line break follows. */
  lemma FirstLineOfText(line: string, rest: string)
    requires line != [] && '\n' !in line && line[|line| - 1] != '\r'
    requires rest == [] || rest[0] == '\n'
    ensures FirstLineWords(line + rest) == SplitWhitespace(line)
  {
    if rest == [] {
      assert line + rest == line;
      LinesSingle(line);
    } else {
      assert line + rest == line + "\n" + rest[1..];
      LinesCons(line, rest[1..]);
    }
  }

  /** The words of the first line of a printed reading. */
  lemma ProcStatTextWords(t: CpuTime, gap: string, extra: seq<string>, rest: string)
      returns (parts: seq<string>)
    requires LineGap(gap)
    requires forall k :: 0 <= k < |extra| ==> extra[k] != [] && NoWhitespace(extra[k])
    requires rest == [] || rest[0] == '\n'
    ensures parts == ["cpu"] + CounterStrings(t) + extra
    ensures FirstLineWords(ProcStatText(t, gap, extra, rest)) == parts
  {
    var words := CounterStrings(t) + extra;
    var line := "cpu" + gap + Join(words, " ");
    parts := ["cpu"] + words;
    assert parts == ["cpu"] + CounterStrings(t) + extra;
    ProcStatLineWords("cpu", gap, words);
    ProcStatLineSingle(gap, words);
    FirstLineOfText(line, rest);
    assert ProcStatText(t, gap, extra, rest) == line + rest;
  }

  /** Parsing a printed reading gives the reading back, whatever blanks follow
      `cpu`, whatever follows the eighth counter on its line and whatever
      lines follow. */
  lemma {:induction false} ParseProcStatText(t: CpuTime, gap: string, extra: seq<string>, rest: string)
    requires FitsU64(t) && LineGap(gap)
    requires forall k :: 0 <= k < |extra| ==> extra[k] != [] && NoWhitespace(extra[k])
    requires rest == [] || rest[0] == '\n'
    ensures ParseProcStat(ProcStatText(t, gap, extra, rest)) == Ok(t)
  {
    var content := ProcStatText(t, gap, extra, rest);
    var parts := ProcStatTextWords(t, gap, extra, rest);
    CounterWordsOfStrings(t, extra);
    var values := CounterWords(parts);
    CountersInOrder(values);
    ParseProcStatOfWords(content, parts);
  }

  /** The reading of the parser's unit test, laid out as its line is: two
      blanks after `cpu`, two further words after the eight counters and no
      line break. */
  lemma ParseProcStatSample(t: CpuTime)
    requires t == CpuTime(74608, 2520, 24433, 1117073, 6176, 4054, 500, 100)
    ensures var r := ParseProcStat(ProcStatText(t, "  ", ["0", "0"], ""));
      r.Ok? && r.value.user == 74608 && r.value.nice == 2520 &&
      r.value.system == 24433 && r.value.idle == 1117073
  {
    ParseProcStatText(t, "  ", ["0", "0"], "");
  }

  /** The parse of a text whose first line has the right shape. */
  lemma ParseProcStatOfWords(content: string, parts: seq<string>)
    requires FirstLineWords(content) == parts && |parts| >= 9 && parts[0] == "cpu"
    ensures ParseProcStat(content) == CountersFrom(CounterWords(parts))
  {
  }

  /** The counter words of `cpu`, the printed counters and further words. */
  lemma CounterWordsOfStrings(t: CpuTime, extra: seq<string>)
    requires FitsU64(t)
    ensures var values := CounterWords(["cpu"] + CounterStrings(t) + extra);
      values[0] == Some(t.user) && values[1] == Some(t.nice) && values[2] == Some(t.system) &&
      values[3] == Some(t.idle) && values[4] == Some(t.iowait) && values[5] == Some(t.irq) &&
      values[6] == Some(t.softirq) && values[7] == Some(t.steal)
  {
    var words := ["cpu"] + CounterStrings(t) + extra;
    assert words[1..9] == CounterStrings(t);
    CounterWordsOfText(t, words);
  }

  /** The counter words of a printed reading parse back to its counters. */
  lemma CounterWordsOfText(t: CpuTime, words: seq<string>)
    requires FitsU64(t)
    requires |words| >= 9
    requires words[1] == NatToString(t.user) && words[2] == NatToString(t.nice)
    requires words[3] == NatToString(t.system) && words[4] == NatToString(t.idle)
    requires words[5] == NatToString(t.iowait) && words[6] == NatToString(t.irq)
    requires words[7] == NatToString(t.softirq) && words[8] == NatToString(t.steal)
    ensures var values := CounterWords(words);
      values[0] == Some(t.user) && values[1] == Some(t.nice) && values[2] == Some(t.system) &&
      values[3] == Some(t.idle) && values[4] == Some(t.iowait) && values[5] == Some(t.irq) &&
      values[6] == Some(t.softirq) && values[7] == Some(t.steal)
  {
    CounterWordAt(words, 1, t.user);
    CounterWordAt(words, 2, t.nice);
    CounterWordAt(words, 3, t.system);
    CounterWordAt(words, 4, t.idle);
    CounterWordAt(words, 5, t.iowait);
    CounterWordAt(words, 6, t.irq);
    CounterWordAt(words, 7, t.softirq);
    CounterWordAt(words, 8, t.steal);
  }

  lemma CounterWordAt(words: seq<string>, k: nat, n: nat)
    requires 1 <= k <= 8 && |words| >= 9 && n <= U64_MAX
    requires words[k] == NatToString(n)
    ensures CounterWords(words)[k - 1] == Some(n)
  {
    ParseU64NatToString(n);
  }

  lemma {:induction false} JoinNoNewline(words: seq<string>, sep: string)
    requires '\n' !in sep
    requires forall k :: 0 <= k < |words| ==> NoWhitespace(words[k])
    ensures '\n' !in Join(words, sep)
    decreases |words|
  {
    if |words| > 1 {
      JoinNoNewline(words[1..], sep);
      assert '\n' !in words[0] by { assert IsWhitespace('\n'); }
    } else if |words| == 1 {
      assert IsWhitespace('\n');
    }
  }

  /** A join of whitespace-free words is not empty and ends with a character
      of the last word. */
  lemma {:induction false} WordsEnd(words: seq<string>, sep: string)
    requires |words| >= 1
    requires forall k :: 0 <= k < |words| ==> words[k] != [] && NoWhitespace(words[k])
    ensures var j := Join(words, sep); j != [] && !IsWhitespace(j[|j| - 1])
    decreases |words|
  {
    if |words| > 1 {
      WordsEnd(words[1..], sep);
      var j := Join(words, sep);
      var r := Join(words[1..], sep);
      assert j == words[0] + sep + r;
      assert j[|j| - 1] == r[|r| - 1];
    }
  }

  // ---------------------------------------------------------------------------
  // Deltas and loads

  /** The outcome of reading and parsing /proc/stat. */
  function ReadProcStat(read: Result<string, IoError>): Result<CpuTime, CpuError> {
    match read
    case Err(e) => Err(ReadFailed(e))
    case Ok(content) => ParseProcStat(content)
  }

  function TotalDelta(last: CpuTime, current: CpuTime): nat {
    SaturatingSub(current.Total(), last.Total())
  }

  function ActiveDelta(last: CpuTime, current: CpuTime): nat {
    SaturatingSub(current.Active(), last.Active())
  }

  function UserDelta(last: CpuTime, current: CpuTime): nat {
    SaturatingSub(current.UserTime(), last.UserTime())
  }

  function SystemDelta(last: CpuTime, current: CpuTime): nat {
    SaturatingSub(current.SystemTime(), last.SystemTime())
  }

  /** The sample the collector reports for `current` against its baseline:
      zero loads on a cold start, otherwise each delta as a percentage of the
      total delta (zero when the total did not advance). */
  function Sample(baseline: Option<CpuTime>, current: CpuTime, now: nat): (s: CpuStats)
    ensures s.time == now
    ensures baseline.None? ==> s.totalLoad == 0.0 && s.userLoad == 0.0 && s.systemLoad == 0.0
    ensures baseline.Some? ==>
      var last, t := baseline.value, TotalDelta(baseline.value, current);
      && IsPercent(s.totalLoad, ActiveDelta(last, current), t)
      && IsPercent(s.userLoad, UserDelta(last, current), t)
      && IsPercent(s.systemLoad, SystemDelta(last, current), t)
  {
    match baseline
    case None => CpuStats(now, 0.0, 0.0, 0.0)
    case Some(last) =>
      var totalDelta := TotalDelta(last, current);
      var totalLoad := Percent(ActiveDelta(last, current), totalDelta);
      var userLoad := Percent(UserDelta(last, current), totalDelta);
      var systemLoad := Percent(SystemDelta(last, current), totalDelta);
      CpuStats(now, totalLoad, userLoad, systemLoad)
  }

  /** What one `collect` returns and which baseline it leaves behind. */
  datatype Step = Step(result: Result<CpuStats, CpuError>, baseline: Option<CpuTime>)

  /** A collect whose read of /proc/stat came to `reading`. */
  function Advance(baseline: Option<CpuTime>, now: nat, reading: Result<CpuTime, CpuError>): Step {
    match reading
    case Err(e) => Step(Err(e), baseline)
    case Ok(current) => Step(Ok(Sample(baseline, current, now)), Some(current))
  }

  /** A collect whose read of /proc/stat came back as `read`. */
  function CollectStep(baseline: Option<CpuTime>, now: nat, read: Result<string, IoError>): Step {
    Advance(baseline, now, ReadProcStat(read))
  }

  /** A read or parse failure is returned and leaves the baseline alone; a
      success reports the sample against the old baseline and makes the new
      reading the baseline. */
  lemma CollectStepBaseline(baseline: Option<CpuTime>, now: nat, read: Result<string, IoError>)
    ensures var st := CollectStep(baseline, now, read);
      && (st.result.Err? <==> ReadProcStat(read).Err?)
      && (st.result.Err? ==> st.baseline == baseline && st.result.error == ReadProcStat(read).error)
      && (st.result.Ok? ==> st.baseline == Some(ReadProcStat(read).value))
      && (st.result.Ok? ==> st.result.value.time == now)
  {
  }

  /** Cold start: without a baseline every load is zero, whatever the counters. */
  lemma ColdStartIsZero(current: CpuTime, now: nat)
    ensures var s := Sample(None, current, now); s.totalLoad == 0.0 && s.userLoad == 0.0 && s.systemLoad == 0.0
  {
  }

  /** Every delta saturates: it is zero exactly when the current sum is not
      above the previous one, and otherwise the plain difference. */
  lemma DeltasSaturate(last: CpuTime, current: CpuTime)
    ensures TotalDelta(last, current) == 0 <==> current.Total() <= last.Total()
    ensures ActiveDelta(last, current) == 0 <==> current.Active() <= last.Active()
    ensures UserDelta(last, current) == 0 <==> current.UserTime() <= last.UserTime()
    ensures SystemDelta(last, current) == 0 <==> current.SystemTime() <= last.SystemTime()
    ensures last.Total() <= current.Total() ==> TotalDelta(last, current) == current.Total() - last.Total()
    ensures last.Active() <= current.Active() ==> ActiveDelta(last, current) == current.Active() - last.Active()
  {
  }

  /** Every counter has not gone backwards since the baseline. */
  predicate Advanced(last: CpuTime, current: CpuTime) {
    && last.user <= current.user && last.nice <= current.nice
    && last.system <= current.system && last.idle <= current.idle
    && last.iowait <= current.iowait && last.irq <= current.irq
    && last.softirq <= current.softirq && last.steal <= current.steal
  }

  /** When no counter went backwards, the active delta is the user delta plus
      the system delta plus the steal delta, and at most the total delta. */
  lemma AdvancedDeltas(last: CpuTime, current: CpuTime)
    requires Advanced(last, current)
    ensures ActiveDelta(last, current) == UserDelta(last, current) + SystemDelta(last, current) + (current.steal - last.steal)
    ensures ActiveDelta(last, current) <= TotalDelta(last, current)
  {
  }

  /** When no counter went backwards: 0 <= user + system <= total <= 100. */
  lemma AdvancedLoadsBounded(last: CpuTime, current: CpuTime, now: nat)
    requires Advanced(last, current)
    ensures var s := Sample(Some(last), current, now);
      0.0 <= s.userLoad + s.systemLoad <= s.totalLoad <= 100.0
  {
    AdvancedDeltas(last, current);
    var t := TotalDelta(last, current);
    var u, y := UserDelta(last, current), SystemDelta(last, current);
    PercentAdditive(u, y, t);
    PercentMonotone(u + y, ActiveDelta(last, current), t);
  }

  /** Two identical readings in a row give zero loads. */
  lemma SameReadingTwice(t: CpuTime, now: nat)
    ensures var s := Sample(Some(t), t, now); s.totalLoad == 0.0 && s.userLoad == 0.0 && s.systemLoad == 0.0
  {
  }

  /** Active up by 100 while the total is up by 200 is a total load of 50. */
  lemma HalfActive(last: CpuTime, current: CpuTime, now: nat)
    requires current.Total() == last.Total() + 200
    requires current.Active() == last.Active() + 100
    ensures Sample(Some(last), current, now).totalLoad == 50.0
  {
  }

  // ---------------------------------------------------------------------------
  // The collector

  /** `CpuCollector`: its one field is the reading of the previous successful collect. */
  class CpuCollector {
    var lastCpuTime: Option<CpuTime>

    /** `CpuCollector::new`: no baseline yet. */
    constructor ()
      ensures lastCpuTime == None
    {
      lastCpuTime := None;
    }

    /** `CpuCollector::collect`: read the counters (a failure returns at once,
        before the baseline is touched), compute the sample against the
        baseline, and keep the new reading as the baseline. */
    method Collect(now: nat, read: Result<string, IoError>) returns (r: Result<CpuStats, CpuError>)
      modifies this
      ensures Step(r, lastCpuTime) == CollectStep(old(lastCpuTime), now, read)
    {
      var currentCpu :- ReadProcStat(read);
      var stats: CpuStats;
      match lastCpuTime {
        case Some(lastCpu) =>
          var totalDelta := SaturatingSub(currentCpu.Total(), lastCpu.Total());
          var activeDelta := SaturatingSub(currentCpu.Active(), lastCpu.Active());
          var userDelta := SaturatingSub(currentCpu.UserTime(), lastCpu.UserTime());
          var systemDelta := SaturatingSub(currentCpu.SystemTime(), lastCpu.SystemTime());
          var totalLoad := if totalDelta > 0 then (activeDelta as real / totalDelta as real) * 100.0 else 0.0;
          var userLoad := if totalDelta > 0 then (userDelta as real / totalDelta as real) * 100.0 else 0.0;
          var systemLoad := if totalDelta > 0 then (systemDelta as real / totalDelta as real) * 100.0 else 0.0;
          stats := CpuStats(now, totalLoad, userLoad, systemLoad);
          assert stats == Sample(Some(lastCpu), currentCpu, now);
        case None =>
          stats := CpuStats(now, 0.0, 0.0, 0.0);
      }
      lastCpuTime := Some(currentCpu);
      r := Ok(stats);
    }
  }

  /** The first `collect` on a new collector reports zero loads, whatever it reads. */
  method FirstCollect(now: nat, read: Result<string, IoError>) returns (r: Result<CpuStats, CpuError>)
    ensures r.Ok? <==> ReadProcStat(read).Ok?
    ensures r.Ok? ==> r.value == CpuStats(now, 0.0, 0.0, 0.0)
  {
    var collector := new CpuCollector();
    r := collector.Collect(now, read);
  }
}
