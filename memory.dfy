/** The memory collector (src/collectors/memory.rs): a tolerant scan of
    /proc/meminfo for `MemTotal:` and `MemAvailable:`, then the used and total
    sizes in MB and the usage percentage. The clock and the file read are
    inputs: `clock` is the millisecond timestamp, or `None` when the system
    time lies before the Unix epoch; `read` is the outcome of reading
    /proc/meminfo. */
module Memory {
  import opened Wrappers
  import opened Numeric
  import opened Text

  /** One memory sample. */
  datatype MemoryStats = MemoryStats(time: nat, usagePercent: real, usedMb: nat, totalMb: nat)

  /** Why a memory reading failed ("Failed to get system time", "Failed to
      read /proc/meminfo"). */
  datatype MemoryError = ClockFailed | ReadFailed(cause: IoError)

  const MEM_TOTAL: string := "MemTotal:"
  const MEM_AVAILABLE: string := "MemAvailable:"

  // ---------------------------------------------------------------------------
  // The line scan

  /** The value after a key: the first whitespace-separated token of the
      trimmed rest of the line, as a `u64`; a missing or non-numeric token
      gives 0. */
  function FieldValue(value: string): (n: nat)
    ensures n <= U64_MAX
    ensures SplitWhitespace(value) == [] ==> n == 0
    ensures SplitWhitespace(value) != [] && ParseU64(SplitWhitespace(value)[0]).None? ==> n == 0
    ensures SplitWhitespace(value) != [] && ParseU64(SplitWhitespace(value)[0]).Some? ==>
      n == ParseU64(SplitWhitespace(value)[0]).value
  {
    SplitWhitespaceTrim(value);
    var words := SplitWhitespace(Trim(value));
    if words == [] then 0
    else match ParseU64(words[0])
      case Some(n) => n
      case None => 0
  }

  /** The value of the last line that starts with `key`, or 0 when no line does. */
  function LastValue(lines: seq<string>, key: string): nat
    decreases |lines|
  {
    if lines == [] then 0
    else match StripPrefix(lines[|lines| - 1], key)
      case Some(value) => FieldValue(value)
      case None => LastValue(lines[..|lines| - 1], key)
  }

  /** One more line: it sets the value when it starts with `key`, and
      otherwise the value stays. */
  lemma LastValueSnoc(init: seq<string>, line: string, key: string)
    ensures LastValue(init + [line], key) ==
      if StartsWith(line, key) then FieldValue(line[|key|..]) else LastValue(init, key)
  {
    var all := init + [line];
    assert all[|all| - 1] == line && all[..|all| - 1] == init;
  }

  /** The same, for the first `i + 1` lines of a text. */
  lemma LastValueNext(lines: seq<string>, i: nat, key: string)
    requires i < |lines|
    ensures LastValue(lines[..i + 1], key) ==
      if StartsWith(lines[i], key) then FieldValue(lines[i][|key|..]) else LastValue(lines[..i], key)
  {
    TakeNext(lines, i);
    LastValueSnoc(lines[..i], lines[i], key);
  }

  /** The two values the scan picks out of the lines of /proc/meminfo. */
  datatype Meminfo = Meminfo(totalKb: nat, availableKb: nat)

  /** What the scan leaves in `total_kb` and `available_kb`. */
  function MeminfoOfLines(lines: seq<string>): Meminfo {
    Meminfo(LastValue(lines, MEM_TOTAL), LastValue(lines, MEM_AVAILABLE))
  }

  /** The scan of the whole file, as a function of its text. */
  function ParseMeminfo(content: string): Meminfo {
    MeminfoOfLines(Lines(content))
  }

  /** No line starts with both keys, so the `else if` never hides a
      `MemAvailable:` line. */
  lemma KeysExclusive(line: string)
    requires StartsWith(line, MEM_TOTAL)
    ensures !StartsWith(line, MEM_AVAILABLE)
  {
    assert line[3] == 'T' by {
      assert line[..|MEM_TOTAL|][3] == line[3];
    }
  }

  /** The loop of `MemoryCollector::collect` over the lines: a `MemTotal:` line
      sets the total, otherwise a `MemAvailable:` line sets the available
      size; both start at 0. */
  method ScanMeminfo(content: string) returns (totalKb: nat, availableKb: nat)
    ensures Meminfo(totalKb, availableKb) == ParseMeminfo(content)
  {
    totalKb, availableKb := ScanLines(Lines(content));
  }

  /** The loop itself, over the lines of the file. */
  method ScanLines(lines: seq<string>) returns (totalKb: nat, availableKb: nat)
    ensures Meminfo(totalKb, availableKb) == MeminfoOfLines(lines)
  {
    totalKb := 0;
    availableKb := 0;
    for i := 0 to |lines|
      invariant totalKb == LastValue(lines[..i], MEM_TOTAL)
      invariant availableKb == LastValue(lines[..i], MEM_AVAILABLE)
    {
      var line := lines[i];
      LastValueNext(lines, i, MEM_TOTAL);
      LastValueNext(lines, i, MEM_AVAILABLE);
      if StartsWith(line, MEM_TOTAL) {
        KeysExclusive(line);
      }
      var total := StripPrefix(line, MEM_TOTAL);
      if total.Some? {
        totalKb := FieldValue(total.value);
      } else {
        var available := StripPrefix(line, MEM_AVAILABLE);
        if available.Some? {
          availableKb := FieldValue(available.value);
        }
      }
    }
    assert lines[..|lines|] == lines;
  }

  // ---------------------------------------------------------------------------
  // Properties of the scan

  /** A line that does not start with `key` changes nothing, wherever it stands. */
  lemma {:induction false} IgnoredLine(before: seq<string>, line: string, after: seq<string>, key: string)
    requires !StartsWith(line, key)
    ensures LastValue(before + [line] + after, key) == LastValue(before + after, key)
    decreases |after|
  {
    if after == [] {
      LastValueSnoc(before, line, key);
      assert before + [line] + after == before + [line];
      assert before + after == before;
    } else {
      var last := after[|after| - 1];
      var init := after[..|after| - 1];
      assert before + [line] + after == (before + [line] + init) + [last];
      assert before + after == (before + init) + [last];
      LastValueSnoc(before + [line] + init, last, key);
      LastValueSnoc(before + init, last, key);
      IgnoredLine(before, line, init, key);
    }
  }

  /** Lines that start with neither key do not affect the scan. */
  lemma OtherLineIgnored(before: seq<string>, line: string, after: seq<string>)
    requires !StartsWith(line, MEM_TOTAL) && !StartsWith(line, MEM_AVAILABLE)
    ensures MeminfoOfLines(before + [line] + after) == MeminfoOfLines(before + after)
  {
    IgnoredLine(before, line, after, MEM_TOTAL);
    IgnoredLine(before, line, after, MEM_AVAILABLE);
  }

  /** The last line that starts with `key` gives the value; earlier ones do not count. */
  lemma {:induction false} LastOccurrenceWins(before: seq<string>, line: string, after: seq<string>, key: string)
    requires StartsWith(line, key)
    requires forall k :: 0 <= k < |after| ==> !StartsWith(after[k], key)
    ensures LastValue(before + [line] + after, key) == FieldValue(line[|key|..])
    decreases |after|
  {
    if after == [] {
      LastValueSnoc(before, line, key);
      assert before + [line] + after == before + [line];
    } else {
      var last := after[|after| - 1];
      var init := after[..|after| - 1];
      assert before + [line] + after == (before + [line] + init) + [last];
      assert !StartsWith(last, key);
      LastValueSnoc(before + [line] + init, last, key);
      LastOccurrenceWins(before, line, init, key);
    }
  }

  /** A key that starts no line leaves its value at 0. */
  lemma {:induction false} AbsentKey(lines: seq<string>, key: string)
    requires forall k :: 0 <= k < |lines| ==> !StartsWith(lines[k], key)
    ensures LastValue(lines, key) == 0
    decreases |lines|
  {
    if lines != [] {
      var init := lines[..|lines| - 1];
      assert lines == init + [lines[|lines| - 1]];
      LastValueSnoc(init, lines[|lines| - 1], key);
      AbsentKey(init, key);
    }
  }

  /** A value printed in decimal after blanks, and followed by nothing or by
      blanks and more (such as ` kB`), reads back as that value. */
  lemma PrintedValue(gap: string, n: nat, rest: string)
    requires n <= U64_MAX
    requires forall i :: 0 <= i < |gap| ==> IsWhitespace(gap[i])
    requires rest == [] || IsWhitespace(rest[0])
    ensures FieldValue(gap + NatToString(n) + rest) == n
  {
    SplitWhitespaceFirst(gap, NatToString(n), rest);
    ParseU64NatToString(n);
  }

  // ---------------------------------------------------------------------------
  // Sizes and percentage

  /** The sample for the scanned values: used is total minus available,
      clamped at zero; both sizes are truncated to whole MB; the percentage is
      used over total, or 0 when the total is 0. */
  function Usage(now: nat, totalKb: nat, availableKb: nat): (s: MemoryStats)
    ensures s.time == now
    ensures s.totalMb * 1024 <= totalKb < (s.totalMb + 1) * 1024
    ensures availableKb <= totalKb ==> s.usedMb * 1024 <= totalKb - availableKb < (s.usedMb + 1) * 1024
    ensures availableKb >= totalKb ==> s.usedMb == 0 && s.usagePercent == 0.0
    ensures s.usedMb <= s.totalMb
    ensures totalKb == 0 ==> s.usagePercent == 0.0
    ensures totalKb > 0 ==> s.usagePercent * totalKb as real == SaturatingSub(totalKb, availableKb) as real * 100.0
    ensures 0.0 <= s.usagePercent <= 100.0
  {
    var usedKb := SaturatingSub(totalKb, availableKb);
    MemoryStats(now, Percent(usedKb, totalKb), usedKb / 1024, totalKb / 1024)
  }

  /** `MemoryCollector::collect` as a function of the clock and the read. */
  function CollectResult(clock: Option<nat>, read: Result<string, IoError>): Result<MemoryStats, MemoryError> {
    match clock
    case None => Err(ClockFailed)
    case Some(now) =>
      match read
      case Err(e) => Err(ReadFailed(e))
      case Ok(content) =>
        var m := ParseMeminfo(content);
        Ok(Usage(now, m.totalKb, m.availableKb))
  }

  /** Only the clock and the read can fail, the clock first; every text,
      however malformed, gives a sample with a percentage in [0, 100]. */
  lemma CollectErrors(clock: Option<nat>, read: Result<string, IoError>)
    ensures CollectResult(clock, read).Err? <==> clock.None? || read.Err?
    ensures clock.None? ==> CollectResult(clock, read) == Err(ClockFailed)
    ensures clock.Some? && read.Err? ==> CollectResult(clock, read) == Err(ReadFailed(read.error))
    ensures CollectResult(clock, read).Ok? ==>
      var s := CollectResult(clock, read).value;
      s.time == clock.value && 0.0 <= s.usagePercent <= 100.0 && s.usedMb <= s.totalMb
  {
  }

  /** `MemoryCollector::collect`: take the time, read the file, scan it and
      compute the sample. */
  method Collect(clock: Option<nat>, read: Result<string, IoError>) returns (r: Result<MemoryStats, MemoryError>)
    ensures r == CollectResult(clock, read)
  {
    if clock.None? {
      return Err(ClockFailed);
    }
    var now := clock.value;
    if read.Err? {
      return Err(ReadFailed(read.error));
    }
    var totalKb, availableKb := ScanMeminfo(read.value);
    var usedKb := SaturatingSub(totalKb, availableKb);
    var totalMb := totalKb / 1024;
    var usedMb := usedKb / 1024;
    var usagePercent := if totalKb > 0 then (usedKb as real / totalKb as real) * 100.0 else 0.0;
    assert usagePercent == Percent(usedKb, totalKb);
    assert MemoryStats(now, usagePercent, usedMb, totalMb) == Usage(now, totalKb, availableKb);
    r := Ok(MemoryStats(now, usagePercent, usedMb, totalMb));
  }
}
