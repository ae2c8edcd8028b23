/** The Mermaid chart of the CPU samples (src/reporters/mermaid.rs): a fixed
    placeholder for no data, otherwise a header, the x-axis labels (every
    fifth sample and the last, in seconds), the y-axis bound and three data
    rows. The `{:.1}` float formatting is the parameter `fmt`. */
module Mermaid {
  import opened Wrappers
  import opened Numeric
  import opened Text
  import opened Cpu

  // ---------------------------------------------------------------------------
  // The placeholder

  /** The lines of the placeholder for no data; its header spells `xyChart-beta`. */
  const EMPTY_CHART_LINES: seq<string> := [
    "```mermaid",
    "%%{init: {'theme':'base'}}%%",
    "xyChart-beta",
    "    title \"No CPU data\"",
    "    x-axis [0]",
    "    y-axis \"CPU %\" 0 --> 10",
    "```"]

  /** The placeholder: its lines joined by line breaks, with none after the
      closing fence. */
  const EMPTY_CHART: string := Join(EMPTY_CHART_LINES, "\n")

  // ---------------------------------------------------------------------------
  // Axes

  /** Sample `i` of `n` gets an x-axis label. */
  predicate Labelled(i: nat, n: nat) {
    i % 5 == 0 || i == n - 1
  }

  /** The labelled indices from `i` up to `n`, in order: the `filter` over
      `enumerate`. */
  function LabelIndicesFrom(i: nat, n: nat): (r: seq<nat>)
    ensures forall k :: k in r <==> i <= k < n && Labelled(k, n)
    ensures forall a :: 0 <= a < |r| ==> i <= r[a] < n
    ensures forall a, b :: 0 <= a < b < |r| ==> r[a] < r[b]
    decreases n - i
  {
    if i >= n then []
    else
      var rest := LabelIndicesFrom(i + 1, n);
      assert forall b :: 0 <= b < |rest| ==> rest[b] in rest;
      if Labelled(i, n) then [i] + rest else rest
  }

  function LabelIndices(n: nat): seq<nat> {
    LabelIndicesFrom(0, n)
  }

  /** The first and the last sample are always labelled. */
  lemma EndsLabelled(n: nat)
    requires n > 0
    ensures 0 in LabelIndices(n) && n - 1 in LabelIndices(n)
  {
    assert Labelled(0, n) && Labelled(n - 1, n);
  }

  /** No index is labelled twice. */
  lemma LabelsDistinct(n: nat)
    ensures forall a, b :: 0 <= a < |LabelIndices(n)| && 0 <= b < |LabelIndices(n)| && a != b ==>
      LabelIndices(n)[a] != LabelIndices(n)[b]
  {
    var r := LabelIndices(n);
    forall a, b | 0 <= a < |r| && 0 <= b < |r| && a != b
      ensures r[a] != r[b]
    {
      if a < b {
        assert r[a] < r[b];
      } else {
        assert r[b] < r[a];
      }
    }
  }

  /** The label of every selected sample: its time in whole seconds. */
  function TimeLabels(data: seq<CpuStats>): (labels: seq<string>)
    ensures |labels| == |LabelIndices(|data|)|
    ensures forall j :: 0 <= j < |labels| ==>
      labels[j] == NatToString(data[LabelIndices(|data|)[j]].time / 1000)
  {
    var idx := LabelIndices(|data|);
    seq(|idx|, j requires 0 <= j < |idx| => NatToString(data[idx[j]].time / 1000))
  }

  function MaxReal(a: real, b: real): real {
    if a >= b then a else b
  }

  /** `fold(acc, f64::max)` over the values. */
  function FoldMax(acc: real, values: seq<real>): (m: real)
    ensures acc <= m
    ensures forall k :: 0 <= k < |values| ==> values[k] <= m
    ensures m == acc || exists k :: 0 <= k < |values| && m == values[k]
    decreases |values|
  {
    if values == [] then acc
    else
      var m := FoldMax(MaxReal(acc, values[0]), values[1..]);
      assert forall k :: 1 <= k < |values| ==> values[k] == values[1..][k - 1];
      assert m == MaxReal(acc, values[0]) || exists k :: 1 <= k < |values| && m == values[k];
      m
  }

  function TotalLoads(data: seq<CpuStats>): (loads: seq<real>)
    ensures |loads| == |data| && forall k :: 0 <= k < |data| ==> loads[k] == data[k].totalLoad
  {
    seq(|data|, k requires 0 <= k < |data| => data[k].totalLoad)
  }

  function UserLoads(data: seq<CpuStats>): (loads: seq<real>)
    ensures |loads| == |data| && forall k :: 0 <= k < |data| ==> loads[k] == data[k].userLoad
  {
    seq(|data|, k requires 0 <= k < |data| => data[k].userLoad)
  }

  function SystemLoads(data: seq<CpuStats>): (loads: seq<real>)
    ensures |loads| == |data| && forall k :: 0 <= k < |data| ==> loads[k] == data[k].systemLoad
  {
    seq(|data|, k requires 0 <= k < |data| => data[k].systemLoad)
  }

  /** The y-axis bound: the largest total load, at least 10, rounded up and
      cast to `i32`. It is at least 10 and, unless the cast saturates, the
      least integer not below any total load nor below 10. */
  function YAxisMax(data: seq<CpuStats>): (r: int)
    ensures 10 <= r <= I32_MAX
    ensures r < I32_MAX ==> forall k :: 0 <= k < |data| ==> data[k].totalLoad <= r as real
    ensures r < I32_MAX ==>
      ((r - 1) as real < 10.0 || exists k :: 0 <= k < |data| && (r - 1) as real < data[k].totalLoad)
  {
    var loads := TotalLoads(data);
    var m := MaxReal(FoldMax(0.0, loads), 10.0);
    var c := Ceil(m);
    assert forall k :: 0 <= k < |data| ==> loads[k] == data[k].totalLoad;
    SaturatingToI32(c)
  }

  // ---------------------------------------------------------------------------
  // The chart

  /** `f64` values as `format!("{:.1}", ...)` prints them. */
  type Format = real -> string

  /** The formatted values joined by `", "`. */
  function Entries(values: seq<real>, fmt: Format): (parts: seq<string>)
    ensures |parts| == |values| && forall k :: 0 <= k < |values| ==> parts[k] == fmt(values[k])
  {
    seq(|values|, k requires 0 <= k < |values| => fmt(values[k]))
  }

  const LINE_OPEN: string := "    line ["
  const X_AXIS_OPEN: string := "    x-axis ["
  const Y_AXIS_OPEN: string := "    y-axis \"CPU %\" 0 --> "

  function XAxisLine(data: seq<CpuStats>): string {
    X_AXIS_OPEN + Join(TimeLabels(data), ", ") + "]"
  }

  /** `format!("    y-axis \"CPU %\" 0 --> {}", bound)`. */
  function YAxisText(bound: int): string
    requires bound >= 0
  {
    Y_AXIS_OPEN + NatToString(bound as nat)
  }

  function YAxisLine(data: seq<CpuStats>): string {
    YAxisText(YAxisMax(data))
  }

  function RowLine(values: seq<real>, fmt: Format): string {
    LINE_OPEN + Join(Entries(values, fmt), ", ") + "]"
  }

  /** The header of a chart with data; it spells `xychart-beta`. */
  const CHART_HEADER: seq<string> := [
    "```mermaid",
    "%%{init: {'theme':'base'}}%%",
    "xychart-beta",
    "    title \"CPU Usage Over Time\""]

  /** The ten lines of a chart with data, in the order they are pushed. */
  function ChartLines(data: seq<CpuStats>, fmt: Format): seq<string> {
    CHART_HEADER + [XAxisLine(data)] + [YAxisLine(data)] + [RowLine(TotalLoads(data), fmt)] +
    [RowLine(UserLoads(data), fmt)] + [RowLine(SystemLoads(data), fmt)] + ["```"]
  }

  /** A chart with data opens with the `mermaid` fence. */
  lemma ChartOpensWithFence(data: seq<CpuStats>, fmt: Format)
    ensures ChartLines(data, fmt)[0] == "```mermaid"
  {
    assert ChartLines(data, fmt)[0] == CHART_HEADER[0];
  }

  /** `generate_cpu_chart` as a function: the placeholder for no data,
      otherwise the ten lines, each ended by a line break. */
  function CpuChart(data: seq<CpuStats>, fmt: Format): string {
    if data == [] then EMPTY_CHART else Join(ChartLines(data, fmt), "\n") + "\n"
  }

  /** Pushing a line and a line break onto lines that are each ended by a
      line break gives one line more. */
  lemma PushLine(done: seq<string>, line: string, before: string, after: string) returns (lines: seq<string>)
    requires |done| >= 1
    requires before == Join(done, "\n") + "\n"
    requires after == before + line + "\n"
    ensures lines == done + [line]
    ensures after == Join(lines, "\n") + "\n"
  {
    lines := done + [line];
    JoinSnoc(done, line, "\n");
  }

  /** The four header lines, each pushed with its line break. */
  method PushHeader() returns (c: string, ghost lines: seq<string>)
    ensures c == Join(CHART_HEADER, "\n") + "\n"
    ensures lines == CHART_HEADER && c == Join(lines, "\n") + "\n"
  {
    c := "";
    c := c + "```mermaid\n";
    lines := ["```mermaid"];
    var before := c;
    c := c + "%%{init: {'theme':'base'}}%%\n";
    lines := PushLine(lines, "%%{init: {'theme':'base'}}%%", before, c);
    before := c;
    c := c + "xychart-beta\n";
    lines := PushLine(lines, "xychart-beta", before, c);
    before := c;
    c := c + "    title \"CPU Usage Over Time\"\n";
    lines := PushLine(lines, "    title \"CPU Usage Over Time\"", before, c);
  }

  /** The x-axis line: the labels joined by `", "` inside brackets. */
  method PushXAxis(chart: string, ghost done: seq<string>, data: seq<CpuStats>)
      returns (c: string, ghost lines: seq<string>)
    requires |done| >= 1 && chart == Join(done, "\n") + "\n"
    ensures c == chart + XAxisLine(data) + "\n"
    ensures lines == done + [XAxisLine(data)] && c == Join(lines, "\n") + "\n"
  {
    c := chart + X_AXIS_OPEN;
    var timeLabels := TimeLabels(data);
    c := c + Join(timeLabels, ", ");
    c := c + "]\n";
    lines := PushLine(done, XAxisLine(data), chart, c);
  }

  /** The y-axis line with the bound. */
  method PushYAxis(chart: string, ghost done: seq<string>, data: seq<CpuStats>)
      returns (c: string, ghost lines: seq<string>)
    requires |done| >= 1 && chart == Join(done, "\n") + "\n"
    ensures c == chart + YAxisLine(data) + "\n"
    ensures lines == done + [YAxisLine(data)] && c == Join(lines, "\n") + "\n"
  {
    var maxCpu := YAxisMax(data);
    var formatted := YAxisText(maxCpu);
    c := chart + formatted + "\n";
    lines := PushLine(done, YAxisLine(data), chart, c);
  }

  /** One data row: the formatted values joined by `", "` inside brackets. */
  method PushRow(chart: string, ghost done: seq<string>, values: seq<real>, fmt: Format)
      returns (c: string, ghost lines: seq<string>)
    requires |done| >= 1 && chart == Join(done, "\n") + "\n"
    ensures c == chart + RowLine(values, fmt) + "\n"
    ensures lines == done + [RowLine(values, fmt)] && c == Join(lines, "\n") + "\n"
  {
    c := chart + LINE_OPEN;
    var entries := Entries(values, fmt);
    c := c + Join(entries, ", ");
    c := c + "]\n";
    lines := PushLine(done, RowLine(values, fmt), chart, c);
  }

  /** The closing fence. */
  method PushFence(chart: string, ghost done: seq<string>) returns (c: string, ghost lines: seq<string>)
    requires |done| >= 1 && chart == Join(done, "\n") + "\n"
    ensures c == chart + "```\n"
    ensures lines == done + ["```"] && c == Join(lines, "\n") + "\n"
  {
    c := chart + "```\n";
    lines := PushLine(done, "```", chart, c);
  }

  /** `generate_cpu_chart`: the chart grows one `push_str` at a time. */
  method GenerateCpuChart(data: seq<CpuStats>, fmt: Format) returns (chart: string)
    ensures chart == CpuChart(data, fmt)
  {
    if |data| == 0 {
      return EMPTY_CHART;
    }
    ghost var done;
    chart, done := PushHeader();
    chart, done := PushXAxis(chart, done, data);
    chart, done := PushYAxis(chart, done, data);
    chart, done := PushRow(chart, done, TotalLoads(data), fmt);
    chart, done := PushRow(chart, done, UserLoads(data), fmt);
    chart, done := PushRow(chart, done, SystemLoads(data), fmt);

    chart, done := PushFence(chart, done);
  }

  // ---------------------------------------------------------------------------
  // Reading the chart back

  /** The placeholder has exactly its seven lines, the last being the fence. */
  lemma EmptyChartRead()
    ensures Lines(EMPTY_CHART) == EMPTY_CHART_LINES
    ensures EMPTY_CHART_LINES[3] == "    title \"No CPU data\""
    ensures EMPTY_CHART_LINES[4] == "    x-axis [0]"
    ensures EMPTY_CHART_LINES[5] == "    y-axis \"CPU %\" 0 --> 10"
  {
    EmptyChartPlain();
    LinesOfJoined(EMPTY_CHART_LINES);
  }

  /** The placeholder lines are plain lines. */
  lemma EmptyChartPlain()
    ensures forall k :: 0 <= k < |EMPTY_CHART_LINES| ==> PlainLine(EMPTY_CHART_LINES[k])
  {
    assert PlainLine(EMPTY_CHART_LINES[0]);
    assert PlainLine(EMPTY_CHART_LINES[1]);
    assert PlainLine(EMPTY_CHART_LINES[2]);
    assert PlainLine(EMPTY_CHART_LINES[3]);
    assert PlainLine(EMPTY_CHART_LINES[4]);
    assert PlainLine(EMPTY_CHART_LINES[5]);
    assert PlainLine(EMPTY_CHART_LINES[6]);
  }

  /** The two headers differ in one letter: the placeholder writes
      `xyChart-beta`, a chart with data `xychart-beta`. */
  lemma HeaderSpellings()
    ensures EMPTY_CHART_LINES[2] == "xyChart-beta" && CHART_HEADER[2] == "xychart-beta"
    ensures EMPTY_CHART_LINES[2][2] == 'C' && CHART_HEADER[2][2] == 'c'
    ensures EMPTY_CHART_LINES[..2] == CHART_HEADER[..2]
  {
  }

  /** The header lines are plain lines. */
  lemma HeaderPlain()
    ensures AllPlain(CHART_HEADER) && PlainLine("```")
  {
    assert PlainLine(CHART_HEADER[0]);
    assert PlainLine(CHART_HEADER[1]);
    assert PlainLine(CHART_HEADER[2]);
    assert PlainLine(CHART_HEADER[3]);
  }

  /** The x-axis line is a plain line. */
  lemma XAxisPlain(data: seq<CpuStats>)
    ensures PlainLine(XAxisLine(data))
  {
    var labels := TimeLabels(data);
    forall k | 0 <= k < |labels|
      ensures '\n' !in labels[k]
    {
    }
    JoinAvoids(labels, ", ", '\n');
  }

  lemma YAxisOpenUnbroken()
    ensures '\n' !in Y_AXIS_OPEN
  {
  }

  /** The y-axis line is a plain line. */
  lemma YAxisPlain(data: seq<CpuStats>)
    ensures PlainLine(YAxisLine(data))
  {
    var digits := NatToString(YAxisMax(data) as nat);
    DigitsPlain(digits);
    YAxisOpenUnbroken();
    PlainAppend(Y_AXIS_OPEN, digits);
  }

  /** Every line of a chart with data is a plain line, provided the formatter
      prints no line break. */
  lemma ChartLinesPlain(data: seq<CpuStats>, fmt: Format)
    requires forall x :: '\n' !in fmt(x)
    ensures AllPlain(ChartLines(data, fmt))
  {
    HeaderPlain();
    XAxisPlain(data);
    YAxisPlain(data);
    RowsPlain(data, fmt);
    SixPlain(CHART_HEADER, XAxisLine(data), YAxisLine(data), RowLine(TotalLoads(data), fmt),
      RowLine(UserLoads(data), fmt), RowLine(SystemLoads(data), fmt), "```");
  }

  /** Six plain lines after plain lines keep all lines plain. */
  lemma SixPlain(head: seq<string>, a: string, b: string, c: string, d: string, e: string, f: string)
    requires AllPlain(head)
    requires PlainLine(a) && PlainLine(b) && PlainLine(c) && PlainLine(d) && PlainLine(e) && PlainLine(f)
    ensures AllPlain(head + [a] + [b] + [c] + [d] + [e] + [f])
  {
    PlainSnoc(head, a);
    PlainSnoc(head + [a], b);
    PlainSnoc(head + [a] + [b], c);
    PlainSnoc(head + [a] + [b] + [c], d);
    PlainSnoc(head + [a] + [b] + [c] + [d], e);
    PlainSnoc(head + [a] + [b] + [c] + [d] + [e], f);
  }

  predicate ChartInitial(c: char) {
    c == '`' || c == '%' || c == 'x' || c == ' '
  }

  /** A non-empty line that begins with a backquote, a percent sign, an `x`
      or a blank. */
  predicate InitialLine(line: string) {
    line != [] && ChartInitial(line[0])
  }

  predicate AllInitial(lines: seq<string>) {
    forall k :: 0 <= k < |lines| ==> InitialLine(lines[k])
  }

  lemma InitialSnoc(lines: seq<string>, line: string)
    requires AllInitial(lines) && InitialLine(line)
    ensures AllInitial(lines + [line])
  {
    assert forall k :: 0 <= k < |lines| ==> (lines + [line])[k] == lines[k];
  }

  /** Six such lines after such lines. */
  lemma SixInitial(head: seq<string>, a: string, b: string, c: string, d: string, e: string, f: string)
    requires AllInitial(head)
    requires InitialLine(a) && InitialLine(b) && InitialLine(c) && InitialLine(d) && InitialLine(e) && InitialLine(f)
    ensures AllInitial(head + [a] + [b] + [c] + [d] + [e] + [f])
  {
    InitialSnoc(head, a);
    InitialSnoc(head + [a], b);
    InitialSnoc(head + [a] + [b], c);
    InitialSnoc(head + [a] + [b] + [c], d);
    InitialSnoc(head + [a] + [b] + [c] + [d], e);
    InitialSnoc(head + [a] + [b] + [c] + [d] + [e], f);
  }

  /** Every chart line is non-empty and begins with a backquote, a percent
      sign, an `x` or a blank. */
  lemma ChartLinesInitials(data: seq<CpuStats>, fmt: Format)
    ensures AllInitial(ChartLines(data, fmt))
  {
    assert InitialLine(CHART_HEADER[0]) && InitialLine(CHART_HEADER[1]);
    assert InitialLine(CHART_HEADER[2]) && InitialLine(CHART_HEADER[3]);
    assert AllInitial(CHART_HEADER);
    assert XAxisLine(data)[0] == X_AXIS_OPEN[0] == ' ';
    assert YAxisLine(data)[0] == Y_AXIS_OPEN[0] == ' ';
    assert RowLine(TotalLoads(data), fmt)[0] == LINE_OPEN[0] == ' ';
    assert RowLine(UserLoads(data), fmt)[0] == LINE_OPEN[0];
    assert RowLine(SystemLoads(data), fmt)[0] == LINE_OPEN[0];
    assert InitialLine("```");
    SixInitial(CHART_HEADER, XAxisLine(data), YAxisLine(data), RowLine(TotalLoads(data), fmt),
      RowLine(UserLoads(data), fmt), RowLine(SystemLoads(data), fmt), "```");
  }

  /** The three data rows are plain lines. */
  lemma RowsPlain(data: seq<CpuStats>, fmt: Format)
    requires forall x :: '\n' !in fmt(x)
    ensures PlainLine(RowLine(TotalLoads(data), fmt))
    ensures PlainLine(RowLine(UserLoads(data), fmt))
    ensures PlainLine(RowLine(SystemLoads(data), fmt))
  {
    RowPlain(TotalLoads(data), fmt);
    RowPlain(UserLoads(data), fmt);
    RowPlain(SystemLoads(data), fmt);
  }

  lemma RowPlain(values: seq<real>, fmt: Format)
    requires forall x :: '\n' !in fmt(x)
    ensures PlainLine(RowLine(values, fmt))
  {
    var entries := Entries(values, fmt);
    forall k | 0 <= k < |entries|
      ensures '\n' !in entries[k]
    {
      var x := values[k];
      assert entries[k] == fmt(x) && '\n' !in fmt(x);
    }
    JoinAvoids(entries, ", ", '\n');
  }

  /** A chart with data reads back, line by line, as its ten lines: it opens
      with the `mermaid` fence and closes with the bare fence and a line break. */
  lemma ChartRead(data: seq<CpuStats>, fmt: Format)
    requires data != []
    requires forall x :: '\n' !in fmt(x)
    ensures Lines(CpuChart(data, fmt)) == ChartLines(data, fmt)
    ensures Lines(CpuChart(data, fmt))[0] == "```mermaid"
    ensures Lines(CpuChart(data, fmt))[9] == "```"
    ensures CpuChart(data, fmt)[|CpuChart(data, fmt)| - 1] == '\n'
  {
    var lines := ChartLines(data, fmt);
    var body := Join(lines, "\n");
    assert CpuChart(data, fmt) == body + "\n";
    ChartLinesPlain(data, fmt);
    LinesOfTerminated(lines);
  }

  /** Reads a bracketed list line such as `    line [a, b]` back: the entries
      between `open` and the closing bracket, split at `", "`. */
  function ReadList(line: string, open: string): Option<seq<string>> {
    if StartsWith(line, open) && |line| > |open| && line[|line| - 1] == ']' then
      Some(Split(line[|open|..|line| - 1], ", "))
    else None
  }

  /** A list line reads back as its items when no item holds a comma. */
  lemma ListRead(open: string, items: seq<string>)
    requires |items| >= 1
    requires forall k :: 0 <= k < |items| ==> ',' !in items[k]
    ensures ReadList(open + Join(items, ", ") + "]", open) == Some(items)
  {
    var body := Join(items, ", ");
    var line := open + body + "]";
    assert line[..|open|] == open;
    assert line[|open|..|line| - 1] == body;
    SplitJoin(items, ", ");
  }

  /** Each data row reads back as one formatted entry per value, in order,
      provided the formatter prints no comma. */
  lemma RowRead(values: seq<real>, fmt: Format)
    requires values != []
    requires forall x :: ',' !in fmt(x)
    ensures ReadList(RowLine(values, fmt), LINE_OPEN) == Some(Entries(values, fmt))
    ensures var read := ReadList(RowLine(values, fmt), LINE_OPEN);
      read.Some? && |read.value| == |values| && forall k :: 0 <= k < |values| ==> read.value[k] == fmt(values[k])
  {
    var entries := Entries(values, fmt);
    forall k | 0 <= k < |entries|
      ensures ',' !in entries[k]
    {
      var x := values[k];
      assert entries[k] == fmt(x) && ',' !in fmt(x);
    }
    ListRead(LINE_OPEN, entries);
  }

  /** The three data rows of a chart read back as the formatted total, user
      and system load of each sample, in data order. */
  lemma ChartRowsRead(data: seq<CpuStats>, fmt: Format)
    requires data != []
    requires forall x :: ',' !in fmt(x)
    ensures var lines := ChartLines(data, fmt);
      var total, user, system := ReadList(lines[6], LINE_OPEN), ReadList(lines[7], LINE_OPEN), ReadList(lines[8], LINE_OPEN);
      && total.Some? && |total.value| == |data|
      && user.Some? && |user.value| == |data|
      && system.Some? && |system.value| == |data|
      && forall k :: 0 <= k < |data| ==>
           && total.value[k] == fmt(data[k].totalLoad)
           && user.value[k] == fmt(data[k].userLoad)
           && system.value[k] == fmt(data[k].systemLoad)
  {
    var lines := ChartLines(data, fmt);
    assert lines[6] == RowLine(TotalLoads(data), fmt);
    assert lines[7] == RowLine(UserLoads(data), fmt);
    assert lines[8] == RowLine(SystemLoads(data), fmt);
    RowRead(TotalLoads(data), fmt);
    RowRead(UserLoads(data), fmt);
    RowRead(SystemLoads(data), fmt);
  }

  /** The x-axis reads back as one label per labelled sample, in order, and
      each label parses back as that sample's time in whole seconds. */
  lemma LabelsRead(data: seq<CpuStats>)
    requires data != []
    requires forall k :: 0 <= k < |data| ==> data[k].time <= U64_MAX
    ensures var labels := ReadList(XAxisLine(data), X_AXIS_OPEN);
      labels == Some(TimeLabels(data)) &&
      |labels.value| == |LabelIndices(|data|)| &&
      forall j :: 0 <= j < |labels.value| ==>
        ParseU64(labels.value[j]) == Some(data[LabelIndices(|data|)[j]].time / 1000)
  {
    var labels := TimeLabels(data);
    EndsLabelled(|data|);
    var idx := LabelIndices(|data|);
    forall j | 0 <= j < |labels|
      ensures ',' !in labels[j]
      ensures ParseU64(labels[j]) == Some(data[idx[j]].time / 1000)
    {
      ParseU64NatToString(data[idx[j]].time / 1000);
    }
    ListRead(X_AXIS_OPEN, labels);
  }

  /** The y-axis line reads back as the bound. */
  lemma YAxisRead(data: seq<CpuStats>)
    ensures var line := YAxisLine(data);
      StartsWith(line, Y_AXIS_OPEN) && ParseU64(line[|Y_AXIS_OPEN|..]) == Some(YAxisMax(data) as nat)
  {
    var digits := NatToString(YAxisMax(data) as nat);
    var line := YAxisLine(data);
    assert line == Y_AXIS_OPEN + digits;
    assert line[..|Y_AXIS_OPEN|] == Y_AXIS_OPEN && line[|Y_AXIS_OPEN|..] == digits;
    ParseU64NatToString(YAxisMax(data) as nat);
  }
}
