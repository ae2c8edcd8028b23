/** The Markdown report (src/reporters/markdown.rs): a title, then either the
    CPU chart or a warning that no data was collected. */
module Markdown {
  import opened Wrappers
  import opened Text
  import opened Cpu
  import opened Mermaid

  /** The title line of the report. */
  const TITLE: string := "# Workflow Telemetry Report"

  /** The title and a blank line: `"# Workflow Telemetry Report\n\n"`. */
  const HEADER: string := TITLE + "\n" + "\n"

  /** The warning line for no data; it begins with U+26A0 U+FE0F. */
  const WARNING: string := "⚠️ No data collected"

  /** The warning and a blank line. */
  const NO_DATA: string := WARNING + "\n" + "\n"

  /** `generate_report` never fails; its error type is that of `anyhow`. */
  datatype ReportError = ReportError(message: string)

  /** The report as a function of the samples. */
  function Report(data: seq<CpuStats>, fmt: Format): string {
    if data != [] then HEADER + CpuChart(data, fmt) + "\n" else HEADER + NO_DATA
  }

  /** `generate_report`: the report grows by `push_str` in an if/else. */
  method GenerateReport(data: seq<CpuStats>, fmt: Format) returns (r: Result<string, ReportError>)
    ensures r == Ok(Report(data, fmt))
  {
    var report := "";
    report := report + HEADER;
    assert report == HEADER;
    if data != [] {
      var chart := GenerateCpuChart(data, fmt);
      report := report + chart;
      report := report + "\n";
    } else {
      report := report + NO_DATA;
    }
    return Ok(report);
  }

  /** The lines of the report: the title, a blank line, then either the ten
      chart lines or the warning, and a blank line. */
  function ReportLines(data: seq<CpuStats>, fmt: Format): seq<string> {
    [TITLE, ""] + (if data != [] then ChartLines(data, fmt) else [WARNING]) + [""]
  }

  /** Every report begins with the title and a blank line. */
  lemma ReportStartsWithHeader(data: seq<CpuStats>, fmt: Format)
    ensures StartsWith(Report(data, fmt), HEADER)
  {
    if data != [] {
      var chart := CpuChart(data, fmt);
      assert HEADER + chart + "\n" == HEADER + (chart + "\n");
      StartsWithAppend(HEADER, chart + "\n");
    } else {
      StartsWithAppend(HEADER, NO_DATA);
    }
  }

  lemma TitlePlain()
    ensures PlainLine(TITLE) && PlainLine(WARNING)
  {
  }

  /** The report reads back, line by line, as the title, a blank line, the
      chart's ten lines or the warning, and a blank line, provided the
      formatter prints no line break. */
  lemma ReportRead(data: seq<CpuStats>, fmt: Format)
    requires forall x :: '\n' !in fmt(x)
    ensures Lines(Report(data, fmt)) == ReportLines(data, fmt)
  {
    TitlePlain();
    var body := if data != [] then ChartLines(data, fmt) else [WARNING];
    if data != [] {
      ChartLinesPlain(data, fmt);
      ChartReport(data, fmt);
    } else {
      assert AllPlain([WARNING]);
      assert Join([WARNING], "\n") == WARNING;
    }
    var j := Join(body, "\n");
    Regroup(TITLE + "\n" + "\n", j, "\n", "\n");
    LinesFramed(TITLE, body);
  }

  /** A report with data is the header, the chart's lines joined, and two line breaks. */
  lemma ChartReport(data: seq<CpuStats>, fmt: Format)
    requires data != []
    ensures Report(data, fmt) == HEADER + (Join(ChartLines(data, fmt), "\n") + "\n") + "\n"
  {
  }

  lemma Regroup(h: string, j: string, a: string, b: string)
    ensures h + (j + a) + b == h + j + a + b
    ensures h + (j + a + b) == h + j + a + b
  {
  }

  /** The warning is neither the title nor empty, and does not begin like a chart line. */
  lemma WarningApart()
    ensures WARNING != [] && WARNING != TITLE && !InitialLine(WARNING)
  {
    assert WARNING[0] == '⚠' && TITLE[0] == '#';
  }

  /** The chart's lines never equal the warning. */
  lemma NoWarningInChart(data: seq<CpuStats>, fmt: Format)
    ensures WARNING !in ReportLines(data, fmt) <==> data != []
  {
    if data != [] {
      ChartLinesInitials(data, fmt);
      WarningNotAmong(ChartLines(data, fmt));
    } else {
      assert ReportLines(data, fmt)[2] == WARNING;
    }
  }

  /** Lines that all begin like chart lines, framed as in the report, do not
      include the warning. */
  lemma WarningNotAmong(chart: seq<string>)
    requires AllInitial(chart)
    ensures WARNING !in [TITLE, ""] + chart + [""]
  {
    WarningApart();
    var lines := [TITLE, ""] + chart + [""];
    forall k | 0 <= k < |lines|
      ensures lines[k] != WARNING
    {
      if k == 0 {
        assert lines[k] == TITLE;
      } else if k == 1 || k == 2 + |chart| {
        assert lines[k] == "";
      } else {
        assert lines[k] == chart[k - 2];
        assert InitialLine(lines[k]);
      }
    }
  }

  /** The opening fence is a line of the report exactly when there is data. */
  lemma FenceOnlyWithData(data: seq<CpuStats>, fmt: Format)
    ensures "```mermaid" in ReportLines(data, fmt) <==> data != []
  {
    if data != [] {
      ChartOpensWithFence(data, fmt);
      FenceAmong(ChartLines(data, fmt));
    } else {
      FenceNotInWarning();
    }
  }

  /** Lines that open with the fence, framed as in the report, include it. */
  lemma FenceAmong(chart: seq<string>)
    requires chart != [] && chart[0] == "```mermaid"
    ensures "```mermaid" in [TITLE, ""] + chart + [""]
  {
    assert ([TITLE, ""] + chart + [""])[2] == chart[0];
  }

  /** The report without data has no fence line. */
  lemma FenceNotInWarning()
    ensures "```mermaid" !in [TITLE, "", WARNING, ""]
  {
    assert TITLE[0] == '#' && WARNING[0] == '⚠' && "```mermaid"[0] == '`';
  }

  /** Exactly one of the chart and the warning appears: the report has the
      opening fence line exactly when there is data, and the warning line
      exactly when there is none. */
  lemma ChartOrWarning(data: seq<CpuStats>, fmt: Format)
    requires forall x :: '\n' !in fmt(x)
    ensures "```mermaid" in Lines(Report(data, fmt)) <==> data != []
    ensures WARNING in Lines(Report(data, fmt)) <==> data == []
  {
    ReportRead(data, fmt);
    NoWarningInChart(data, fmt);
    FenceOnlyWithData(data, fmt);
  }
}
