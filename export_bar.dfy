/** The export control shared by the dashboards: quick CSV/Excel buttons,
    a dropdown with the formats and time ranges the page allows, and an
    advanced export of the edited configuration, all tagged with the
    page's context and all disabled while an export runs. */
module ExportBar {
  import opened Common

  /** An entry of the format or time-range list. */
  datatype ExportOption = ExportOption(value: string, caption: string, description: string)

  function AllFormats(): seq<ExportOption>
  {
    [ExportOption("csv", "CSV", "Comma-separated values"),
     ExportOption("xlsx", "Excel", "Microsoft Excel format"),
     ExportOption("pdf", "PDF", "Portable document format"),
     ExportOption("json", "JSON", "JavaScript object notation")]
  }

  function AllTimeRanges(): seq<ExportOption>
  {
    [ExportOption("current", "Current View", "Export visible data"),
     ExportOption("last-7-days", "Last 7 Days", "Include last 7 days"),
     ExportOption("last-30-days", "Last 30 Days", "Include last 30 days"),
     ExportOption("custom", "Custom Range", "Select date range")]
  }

  function Allowed(available: seq<string>): ExportOption -> bool
  {
    (o: ExportOption) => o.value in available
  }

  /** `formatOptions`: the four known formats the page allows, in their
      fixed order; an unknown allowed format adds nothing. */
  function FormatOptions(available: seq<string>): (r: seq<ExportOption>)
    ensures forall o :: o in r <==> o in AllFormats() && o.value in available
    ensures |r| <= 4
  {
    Filter(AllFormats(), Allowed(available))
  }

  function TimeRangeOptions(available: seq<string>): (r: seq<ExportOption>)
    ensures forall o :: o in r <==> o in AllTimeRanges() && o.value in available
    ensures |r| <= 4
  {
    Filter(AllTimeRanges(), Allowed(available))
  }

  /** The defaults (CSV, Excel, PDF) offer three formats, in order, and
      never JSON. */
  lemma DefaultFormats()
    ensures FormatOptions(["csv", "xlsx", "pdf"]) == AllFormats()[..3]
  {
    var a := Allowed(["csv", "xlsx", "pdf"]);
    assert !a(AllFormats()[3]);
    assert AllFormats()[1..][1..][1..][1..] == [];
    assert Filter(AllFormats()[1..][1..][1..], a) == [];
  }

  /** The list order never depends on the order the page lists formats
      in. */
  lemma FormatOrderFixed(available: seq<string>)
    ensures IsSubsequence(FormatOptions(available), AllFormats())
  {
    FilterIsSubsequence(AllFormats(), Allowed(available));
  }

  /** `getContextLabel`. */
  function ContextLabel(context: string): (r: string)
    ensures context == "overview" ==> r == "Campaign Performance Overview"
    ensures context == "monitoring" ==> r == "Real-Time Monitoring Data"
    ensures context == "keywords" ==> r == "Keyword Analytics Report"
    ensures r == "Analytics Report" <==> context !in {"overview", "monitoring", "keywords"}
  {
    match context
    case "overview" => "Campaign Performance Overview"
    case "monitoring" => "Real-Time Monitoring Data"
    case "keywords" => "Keyword Analytics Report"
    case _ => "Analytics Report"
  }

  /** The icon of a quick-export entry. */
  function FormatIcon(format: string): (r: string)
    ensures r == "File" <==> format !in {"csv", "xlsx", "pdf"}
  {
    if format == "csv" then "FileText"
    else if format == "xlsx" then "FileSpreadsheet"
    else if format == "pdf" then "FileImage"
    else "File"
  }

  /** `toUpperCase` on ASCII letters, enough for the format names. */
  function AsciiUpper(s: string): (r: string)
    ensures |r| == |s|
    ensures forall i :: 0 <= i < |s| ==> r[i] == if 'a' <= s[i] <= 'z' then (s[i] as int - 32) as char else s[i]
  {
    if s == [] then []
    else [if 'a' <= s[0] <= 'z' then (s[0] as int - 32) as char else s[0]] + AsciiUpper(s[1..])
  }

  /** "Export CSV" and so on, on the advanced button. */
  function ExportCaption(format: string): (r: string)
    ensures |r| == 7 + |format|
    ensures r[..7] == "Export "
    ensures r[7..] == AsciiUpper(format)
  {
    "Export " + AsciiUpper(format)
  }

  /** The settings the dropdown edits. */
  datatype ExportConfig = ExportConfig(format: string, timeRange: string, includeCharts: bool, includeFilters: bool)

  /** What `onExport` receives: the settings and the page's context. */
  datatype ExportRequest = ExportRequest(config: ExportConfig, context: string)

  /** One `handleConfigChange(key, value)` for each key the dropdown sets. */
  datatype ConfigEdit = SetFormat(format: string) | SetTimeRange(range: string) | SetCharts(charts: bool) | SetFilters(filters: bool)

  function ApplyEdit(c: ExportConfig, e: ConfigEdit): (r: ExportConfig)
    ensures e.SetFormat? ==> r == c.(format := e.format)
    ensures e.SetTimeRange? ==> r == c.(timeRange := e.range)
    ensures e.SetCharts? ==> r == c.(includeCharts := e.charts)
    ensures e.SetFilters? ==> r == c.(includeFilters := e.filters)
  {
    match e
    case SetFormat(f) => c.(format := f)
    case SetTimeRange(t) => c.(timeRange := t)
    case SetCharts(b) => c.(includeCharts := b)
    case SetFilters(b) => c.(includeFilters := b)
  }

  /** Editing one setting twice keeps only the last value. */
  lemma LastEditWins(c: ExportConfig, e1: ConfigEdit, e2: ConfigEdit)
    requires e1.SetFormat? == e2.SetFormat? && e1.SetTimeRange? == e2.SetTimeRange?
    requires e1.SetCharts? == e2.SetCharts? && e1.SetFilters? == e2.SetFilters?
    ensures ApplyEdit(ApplyEdit(c, e1), e2) == ApplyEdit(c, e2)
  {
  }

  class Bar {
    var isDropdownOpen: bool
    var config: ExportConfig

    constructor()
      ensures !isDropdownOpen
      ensures config == ExportConfig("csv", "current", true, true)
    {
      isDropdownOpen := false;
      config := ExportConfig("csv", "current", true, true);
    }

    /** `handleQuickExport(format)`: the edited settings with the chosen
        format; the buttons do nothing while an export runs. */
    method QuickExport(format: string, context: string, isExporting: bool) returns (request: Option<ExportRequest>)
      modifies this
      ensures isExporting ==> request.None? && isDropdownOpen == old(isDropdownOpen)
      ensures !isExporting ==> request == Some(ExportRequest(old(config).(format := format), context)) && !isDropdownOpen
      ensures config == old(config)
    {
      if isExporting {
        request := None;
      } else {
        request := Some(ExportRequest(config.(format := format), context));
        isDropdownOpen := false;
      }
    }

    /** `handleAdvancedExport`: the edited settings as they are. */
    method AdvancedExport(context: string, isExporting: bool) returns (request: Option<ExportRequest>)
      modifies this
      ensures isExporting ==> request.None? && isDropdownOpen == old(isDropdownOpen)
      ensures !isExporting ==> request == Some(ExportRequest(old(config), context)) && !isDropdownOpen
      ensures config == old(config)
    {
      if isExporting {
        request := None;
      } else {
        request := Some(ExportRequest(config, context));
        isDropdownOpen := false;
      }
    }

    method ConfigChange(e: ConfigEdit)
      modifies this
      ensures config == ApplyEdit(old(config), e)
      ensures isDropdownOpen == old(isDropdownOpen)
    {
      config := ApplyEdit(config, e);
    }

    /** The dropdown button, disabled while exporting. */
    method ToggleDropdown(isExporting: bool)
      modifies this
      ensures isDropdownOpen == if isExporting then old(isDropdownOpen) else !old(isDropdownOpen)
      ensures config == old(config)
    {
      if !isExporting {
        isDropdownOpen := !isDropdownOpen;
      }
    }

    /** The backdrop. */
    method Close()
      modifies this
      ensures !isDropdownOpen && config == old(config)
    {
      isDropdownOpen := false;
    }
  }
}
