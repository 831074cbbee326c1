/** `src/format.rs`, the single-file predecessor of `src/format/`: the same
    enum, but with no cargo features — JSON always exists and is always the
    default, and the CSV line always carries the energy column. */
module LegacyFormat {
  import opened Wrappers
  import opened Model
  import opened Text
  import OutputFormat
  import Csv

  /** `Format::default()`: JSON, unconditionally. */
  function Default(): (f: OutputFormat.Format)
    ensures f == OutputFormat.Json
  {
    OutputFormat.Json
  }

  /** `Format::from_str`: exactly "json" or "csv". */
  function FromStr(input: string): (r: Result<OutputFormat.Format, string>)
    ensures r.Ok? <==> input == "json" || input == "csv"
    ensures r.Ok? ==> OutputFormat.Keyword(r.value) == input
    ensures r.Err? ==> r.error == input
  {
    match input
    case "json" => Ok(OutputFormat.Json)
    case "csv" => Ok(OutputFormat.Csv)
    case other => Err(other)
  }

  /** `Format::formatter`. */
  function Formatter(f: OutputFormat.Format): (k: OutputFormat.FormatterKind)
    ensures k == OutputFormat.CsvFormatter <==> f == OutputFormat.Csv
  {
    match f
    case Csv => OutputFormat.CsvFormatter
    case Json => OutputFormat.JsonFormatter
  }

  /** `CsvFormatter::format`: always ten fields. It never fails. */
  function CsvLine(event: Record, render: Csv.RenderF64): (r: Result<string, string>)
    ensures r.Ok?
  {
    Ok(Join([ event.containerId,
              event.containerName,
              IntToString(event.ts),
              NatToString(UnwrapOrZero(event.pidCount)),
              NatToString(UnwrapOrZero(event.pidLimit)),
              NatToString(UnwrapOrZero(event.memoryUsage)),
              NatToString(UnwrapOrZero(event.memoryLimit)),
              render(event.cpuPercent),
              NatToString(event.cpuCount),
              render(event.cpuEnergy.UnwrapOr(Zero)) ], ','))
  }

  /** The superseded file parses, defaults and dispatches as the current
      one built with `formatter-json`. */
  lemma SameAsFeatureBuild(input: string, f: OutputFormat.Format)
    ensures FromStr(input) == OutputFormat.FromStr(input, true)
    ensures Default() == OutputFormat.Default(true)
    ensures Formatter(f) == OutputFormat.Formatter(f)
  {
  }

  /** Its CSV line is the current one built with `enrichment-powercap`. */
  lemma SameCsvAsFeatureBuild(event: Record, render: Csv.RenderF64)
    ensures CsvLine(event, render) == Csv.Format(event, render, true)
  {
    var line := [ event.containerId, event.containerName, IntToString(event.ts),
                  NatToString(UnwrapOrZero(event.pidCount)), NatToString(UnwrapOrZero(event.pidLimit)),
                  NatToString(UnwrapOrZero(event.memoryUsage)), NatToString(UnwrapOrZero(event.memoryLimit)),
                  render(event.cpuPercent), NatToString(event.cpuCount),
                  render(event.cpuEnergy.UnwrapOr(Zero)) ];
    assert Csv.Fields(event, render, true) == line;
  }

  /** Its CSV line splits into the ten fields, absent options printing as 0. */
  lemma CsvLayout(event: Record, render: Csv.RenderF64)
    requires ',' !in event.containerId && ',' !in event.containerName
    requires forall f :: ',' !in render(f)
    ensures var parts := Split(CsvLine(event, render).value, ',');
      && |parts| == 10 && parts[0] == event.containerId && parts[1] == event.containerName
      && parts[3] == NatToString(UnwrapOrZero(event.pidCount))
      && parts[9] == render(event.cpuEnergy.UnwrapOr(Zero))
  {
    SameCsvAsFeatureBuild(event, render);
    Csv.Layout(event, render, true);
  }
}
