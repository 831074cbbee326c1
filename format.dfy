/** `src/format/mod.rs`: the output format option. The `formatter-json`
    cargo feature is the parameter `jsonFeature`; without it the `Json`
    variant does not exist. */
module OutputFormat {
  import opened Wrappers

  datatype Format = Json | Csv

  /** The variant exists in the build. */
  predicate Compiled(f: Format, jsonFeature: bool)
  {
    f.Csv? || jsonFeature
  }

  /** The spelling the option parser accepts for a variant. */
  function Keyword(f: Format): string
  {
    match f
    case Json => "json"
    case Csv => "csv"
  }

  /** `Format::default()`: JSON when it is compiled in, CSV otherwise. */
  function Default(jsonFeature: bool): (f: Format)
    ensures Compiled(f, jsonFeature)
    ensures f == Json <==> jsonFeature
  {
    if jsonFeature then Json else Csv
  }

  /** `Format::from_str`: an exact match. The error carries the rejected
      input (the source wraps it in an "unknown format" message). */
  function FromStr(input: string, jsonFeature: bool): (r: Result<Format, string>)
    ensures r.Ok? ==> Compiled(r.value, jsonFeature) && Keyword(r.value) == input
    ensures r.Err? ==> r.error == input
  {
    if jsonFeature && input == "json" then Ok(Json)
    else if input == "csv" then Ok(Csv)
    else Err(input)
  }

  /** `from_str` accepts exactly the keyword of each compiled variant:
      no trimming, no case folding, no JSON without the feature. */
  lemma FromStrExact(input: string, jsonFeature: bool)
    ensures FromStr(input, jsonFeature).Ok? <==> input == "csv" || (jsonFeature && input == "json")
    ensures forall f :: FromStr(input, jsonFeature) == Ok(f) <==> Compiled(f, jsonFeature) && input == Keyword(f)
    ensures FromStr("CSV", jsonFeature).Err? && FromStr(" csv", jsonFeature).Err? && FromStr("csv\n", jsonFeature).Err?
    ensures FromStr("json", false).Err?
  {
  }

  /** The default format can always be named on the command line. */
  lemma DefaultParses(jsonFeature: bool)
    ensures FromStr(Keyword(Default(jsonFeature)), jsonFeature) == Ok(Default(jsonFeature))
  {
  }

  datatype FormatterKind = CsvFormatter | JsonFormatter

  /** `Format::formatter`: each variant to its own formatter. */
  function Formatter(f: Format): (k: FormatterKind)
    ensures k == CsvFormatter <==> f == Csv
    ensures k == JsonFormatter <==> f == Json
  {
    match f
    case Csv => CsvFormatter
    case Json => JsonFormatter
  }
}
