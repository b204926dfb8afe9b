/**
 * The shapes of the static forecast-skill dataset (the JSON file every page
 * and API route reads). Levels that the consuming code reaches through
 * optional chaining (`?.`) are `Option`s: the file is typed `any` there and a
 * missing level falls back instead of failing.
 */
module Dataset {
  import opened Common

  /** Forecast-day rows of timestep values; `null` entries are `None`. */
  type Matrix = seq<seq<Option<real>>>

  /** A JSON `label` field is `name` here: `label` is a Dafny keyword. */
  datatype Variable = Variable(name: string, value: Matrix)

  datatype Model = Model(id: int, name: string, variable: seq<Variable>)

  datatype Region = Region(id: int, name: string, model: seq<Model>)

  /** One axis of `metadata.dimensions`: its declared length and its labels. */
  datatype Dimension = Dimension(description: string, length: int, labels: Option<seq<string>>)

  datatype Dimensions = Dimensions(region: Option<Dimension>, model: Option<Dimension>)

  /** An entry of `metadata.variables`. */
  datatype VarDesc = VarDesc(name: string, description: string)

  datatype Metadata = Metadata(dimensions: Option<Dimensions>, variables: Option<seq<VarDesc>>)

  /** An entry of the top-level `date` list: one forecast day and its date labels. */
  datatype DateEntry = DateEntry(forecastDay: int, labels: seq<string>)

  datatype DataFile = DataFile(metadata: Option<Metadata>, date: Option<seq<DateEntry>>, region: Option<seq<Region>>)

  datatype Trend = Up | Down | Stable

  /** What `calculateMetricSummary` returns for a matrix. */
  datatype MetricSummary = MetricSummary(min: real, max: real, avg: real, trend: Trend)

  /** `calculateMetricSummary`, handed to the charts by their caller. */
  type Summarizer = Matrix -> MetricSummary
}
