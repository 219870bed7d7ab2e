/** The sampled rows the graph oracle works on, and the evidence it attaches to them. */
module GraphRows {
  import opened Basics

  datatype Source = Confirmed | LegacyUnknown | Reconstructed | Unavailable

  datatype TokenVector = TokenVector(total: nat, input: Option<nat>, cached: Option<nat>, written: Option<nat>,
          output: Option<nat>)

  datatype ModelTotals = ModelTotals(tokens: TokenVector, dollars: Option<real>)

  datatype Row = Row(timestamp: int, resetAt: int, source: Source, synthetic: bool,
                     modelsComplete: bool, remaining: Option<real>, models: map<string, ModelTotals>)

  datatype Metric = Tokens | Dollars

  datatype Gap = Gap(startAt: int, endAt: int)

  datatype Origin = Direct | Legacy | Held | Unknown | Rejected | BoundedFlat | Interpolated

  datatype Evidence = Evidence(value: Option<real>, reliable: bool, origin: Origin, synthetic: bool)

  predicate Renderable(e: Evidence) { e.value.Some? && e.value.value >= 0.0 }

  predicate HardBreak(start: int, end: int, gaps: seq<Gap>) {
    exists g :: g in gaps && start < g.endAt && end > g.startAt
  }

  predicate RisingRows(rows: seq<Row>) {
    forall i, j :: 0 <= i < j < |rows| ==> rows[i].timestamp < rows[j].timestamp
  }

  // Dollars of the one model whose price is derived from its token components.
  function DerivedDollars(tokens: TokenVector): Option<real> {
    if tokens.input.Some? && tokens.cached.Some? && tokens.written.Some? && tokens.output.Some?
       && tokens.input.value >= tokens.cached.value + tokens.written.value
    then
      var ordinary := tokens.input.value - tokens.cached.value - tokens.written.value;
      Some((ordinary as real * 10.0 + tokens.cached.value as real * 1.0
            + tokens.written.value as real * 12.5 + tokens.output.value as real * 50.0) / 1000000.0)
    else None
  }

  /** The cumulative value a row publishes for a model: an omitted model is unknown, not zero. */
  function RawValue(row: Row, model: string, metric: Metric): Option<real> {
    if row.synthetic || !(row.source.Confirmed? || row.source.LegacyUnknown?) then None
    else if model !in row.models then None
    else
      var item := row.models[model];
      if metric.Tokens? then Some(item.tokens.total as real)
      else if item.dollars.None? && model == "ASTRA" then DerivedDollars(item.tokens)
      else item.dollars
  }

  function RawValues(rows: seq<Row>, model: string, metric: Metric): (r: seq<Option<real>>)
    ensures |r| == |rows|
  {
    seq(|rows|, k requires 0 <= k < |rows| => RawValue(rows[k], model, metric))
  }
}
