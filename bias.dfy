/**
 * The bias bar chart's data: one record per model with the average, minimum
 * and maximum of its bias variable, found by a case-insensitive name match,
 * or zeros when the model has none.
 */
module BiasAnalysisChart {
  import opened Common
  import opened Text
  import opened Dataset
  import opened Lists

  datatype BiasRecord = BiasRecord(model: string, avgBias: real, minBias: real, maxBias: real)

  /** `v.label.toUpperCase() === "BIAS"` */
  predicate IsBiasVariable(v: Variable) {
    ToUpper(v.name) == "BIAS"
  }

  /** Position `k` holds the first bias variable of `vars`. */
  ghost predicate FirstBias(vars: seq<Variable>, k: int) {
    0 <= k < |vars| && IsBiasVariable(vars[k]) && forall u :: 0 <= u < k ==> !IsBiasVariable(vars[u])
  }

  /** The record of one model: the summary of its first bias variable, or `{ avg: 0, min: 0, max: 0 }`. */
  function BiasRecordOf(m: Model, summarize: Summarizer): (r: BiasRecord)
    ensures r.model == m.name
    ensures (forall k :: 0 <= k < |m.variable| ==> !IsBiasVariable(m.variable[k])) ==>
      r.avgBias == 0.0 && r.minBias == 0.0 && r.maxBias == 0.0
    ensures forall k :: FirstBias(m.variable, k) ==>
      var s := summarize(m.variable[k].value);
      r.avgBias == s.avg && r.minBias == s.min && r.maxBias == s.max
  {
    match FindIndex(m.variable, IsBiasVariable)
    case None => BiasRecord(m.name, 0.0, 0.0, 0.0)
    case Some(k) =>
      var s := summarize(m.variable[k].value);
      BiasRecord(m.name, s.avg, s.min, s.max)
  }

  /** `chartData`: one record per model, in model order. */
  function ChartData(models: seq<Model>, summarize: Summarizer): (records: seq<BiasRecord>)
    ensures |records| == |models|
    ensures forall i :: 0 <= i < |models| ==> records[i] == BiasRecordOf(models[i], summarize)
  {
    if models == [] then [] else [BiasRecordOf(models[0], summarize)] + ChartData(models[1..], summarize)
  }

  lemma UpperCharIs(c: char, upper: char)
    requires IsUpperLetter(upper)
    ensures UpperChar(c) == upper <==> c == upper || c as int == upper as int + 32
  {
  }

  /** Exactly the four-letter spellings of "bias" in any mix of cases name a bias variable. */
  lemma BiasSpellings(v: Variable)
    ensures IsBiasVariable(v) <==>
      && |v.name| == 4
      && (v.name[0] == 'B' || v.name[0] == 'b')
      && (v.name[1] == 'I' || v.name[1] == 'i')
      && (v.name[2] == 'A' || v.name[2] == 'a')
      && (v.name[3] == 'S' || v.name[3] == 's')
  {
    var up := ToUpper(v.name);
    if |v.name| == 4 {
      UpperCharIs(v.name[0], 'B');
      UpperCharIs(v.name[1], 'I');
      UpperCharIs(v.name[2], 'A');
      UpperCharIs(v.name[3], 'S');
      assert up == "BIAS" <==> up[0] == 'B' && up[1] == 'I' && up[2] == 'A' && up[3] == 'S';
    }
  }
}
