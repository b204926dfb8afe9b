/**
 * The radar chart's data: one point per variable of the first model, holding
 * the metric name and one key per model name under which some model has a
 * variable of exactly that name. Under it sits the average of that variable's
 * summary; a later model of the same name overwrites an earlier one, and a
 * model named `metric` replaces the axis name.
 */
module ModelPerformanceRadar {
  import opened Common
  import opened Dataset
  import opened Lists

  /** A property of a data point: the axis name under `metric`, a score under a model's name. */
  datatype Field = Metric(name: string) | Score(value: real)

  /** A JavaScript object keyed by property name. */
  type DataPoint = map<string, Field>

  const MetricKey := "metric"

  /** Model `m` has a variable whose name is exactly `name`. */
  ghost predicate HasVariable(m: Model, name: string) {
    exists v :: 0 <= v < |m.variable| && m.variable[v].name == name
  }

  /** `v` is where `model.variable.find(v => v.label === name)` stops. */
  ghost predicate FirstMatch(m: Model, name: string, v: int) {
    && 0 <= v < |m.variable|
    && m.variable[v].name == name
    && forall u :: 0 <= u < v ==> m.variable[u].name != name
  }

  /** Model `j` writes its key, and no later model writes the same key. */
  ghost predicate LastWriter(ms: seq<Model>, name: string, j: int)
    requires 0 <= j < |ms|
  {
    && HasVariable(ms[j], name)
    && forall k :: j < k < |ms| && ms[k].name == ms[j].name ==> !HasVariable(ms[k], name)
  }

  /** Some model of `ms` named `key` has the metric, so the loop writes `key`. */
  ghost predicate Writes(ms: seq<Model>, name: string, key: string) {
    exists j :: 0 <= j < |ms| && ms[j].name == key && HasVariable(ms[j], name)
  }

  /** The keys of the point are `metric` and the keys some model writes. */
  ghost predicate KeysMatch(point: DataPoint, name: string, ms: seq<Model>) {
    forall key :: key in point <==> key == MetricKey || Writes(ms, name, key)
  }

  /** Under each written key sits the average of the last writer's first matching variable. */
  ghost predicate ScoresMatch(point: DataPoint, name: string, ms: seq<Model>, summarize: Summarizer) {
    forall j, v :: 0 <= j < |ms| && LastWriter(ms, name, j) && FirstMatch(ms[j], name, v) ==>
      ms[j].name in point && point[ms[j].name] == Score(summarize(ms[j].variable[v].value).avg)
  }

  /** Unless a model called `metric` has the metric, `metric` holds the metric's name. */
  ghost predicate MetricKept(point: DataPoint, name: string, ms: seq<Model>) {
    !Writes(ms, name, MetricKey) ==> MetricKey in point && point[MetricKey] == Metric(name)
  }

  /**
   * `point` is the data point of metric `name` over the models `ms`: its keys
   * are `metric` and the names of the models that have the metric; under a
   * model's name sits the average of the first matching variable of the last
   * model with that name that has the metric; `metric` holds the metric's name unless a model
   * called `metric` has overwritten it.
   */
  ghost predicate IsDataPointFor(point: DataPoint, name: string, ms: seq<Model>, summarize: Summarizer) {
    KeysMatch(point, name, ms) && ScoresMatch(point, name, ms, summarize) && MetricKept(point, name, ms)
  }

  lemma WritesAppend(ms: seq<Model>, m: Model, name: string, key: string)
    ensures Writes(ms + [m], name, key) <==> Writes(ms, name, key) || (m.name == key && HasVariable(m, name))
  {
    var ms' := ms + [m];
    if Writes(ms, name, key) {
      var j :| 0 <= j < |ms| && ms[j].name == key && HasVariable(ms[j], name);
      assert ms'[j] == ms[j];
    }
    if m.name == key && HasVariable(m, name) {
      assert ms'[|ms|] == m;
    }
    if Writes(ms', name, key) {
      var j :| 0 <= j < |ms'| && ms'[j].name == key && HasVariable(ms'[j], name);
      if j < |ms| {
        assert ms'[j] == ms[j];
      }
    }
  }

  lemma LastWriterAppend(ms: seq<Model>, m: Model, name: string, j: nat)
    requires j < |ms|
    ensures LastWriter(ms + [m], name, j) <==>
      LastWriter(ms, name, j) && !(m.name == ms[j].name && HasVariable(m, name))
  {
    var ms' := ms + [m];
    assert ms'[j] == ms[j] && ms'[|ms|] == m;
    assert forall k :: j < k < |ms| ==> ms'[k] == ms[k];
  }

  /** A model with the metric writes its score, replacing whatever an earlier model of that name wrote. */
  lemma StepWrites(point: DataPoint, name: string, ms: seq<Model>, m: Model, f: nat, summarize: Summarizer)
    requires IsDataPointFor(point, name, ms, summarize)
    requires FirstMatch(m, name, f)
    ensures IsDataPointFor(point[m.name := Score(summarize(m.variable[f].value).avg)], name, ms + [m], summarize)
  {
    var next := point[m.name := Score(summarize(m.variable[f].value).avg)];
    var ms' := ms + [m];
    assert HasVariable(m, name);
    forall key
      ensures key in next <==> key == MetricKey || Writes(ms', name, key)
    {
      WritesAppend(ms, m, name, key);
    }
    forall j, v | 0 <= j < |ms'| && LastWriter(ms', name, j) && FirstMatch(ms'[j], name, v)
      ensures ms'[j].name in next && next[ms'[j].name] == Score(summarize(ms'[j].variable[v].value).avg)
    {
      if j < |ms| {
        LastWriterAppend(ms, m, name, j);
        assert ms'[j] == ms[j];
      } else {
        assert ms'[j] == m;
      }
    }
    WritesAppend(ms, m, name, MetricKey);
  }

  /** A model without the metric leaves the point as it is. */
  lemma StepSkips(point: DataPoint, name: string, ms: seq<Model>, m: Model, summarize: Summarizer)
    requires IsDataPointFor(point, name, ms, summarize)
    requires !HasVariable(m, name)
    ensures IsDataPointFor(point, name, ms + [m], summarize)
  {
    var ms' := ms + [m];
    forall key
      ensures key in point <==> key == MetricKey || Writes(ms', name, key)
    {
      WritesAppend(ms, m, name, key);
    }
    forall j, v | 0 <= j < |ms'| && LastWriter(ms', name, j) && FirstMatch(ms'[j], name, v)
      ensures ms'[j].name in point && point[ms'[j].name] == Score(summarize(ms'[j].variable[v].value).avg)
    {
      assert ms'[|ms|] == m;
      assert j < |ms|;
      LastWriterAppend(ms, m, name, j);
      assert ms'[j] == ms[j];
    }
    WritesAppend(ms, m, name, MetricKey);
  }

  /** `model.variable.find(v => v.label === name)`, as a position. */
  function FindVariable(m: Model, name: string): (r: Option<nat>)
    ensures r.Some? ==> FirstMatch(m, name, r.value)
    ensures r.None? ==> !HasVariable(m, name)
  {
    FindIndex(m.variable, (v: Variable) => v.name == name)
  }

  /** The point before any model has written: `{ metric: name }`. */
  lemma InitialPoint(name: string, summarize: Summarizer)
    ensures IsDataPointFor(map[MetricKey := Metric(name)], name, [], summarize)
  {
  }

  /** The `forEach` callback: a model with the metric writes its score under its own name. */
  method WriteScore(point: DataPoint, name: string, done: seq<Model>, model: Model, summarize: Summarizer)
    returns (next: DataPoint)
    requires IsDataPointFor(point, name, done, summarize)
    ensures IsDataPointFor(next, name, done + [model], summarize)
  {
    var found := FindVariable(model, name);
    if found.Some? {
      StepWrites(point, name, done, model, found.value, summarize);
      next := point[model.name := Score(summarize(model.variable[found.value].value).avg)];
    } else {
      StepSkips(point, name, done, model, summarize);
      next := point;
    }
  }

  /** The `dataPoint` of one variable: start from `{ metric: name }`, then let each model write its score. */
  method BuildDataPoint(name: string, models: seq<Model>, summarize: Summarizer) returns (point: DataPoint)
    ensures IsDataPointFor(point, name, models, summarize)
  {
    point := map[MetricKey := Metric(name)];
    InitialPoint(name, summarize);
    var i := 0;
    while i < |models|
      invariant 0 <= i <= |models|
      invariant IsDataPointFor(point, name, models[..i], summarize)
    {
      assert models[..i + 1] == models[..i] + [models[i]];
      point := WriteScore(point, name, models[..i], models[i], summarize);
      i := i + 1;
    }
    assert models[..i] == models;
  }

  /** `radarData`: undefined without models, else one point per variable of the first model. */
  method RadarData(models: seq<Model>, summarize: Summarizer) returns (data: Option<seq<DataPoint>>)
    ensures data.None? <==> models == []
    ensures data.Some? ==>
      && |data.value| == |models[0].variable|
      && forall i :: 0 <= i < |data.value| ==>
           IsDataPointFor(data.value[i], models[0].variable[i].name, models, summarize)
  {
    if models == [] {
      return None;
    }
    var metrics := models[0].variable;
    var points: seq<DataPoint> := [];
    var i := 0;
    while i < |metrics|
      invariant 0 <= i <= |metrics|
      invariant |points| == i
      invariant forall k :: 0 <= k < i ==> IsDataPointFor(points[k], metrics[k].name, models, summarize)
    {
      var point := BuildDataPoint(metrics[i].name, models, summarize);
      points := points + [point];
      i := i + 1;
    }
    return Some(points);
  }

  /** A model with the metric has a first matching variable. */
  lemma FirstMatchExists(m: Model, name: string) returns (v: nat)
    requires HasVariable(m, name)
    ensures FirstMatch(m, name, v)
  {
    v := FindVariable(m, name).value;
  }

  /** When some model of `ms` writes `key`, one of them is the last to do so. */
  lemma {:induction false} LastWriterExists(ms: seq<Model>, name: string, key: string) returns (j: nat)
    requires Writes(ms, name, key)
    ensures j < |ms| && ms[j].name == key && LastWriter(ms, name, j)
  {
    var n := |ms| - 1;
    if ms[n].name == key && HasVariable(ms[n], name) {
      j := n;
    } else {
      var init := ms[..n];
      var i :| 0 <= i < |ms| && ms[i].name == key && HasVariable(ms[i], name);
      assert i < n && init[i] == ms[i];
      j := LastWriterExists(init, name, key);
      assert init[j] == ms[j];
      forall k | j < k < |ms| && ms[k].name == ms[j].name
        ensures !HasVariable(ms[k], name)
      {
        if k < n {
          assert init[k] == ms[k];
        }
      }
    }
  }

  /** The description pins the data point down: two points that both meet it are equal. */
  lemma DataPointDetermined(p: DataPoint, q: DataPoint, name: string, ms: seq<Model>, summarize: Summarizer)
    requires IsDataPointFor(p, name, ms, summarize)
    requires IsDataPointFor(q, name, ms, summarize)
    ensures p == q
  {
    assert p.Keys == q.Keys;
    forall key | key in p
      ensures p[key] == q[key]
    {
      if Writes(ms, name, key) {
        var j := LastWriterExists(ms, name, key);
        var v := FirstMatchExists(ms[j], name);
      }
    }
  }
}
