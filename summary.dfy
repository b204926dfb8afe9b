/**
 * The home page's overview table: counts, the first and last date labels and
 * the variable list of the dataset, each with a fixed fallback when the data
 * (or the part of it a row needs) is missing.
 */
module DatasetSummary {
  import opened Common
  import opened Text
  import opened Dataset

  const DateFallback := "Date unavailable"
  const VariablesFallback := "Unavailable"
  const Separator := ", "

  /** A table cell: a number or a text. */
  datatype Cell = Count(n: nat) | Words(s: string)

  datatype Item = Item(key: string, caption: string, value: Cell)

  /** `data?.region?.length ?? 0` */
  function RegionsCount(data: Option<DataFile>): (n: nat)
    ensures data.Some? && data.value.region.Some? ==> n == |data.value.region.value|
    ensures data.None? || data.value.region.None? ==> n == 0
  {
    if data.Some? && data.value.region.Some? then |data.value.region.value| else 0
  }

  /** `data?.date?.length ?? 0` */
  function ForecastDaysCount(data: Option<DataFile>): (n: nat)
    ensures data.Some? && data.value.date.Some? ==> n == |data.value.date.value|
    ensures data.None? || data.value.date.None? ==> n == 0
  {
    if data.Some? && data.value.date.Some? then |data.value.date.value| else 0
  }

  /** The date entries, or none when the data or its `date` list is missing. */
  function Dates(data: Option<DataFile>): seq<DateEntry> {
    if data.Some? && data.value.date.Some? then data.value.date.value else []
  }

  /** `entry?.label?.[0] ?? "Date unavailable"` */
  function FirstLabelOr(entry: Option<DateEntry>): string {
    match entry
    case Some(e) => if |e.labels| > 0 then e.labels[0] else DateFallback
    case None => DateFallback
  }

  /** `data?.date?.[0]?.label?.[0] ?? "Date unavailable"` */
  function FirstDate(data: Option<DataFile>): (d: string)
    ensures Dates(data) == [] ==> d == DateFallback
    ensures Dates(data) != [] && Dates(data)[0].labels != [] ==> d == Dates(data)[0].labels[0]
    ensures Dates(data) != [] && Dates(data)[0].labels == [] ==> d == DateFallback
  {
    var dates := Dates(data);
    FirstLabelOr(if |dates| > 0 then Some(dates[0]) else None)
  }

  /** `data?.date?.[data?.date?.length - 1]?.label?.[0] ?? "Date unavailable"` */
  function LastDate(data: Option<DataFile>): (d: string)
    ensures Dates(data) == [] ==> d == DateFallback
    ensures Dates(data) != [] && Dates(data)[|Dates(data)| - 1].labels != [] ==>
      d == Dates(data)[|Dates(data)| - 1].labels[0]
    ensures Dates(data) != [] && Dates(data)[|Dates(data)| - 1].labels == [] ==> d == DateFallback
  {
    var dates := Dates(data);
    FirstLabelOr(if |dates| > 0 then Some(dates[|dates| - 1]) else None)
  }

  /** The variable descriptions, when the data has metadata with a `variables` list. */
  function Variables(data: Option<DataFile>): Option<seq<VarDesc>> {
    if data.Some? && data.value.metadata.Some? then data.value.metadata.value.variables else None
  }

  function UpperNames(vs: seq<VarDesc>): (names: seq<string>)
    ensures |names| == |vs|
    ensures forall i :: 0 <= i < |vs| ==> names[i] == ToUpper(vs[i].name)
  {
    if vs == [] then [] else [ToUpper(vs[0].name)] + UpperNames(vs[1..])
  }

  /** `variables?.map(v => v.name.toUpperCase()).join(", ") ?? "Unavailable"` */
  function VariablesText(data: Option<DataFile>): (text: string)
    ensures Variables(data).None? ==> text == VariablesFallback
    ensures Variables(data).Some? ==> text == Join(UpperNames(Variables(data).value), Separator)
  {
    match Variables(data)
    case None => VariablesFallback
    case Some(vs) => Join(UpperNames(vs), Separator)
  }

  /** `data?.metadata?.variables?.length ?? 0` */
  function VariablesCount(data: Option<DataFile>): nat {
    match Variables(data)
    case None => 0
    case Some(vs) => |vs|
  }

  /** The five rows of the table, in display order. */
  function Items(data: Option<DataFile>): (items: seq<Item>)
    ensures |items| == 5
    ensures items[0] == Item("regions", "Regions", Count(RegionsCount(data)))
    ensures items[1] == Item("forecast_days", "Forecast Days", Count(ForecastDaysCount(data)))
    ensures items[2] == Item("first_date", "First Date", Words(FirstDate(data)))
    ensures items[3] == Item("last_date", "Last Date", Words(LastDate(data)))
    ensures items[4] == Item("variables", "Variables (" + NatToDecimal(VariablesCount(data)) + ")", Words(VariablesText(data)))
  {
    [
      Item("regions", "Regions", Count(RegionsCount(data))),
      Item("forecast_days", "Forecast Days", Count(ForecastDaysCount(data))),
      Item("first_date", "First Date", Words(FirstDate(data))),
      Item("last_date", "Last Date", Words(LastDate(data))),
      Item("variables", "Variables (" + NatToDecimal(VariablesCount(data)) + ")", Words(VariablesText(data)))
    ]
  }

  /** Before the data arrives every row shows its fallback. */
  lemma NoDataFallbacks()
    ensures Items(None) == [
      Item("regions", "Regions", Count(0)),
      Item("forecast_days", "Forecast Days", Count(0)),
      Item("first_date", "First Date", Words(DateFallback)),
      Item("last_date", "Last Date", Words(DateFallback)),
      Item("variables", "Variables (0)", Words(VariablesFallback))
    ]
  {
    assert NatToDecimal(0) == [DigitChar(0)] == "0";
    assert "Variables (" + "0" + ")" == "Variables (0)";
  }

  /** With exactly one date entry the first and the last date are the same label. */
  lemma SingleEntryDatesCoincide(data: Option<DataFile>)
    requires |Dates(data)| == 1
    ensures FirstDate(data) == LastDate(data)
  {
  }

  /** The caption of the last row embeds the variable count, which reads back from it. */
  lemma {:induction false} VariablesCaptionReadsBack(data: Option<DataFile>)
    ensures
      var caption := Items(data)[4].caption;
      var digits := caption[11..|caption| - 1];
      && |caption| > 12
      && caption[..11] == "Variables ("
      && caption[|caption| - 1] == ')'
      && (forall i :: 0 <= i < |digits| ==> IsDigit(digits[i]))
      && DecimalValue(digits) == VariablesCount(data)
  {
    var n := VariablesCount(data);
    var caption := Items(data)[4].caption;
    assert caption == "Variables (" + NatToDecimal(n) + ")";
    assert caption[11..|caption| - 1] == NatToDecimal(n);
    DecimalRoundTrip(n);
  }

  /**
   * The variables row: the names upper-cased and joined, so it is as long as
   * the names plus one separator between each two, and holds no lower-case
   * letter; with an empty list it is empty, not the fallback.
   */
  lemma {:induction false} VariablesTextShape(data: Option<DataFile>)
    requires Variables(data).Some?
    ensures var vs := Variables(data).value;
      && (vs == [] ==> VariablesText(data) == "")
      && (vs != [] ==> |VariablesText(data)| == TotalLength(UpperNames(vs)) + 2 * (|vs| - 1))
      && forall j :: 0 <= j < |VariablesText(data)| ==> !IsLowerLetter(VariablesText(data)[j])
  {
    var names := UpperNames(Variables(data).value);
    JoinLength(names, Separator);
    forall i, j | 0 <= i < |names| && 0 <= j < |names[i]|
      ensures !IsLowerLetter(names[i][j])
    {
    }
    JoinNoLower(names, Separator);
  }
}
