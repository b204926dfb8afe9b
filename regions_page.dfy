/**
 * The regions overview page: region names made readable, the search over
 * them, the "Avg Models/Region" card and the choice between the error alert
 * and the dashboard.
 */
module RegionsPage {
  import opened Common
  import opened Text
  import opened Lists
  import opened Search
  import opened RegionsRoute

  /** `\w` in a JavaScript regular expression. */
  predicate IsWordChar(c: char) {
    IsLowerLetter(c) || IsUpperLetter(c) || IsDigit(c) || c == '_'
  }

  predicate IsAlphanumeric(c: char) {
    IsLowerLetter(c) || IsUpperLetter(c) || IsDigit(c)
  }

  /** `label.replace(/_/g, " ")` */
  function ReplaceUnderscores(s: string): (r: string)
    ensures |r| == |s|
    ensures forall i :: 0 <= i < |s| ==> r[i] == if s[i] == '_' then ' ' else s[i]
  {
    if s == [] then [] else [if s[0] == '_' then ' ' else s[0]] + ReplaceUnderscores(s[1..])
  }

  /**
   * `s.replace(/\b\w/g, l => l.toUpperCase())`, scanning left to right;
   * `afterWord` says whether the character before `s` is a word character.
   */
  function CapitalizeWordStarts(s: string, afterWord: bool): (r: string)
    ensures |r| == |s|
  {
    if s == [] then []
    else
      var c := if IsWordChar(s[0]) && !afterWord then UpperChar(s[0]) else s[0];
      [c] + CapitalizeWordStarts(s[1..], IsWordChar(s[0]))
  }

  /** The regular expression's view of position `i`: a word character with a word boundary before it. */
  predicate BoundaryBefore(s: string, afterWord: bool, i: int)
    requires 0 <= i < |s|
  {
    IsWordChar(s[i]) && !(if i == 0 then afterWord else IsWordChar(s[i - 1]))
  }

  /** The scan upper-cases exactly the word characters that follow a word boundary. */
  lemma {:induction false} CapitalizeWordStartsAt(s: string, afterWord: bool)
    ensures forall i :: 0 <= i < |s| ==>
      CapitalizeWordStarts(s, afterWord)[i] == if BoundaryBefore(s, afterWord, i) then UpperChar(s[i]) else s[i]
  {
    if s != [] {
      var tail := s[1..];
      CapitalizeWordStartsAt(tail, IsWordChar(s[0]));
      forall i | 1 <= i < |s|
        ensures BoundaryBefore(s, afterWord, i) == BoundaryBefore(tail, IsWordChar(s[0]), i - 1)
      {
        assert tail[i - 1] == s[i];
        if i > 1 {
          assert tail[i - 2] == s[i - 1];
        }
      }
    }
  }

  /**
   * Position `i` of a raw region name starts a word of the formatted name: it is a
   * letter or digit and comes first or after a character that is neither
   * (an underscore counts as a separator, since it has become a space).
   */
  predicate StartsWord(raw: string, i: int)
    requires 0 <= i < |raw|
  {
    IsAlphanumeric(raw[i]) && (i == 0 || !IsAlphanumeric(raw[i - 1]))
  }

  /** `formatRegionName` */
  function FormatRegionName(raw: string): (r: string)
    ensures |r| == |raw|
    ensures forall i :: 0 <= i < |r| ==> r[i] != '_'
    ensures forall i :: 0 <= i < |raw| ==>
      r[i] == if raw[i] == '_' then ' '
              else if StartsWord(raw, i) then UpperChar(raw[i])
              else raw[i]
  {
    var spaced := ReplaceUnderscores(raw);
    CapitalizeWordStartsAt(spaced, false);
    assert forall i :: 0 <= i < |raw| ==> (BoundaryBefore(spaced, false, i) <==> StartsWord(raw, i));
    CapitalizeWordStarts(spaced, false)
  }

  /** Formatting a formatted name changes nothing. */
  lemma FormatIdempotent(raw: string)
    ensures FormatRegionName(FormatRegionName(raw)) == FormatRegionName(raw)
  {
    var once := FormatRegionName(raw);
    var twice := FormatRegionName(once);
    assert forall i :: 0 <= i < |raw| ==> (IsAlphanumeric(once[i]) <==> IsAlphanumeric(raw[i]));
    forall i | 0 <= i < |raw|
      ensures twice[i] == once[i]
    {
      if StartsWord(raw, i) {
        assert StartsWord(once, i);
      } else if raw[i] != '_' && IsAlphanumeric(raw[i]) {
        assert !StartsWord(once, i);
      }
    }
  }

  function FormattedName(r: RegionSummary): string { FormatRegionName(r.name) }

  /** `filteredRegions`: search over the formatted names; no data gives no rows. */
  function FilteredRegions(data: Option<RegionsResponse>, query: string): (r: seq<RegionSummary>)
    ensures data.None? ==> r == []
    ensures data.Some? ==>
      && |r| <= |data.value.regions|
      && (forall i :: 0 <= i < |r| ==> r[i] in data.value.regions && Matches(FormatRegionName(r[i].name), query))
      && (forall j :: 0 <= j < |data.value.regions| && Matches(FormatRegionName(data.value.regions[j].name), query)
            ==> data.value.regions[j] in r)
  {
    match data
    case None => []
    case Some(d) => Filter(d.regions, FormattedName, query)
  }

  /** A number as JavaScript shows it: finite, or the result of dividing by zero. */
  datatype Shown = Finite(n: int) | NaN | Infinity

  /** `Math.round(num / den)` for a positive denominator: halves round up. */
  function RoundHalfUp(num: nat, den: nat): (r: int)
    requires den > 0
    ensures 2 * r * den - den <= 2 * num < 2 * r * den + den
  {
    var q := (2 * num + den) / (2 * den);
    assert 2 * num + den == q * (2 * den) + (2 * num + den) % (2 * den);
    q
  }

  function ModelCountOf(r: RegionSummary): nat { r.modelCount }

  /** The "Avg Models/Region" card: `Math.round(regions.reduce((sum, r) => sum + r.modelCount, 0) / total)`. */
  function AvgModelsPerRegion(data: RegionsResponse): (shown: Shown)
    ensures data.total > 0 ==>
      && shown.Finite?
      && 2 * shown.n * data.total - data.total <= 2 * Sum(data.regions, ModelCountOf)
      && 2 * Sum(data.regions, ModelCountOf) < 2 * shown.n * data.total + data.total
    ensures data.total == 0 && Sum(data.regions, ModelCountOf) == 0 ==> shown == NaN
    ensures data.total == 0 && Sum(data.regions, ModelCountOf) > 0 ==> shown == Infinity
  {
    var sum := SumFrom(data.regions, ModelCountOf, 0);
    SumFromIsSum(data.regions, ModelCountOf, 0);
    if data.total == 0 then (if sum == 0 then NaN else Infinity)
    else Finite(RoundHalfUp(sum, data.total))
  }

  /** For a listing the route built, an empty listing shows NaN, never Infinity. */
  lemma {:induction false} EmptyListingAverageIsNaN(data: Dataset.DataFile)
    requires Get(data).Success? && Get(data).body.regions == []
    ensures AvgModelsPerRegion(Get(data).body) == NaN
  {
  }

  /** What the page renders once the state is known. */
  datatype View = Loading | Alert(message: string) | Dashboard(data: RegionsResponse)

  const NoDataMessage := "No regions data available."

  /** A string is truthy in JavaScript when it is present and not empty. */
  predicate Truthy(s: Option<string>) { s.Some? && s.value != "" }

  /** The page's early returns: the skeleton while loading, the alert on an error or no data. */
  function SelectView(loading: bool, error: Option<string>, data: Option<RegionsResponse>): (v: View)
    ensures v.Loading? <==> loading
    ensures v.Dashboard? <==> !loading && !Truthy(error) && data.Some?
    ensures v.Dashboard? ==> data == Some(v.data)
    ensures v.Alert? ==> v.message == if Truthy(error) then error.value else NoDataMessage
    ensures v.Alert? ==> v.message != ""
  {
    if loading then Loading
    else if Truthy(error) || data.None? then Alert(if Truthy(error) then error.value else NoDataMessage)
    else Dashboard(data.value)
  }
}
