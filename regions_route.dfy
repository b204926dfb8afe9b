/**
 * `GET /api/regions`: one summary row per region of the dataset, the number
 * of rows, and totals taken from the dataset's metadata. Anything that goes
 * wrong while building the body becomes a 500 error.
 */
module RegionsRoute {
  import opened Common
  import opened Dataset
  import opened Lists

  datatype RegionSummary = RegionSummary(id: int, name: string, modelCount: nat, variableCount: nat)

  datatype ResponseMetadata = ResponseMetadata(totalModels: int, totalRegions: int, availableVariables: seq<string>)

  datatype RegionsResponse = RegionsResponse(regions: seq<RegionSummary>, total: nat, metadata: ResponseMetadata)

  /** The JSON body with status 200, or an error message with its status. */
  datatype Response = Success(body: RegionsResponse) | Failure(status: nat, error: string)

  const FetchFailedStatus: nat := 500
  const FetchFailedMessage := "Failed to fetch regions data"

  function VariableCountOf(m: Model): nat { |m.variable| }

  /** The region's row: `region.model.reduce((total, model) => total + model.variable.length, 0)`. */
  function SummarizeRegion(r: Region): (s: RegionSummary)
    ensures s.id == r.id && s.name == r.name
    ensures s.modelCount == |r.model|
    ensures s.variableCount == Sum(r.model, VariableCountOf)
  {
    SumFromIsSum(r.model, VariableCountOf, 0);
    RegionSummary(r.id, r.name, |r.model|, SumFrom(r.model, VariableCountOf, 0))
  }

  /** `data.region.map(...)` */
  function SummarizeRegions(rs: seq<Region>): (out: seq<RegionSummary>)
    ensures |out| == |rs|
    ensures forall i :: 0 <= i < |rs| ==> out[i] == SummarizeRegion(rs[i])
  {
    if rs == [] then [] else [SummarizeRegion(rs[0])] + SummarizeRegions(rs[1..])
  }

  /** Every part of the file the route dereferences is present. */
  predicate HasListingParts(data: DataFile) {
    && data.region.Some?
    && data.metadata.Some?
    && data.metadata.value.dimensions.Some?
    && data.metadata.value.dimensions.value.model.Some?
    && data.metadata.value.dimensions.value.region.Some?
    && data.metadata.value.variables.Some?
  }

  function VariableNames(vs: seq<VarDesc>): (names: seq<string>)
    ensures |names| == |vs|
    ensures forall i :: 0 <= i < |vs| ==> names[i] == vs[i].name
  {
    if vs == [] then [] else [vs[0].name] + VariableNames(vs[1..])
  }

  /** The handler: builds the listing, or fails with 500 when a dereference throws. */
  function Get(data: DataFile): (r: Response)
    ensures r.Failure? <==> !HasListingParts(data)
    ensures r.Failure? ==> r.status == FetchFailedStatus && r.error == FetchFailedMessage
    ensures r.Success? ==>
      var rs := data.region.value;
      var body := r.body;
      && |body.regions| == |rs|
      && body.total == |body.regions|
      && (forall i :: 0 <= i < |rs| ==>
            && body.regions[i].id == rs[i].id
            && body.regions[i].name == rs[i].name
            && body.regions[i].modelCount == |rs[i].model|
            && body.regions[i].variableCount == Sum(rs[i].model, VariableCountOf))
    ensures r.Success? ==>
      var md := data.metadata.value;
      && r.body.metadata.totalModels == md.dimensions.value.model.value.length
      && r.body.metadata.totalRegions == md.dimensions.value.region.value.length
      && |r.body.metadata.availableVariables| == |md.variables.value|
      && (forall i :: 0 <= i < |md.variables.value| ==>
            r.body.metadata.availableVariables[i] == md.variables.value[i].name)
  {
    match data.region
    case None => Failure(FetchFailedStatus, FetchFailedMessage)
    case Some(rs) =>
      var regions := SummarizeRegions(rs);
      match data.metadata
      case None => Failure(FetchFailedStatus, FetchFailedMessage)
      case Some(md) =>
        match (md.dimensions, md.variables)
        case (Some(dims), Some(vars)) =>
          if dims.model.None? || dims.region.None? then Failure(FetchFailedStatus, FetchFailedMessage)
          else
            Success(RegionsResponse(
              regions,
              |regions|,
              ResponseMetadata(dims.model.value.length, dims.region.value.length, VariableNames(vars))))
        case _ => Failure(FetchFailedStatus, FetchFailedMessage)
  }

  /** A region without models counts no models and no variables. */
  lemma EmptyRegionCountsNothing(id: int, name: string)
    ensures SummarizeRegion(Region(id, name, [])) == RegionSummary(id, name, 0, 0)
  {
  }

  /**
   * `totalRegions` is the metadata's declared length, not a count of the
   * region array: the two can disagree.
   */
  lemma TotalRegionsMayDifferFromTotal()
    ensures
      var data := DataFile(
        Some(Metadata(Some(Dimensions(Some(Dimension("regions", 3, None)), Some(Dimension("models", 0, None)))), Some([]))),
        None,
        Some([]));
      Get(data).Success? && Get(data).body.total == 0 && Get(data).body.metadata.totalRegions == 3
  {
  }
}
