# FCQC dashboard core in Dafny

The FCQC dashboard shows a static dataset of forecast-model skill statistics.
The dataset is organised by region, then model, then variable. Each variable
holds a forecast-day × timestep matrix. This project models the dashboard's
deterministic list and string logic:

- **Regions listing route** (`GET /api/regions`), module `RegionsRoute`. It builds one summary row per
  region `{id, label, modelCount, variableCount}`, the row count, and totals taken from the metadata.
  Any failed dereference gives the 500 error `"Failed to fetch regions data"`.
- **Region picker component**, module `RegionListView`. No page in app/ mounts it. It holds the metadata's region labels and
  a case-insensitive search over them. Results are shown ten to a page. The class `RegionList`
  keeps the `page` and `search` state, changed by the Previous and Next buttons and the search box.
- **Regions overview page**, module `RegionsPage`. It covers `formatRegionName` (underscores become
  spaces and each word's first character is upper-cased), the search over formatted names, the
  "Avg Models/Region" card and the choice between the loading skeleton, the error alert and the dashboard.
- **Dataset overview table**, module `DatasetSummary`. It gives counts, the first and last date
  labels and the upper-cased, comma-joined variable names, each with its fallback.
- **Radar chart data**, module `ModelPerformanceRadar`. There is one data point per variable of the
  first model. It is keyed `metric`, plus one key per model name under which some model has a variable
  of exactly that name; a later model of the same name overwrites an earlier one, and a model named
  `metric` replaces the axis name.
- **Bias chart data**, module `BiasAnalysisChart`. There is one record per model, built from a
  case-insensitive `BIAS` lookup with a zero fallback.

Shared modules: `Common` (optional values), `Dataset` (the JSON shapes), `Text` (ASCII case mapping,
`includes`, `join`, decimal rendering), `Lists` (`findIndex`, `reduce` sums) and `Search` (the
case-insensitive substring filter used by both search boxes).

Notes on the model:

- The JSON field `label` is called `name` in the datatypes, because `label` is a Dafny keyword.
- The code reads the JSON file as `any` and uses optional chaining, so an absent level becomes an `Option`.
- `calculateMetricSummary` is a parameter of the two charts, of type `Summarizer = Matrix -> MetricSummary`. It is left uninterpreted.
- The listing's `availableVariables` has one name per metadata variable entry, in file order, with no
  de-duplication.

## Model

| member | source | states |
|---|---|---|
| `RegionsRoute.Get` | app/api/regions/route.ts:5-35 | The route succeeds exactly when every dereferenced part of the file is present. It then has one row per region in order, with id and label copied, `modelCount` = number of models and `variableCount` = sum of the models' variable counts. `total` = number of rows. `totalModels`/`totalRegions` are the metadata dimension lengths. `availableVariables` are the metadata names in order. Otherwise the result is status 500 with "Failed to fetch regions data" |
| `RegionsRoute.SummarizeRegion` | app/api/regions/route.ts:8-16 | A row copies id and label, counts the models, and its `reduce` result equals the reference sum of the models' variable counts |
| `RegionsRoute.SummarizeRegions` | app/api/regions/route.ts:8 | The `map` gives exactly one row per region, in the same order |
| `RegionsRoute.VariableNames` | app/api/regions/route.ts:24-26 | One name per metadata variable entry, in order |
| `Lists.SumFromIsSum` | app/api/regions/route.ts:12-15 | The `reduce` fold started at `acc` equals `acc` plus the reference sum, so started at 0 it is the sum (0 for an empty list) |
| `RegionsRoute.EmptyRegionCountsNothing` | app/api/regions/route.ts:11-15 | A region without models has modelCount 0 and variableCount 0 |
| `RegionsRoute.TotalRegionsMayDifferFromTotal` | app/api/regions/route.ts:20-23 | `totalRegions` is the declared metadata length, not the row count: the two can differ |
| `RegionListView.RegionLabels` | components/data/RegionList.tsx:20 | The picker lists the metadata's region labels when every level is present, and nothing when any level is missing |
| `RegionListView.FilterLabels` | components/data/RegionList.tsx:27-29 | Keeps only labels whose lower-cased text includes the lower-cased search, and keeps every such label |
| `Search.FilterIsOrderedSelection` | components/data/RegionList.tsx:27-29 | The filter result is the subsequence of the input at increasing positions, and a position is selected exactly when its entry matches. This also covers the search on app/regions/page.tsx:79-84 |
| `Search.FilterEmptyQuery` | components/data/RegionList.tsx:27-29 | An empty search keeps every entry |
| `Text.ContainsOccurs` | components/data/RegionList.tsx:28 | `includes` holds exactly when the needle occurs at some position of the text |
| `RegionListView.TotalPages` | components/data/RegionList.tsx:31-34 | At least 1, equal to 1 for no rows, and the ceiling of n/10 for n > 0 |
| `RegionListView.PageOf` | components/data/RegionList.tsx:35-38 | Page p is the contiguous block of at most 10 rows starting at (p-1)*10. It is full when enough rows remain, holds the remainder otherwise, and is empty past the end |
| `RegionListView.PagesFromCover` | components/data/RegionList.tsx:31-38 | Pages p..totalPages, read in order, are the rows from the first row of page p onward |
| `RegionListView.PagesConcatenate` | components/data/RegionList.tsx:31-38 | Pages 1..totalPages concatenated give back the filtered list |
| `RegionListView.EmptyPageIffNoMatch` | components/data/RegionList.tsx:79-89 | A page in range is empty exactly when no label matches |
| `RegionListView.Rows` | components/data/RegionList.tsx:79-89 | An empty page renders the single row "No regions found."; otherwise the page's labels |
| `RegionListView.RegionList.Paginated` | components/data/RegionList.tsx:35-38 | The current page has at most 10 labels and is empty exactly when nothing matches |
| `RegionListView.RegionList.constructor` | components/data/RegionList.tsx:20-23 | First render: page 1, empty search, labels from the data. The page is in range |
| `RegionListView.RegionList.SetSearch` | components/data/RegionList.tsx:41-43 | Changing the search (to a different text, as `onChange` only fires on a change) sets the text and resets the page to 1 |
| `RegionListView.RegionList.PressPrevious` | components/data/RegionList.tsx:93-101 | Disabled on page 1, otherwise one page back. The page stays in [1, totalPages] |
| `RegionListView.RegionList.PressNext` | components/data/RegionList.tsx:105-113 | Disabled on the last page, otherwise one page on. The page stays in [1, totalPages] |
| `RegionsPage.FormatRegionName` | app/regions/page.tsx:75-77 | Same length, no `_` in the output. Each `_` becomes a space. A letter or digit at a word start (start of string, or after a character that is neither) is upper-cased. Every other character is unchanged |
| `RegionsPage.CapitalizeWordStartsAt` | app/regions/page.tsx:76 | The `/\b\w/g` scan upper-cases exactly the word characters preceded by a word boundary |
| `RegionsPage.FormatIdempotent` | app/regions/page.tsx:75-77 | Formatting a formatted name changes nothing |
| `RegionsPage.FilteredRegions` | app/regions/page.tsx:79-84 | No data gives no rows. Otherwise a row is kept iff its lower-cased formatted name includes the lower-cased query, in order |
| `RegionsPage.RoundHalfUp` | app/regions/page.tsx:199-202 | `Math.round(num/den)` is the integer r with r - 1/2 <= num/den < r + 1/2 |
| `RegionsPage.AvgModelsPerRegion` | app/regions/page.tsx:199-202 | With total > 0, the card shows the sum of `modelCount` over total, rounded half up. With total 0 it shows NaN (sum 0) or Infinity (sum > 0) |
| `RegionsPage.EmptyListingAverageIsNaN` | app/regions/page.tsx:199-202 | For a listing the route built with no regions, the card shows NaN |
| `RegionsPage.SelectView` | app/regions/page.tsx:91-139 | Loading shows the skeleton. Otherwise a non-empty error or missing data shows the alert: the error text, else "No regions data available.", so never an empty message. The dashboard shows only with data and no error |
| `DatasetSummary.RegionsCount` | components/data/Summary.tsx:17 | The number of regions, 0 when data or its region list is missing |
| `DatasetSummary.ForecastDaysCount` | components/data/Summary.tsx:18 | The number of date entries, 0 when missing |
| `DatasetSummary.FirstDate` | components/data/Summary.tsx:19 | The first label of the first date entry; "Date unavailable" when there is no entry or that entry has no label |
| `DatasetSummary.LastDate` | components/data/Summary.tsx:20-21 | The first label of the last date entry; "Date unavailable" when there is no entry or that entry has no label |
| `DatasetSummary.VariablesText` | components/data/Summary.tsx:22-25 | The upper-cased variable names joined with ", ", in metadata order; "Unavailable" without a variables list |
| `DatasetSummary.Items` | components/data/Summary.tsx:28-38 | Always five rows in the order regions, forecast_days, first_date, last_date, variables. The last caption embeds the variable count |
| `DatasetSummary.NoDataFallbacks` | components/data/Summary.tsx:17-38 | Without data the rows show 0, 0, "Date unavailable" twice, "Unavailable" and the caption "Variables (0)" |
| `DatasetSummary.SingleEntryDatesCoincide` | components/data/Summary.tsx:19-21 | With exactly one date entry, the first and last dates coincide |
| `DatasetSummary.VariablesCaptionReadsBack` | components/data/Summary.tsx:35 | The variables caption is "Variables (" + digits + ")" and the digits read back as the variable count |
| `DatasetSummary.VariablesTextShape` | components/data/Summary.tsx:22-25 | The joined text has no lower-case letter and is as long as the names plus one ", " between each two. An empty list gives "" (not the fallback) |
| `ModelPerformanceRadar.FindVariable` | components/charts/ModelPerformanceRadar.tsx:41 | `find` stops at the first variable whose name matches exactly, and finds none only when no variable matches |
| `ModelPerformanceRadar.InitialPoint` | components/charts/ModelPerformanceRadar.tsx:36-38 | `{ metric: name }` is the point before any model has written |
| `ModelPerformanceRadar.StepWrites` | components/charts/ModelPerformanceRadar.tsx:40-47 | A model with the metric writes its average under its name, replacing an earlier model of the same name |
| `ModelPerformanceRadar.StepSkips` | components/charts/ModelPerformanceRadar.tsx:40-47 | A model without the metric leaves the point unchanged |
| `ModelPerformanceRadar.WriteScore` | components/charts/ModelPerformanceRadar.tsx:40-47 | One `forEach` step keeps the point correct for the models seen so far |
| `ModelPerformanceRadar.BuildDataPoint` | components/charts/ModelPerformanceRadar.tsx:36-50 | The point has a key for a name iff some model of that name has an exactly-matching variable. Under that key it holds the avg of the first matching variable of the last model of that name that has one. `metric` holds the variable's name unless a model called "metric" with a matching variable overwrote it |
| `ModelPerformanceRadar.RadarData` | components/charts/ModelPerformanceRadar.tsx:35-51 | Undefined (not an empty list) without models. Otherwise one point per variable of the first model, in order, each as BuildDataPoint states |
| `ModelPerformanceRadar.DataPointDetermined` | components/charts/ModelPerformanceRadar.tsx:35-51 | The description in BuildDataPoint determines the point uniquely |
| `Lists.FindIndex` | components/charts/BiasAnalysisChart.tsx:36-38 | `find` returns the first position that satisfies the predicate, or none exactly when no position does |
| `BiasAnalysisChart.BiasRecordOf` | components/charts/BiasAnalysisChart.tsx:36-47 | Carries the model's name. With no bias variable, avg/min/max are all 0. Otherwise they are the summary's avg, min and max of the first bias variable |
| `BiasAnalysisChart.ChartData` | components/charts/BiasAnalysisChart.tsx:35-49 | One record per model, in model order |
| `BiasAnalysisChart.BiasSpellings` | components/charts/BiasAnalysisChart.tsx:36-38 | A variable is the bias variable iff its name is "bias" in any mix of letter cases ("Bias", "bias", "BIAS", ...) |

## Left out

- Fetching and effects are left out: `useEffect`, `fetch`, `response.json()` and the loading and error flags. `SelectView` takes the flags as parameters.
- JSX rendering, HeroUI components, Recharts configuration and theme colours are left out. So are the `i % len` colour choices.
- `calculateMetricSummary` and `processVariableData` are not part of this model. They live in app/regions/[selected]/page.tsx, and the charts receive the summary function as an uninterpreted parameter.
- These files are not part of this model: components/charts/RMSEAnalysisChart.tsx, TimeseriesByForecastDayChart.tsx and ModelComparisonTable.tsx, app/api/data/route.ts, app/api/regions/[regionId]/route.ts, app/test-regions/page.tsx and app/page.tsx.
- Navigation side effects are left out: `router.push`, `redirect` and the `selectedRegion` state.
- `toLowerCase`/`toUpperCase` map ASCII letters only. JavaScript's full Unicode case mapping, used in both searches and the bias lookup, is not modelled. `formatRegionName` is exact anyway, because `\w` is ASCII.
- Numbers are `real` (summary values) or `int` (ids, counts); floating point, `toFixed(4)` and float rounding error are not modelled.
- `RegionListView.RegionList.SetSearch`: the source resets the page in an effect that runs after the render with the new search. The one render with the new search and the old page is not modelled.
- `RegionListView.RegionList.constructor`: the labels are fixed when the picker is created. A later change of the `data` prop is not modelled, and it could leave `page` out of range.
- `ModelPerformanceRadar.BuildDataPoint`: a data point is a map, so the insertion order of the object's keys is not modelled.
- `ModelPerformanceRadar.BuildDataPoint`: a model labelled `__proto__` is modelled as writing a key of that name. In JavaScript the assignment goes to the inherited `__proto__` setter, which ignores a number, so the object gets no such key.
- The shapes are simplified:
  - The route's region, model and variable arrays are assumed present, as the interfaces declare. A region without `model` would also end in the 500 branch, but the shapes cannot express it.
  - Metadata variable entries always carry `name`.
  - Date labels are strings, so a `null` label is not a separate case.
  - The `forecast_day` and `date` axes of `metadata.dimensions` are not used by the core and are not modelled.
