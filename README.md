# Query-refinement controller of the agribusiness dashboard

The dashboard is one React component, `src/App.jsx`. On mount it loads the
filter metadata (years, state codes, crops) from `/filters`. It then picks
default filters. On every filter change it fetches an overview, a choropleth
table and, when a state code is selected, a time series. If the overview's
ranked municipalities and the time series both come back all zero, it spends
one of three automatic tries. It then relaxes one filter field: first the
metric, then the crop, then the year. The new filters start the next fetch
cycle.

This project models that controller in Dafny. The modules are:

- `Js` (js.dfy) holds the JavaScript built-ins the code relies on:
  `findIndex`, `indexOf`, `find`, `every`, `filter(Boolean)`,
  `Number(x) || 0`, and `String()` of a year entry.
- `Dashboard` (dashboard.dfy) holds the constants `UF_ALL` and `VAR_ORDER`,
  the filter and metadata values, and the initial resolution.
- `Api` (api.dfy) holds the three requests, built from the filters, and the
  reply bodies.
- `Refinement` (refinement.dfy) holds the degeneracy test and the relaxation
  step.
- `FetchCycle` (fetch_cycle.dfy) defines one run of the fetch effect as a
  function of the state it starts from.
- `App` (controller.dfy) holds the class `RefinementController`. Its fields
  are `meta`, `filters`, `tries` (the `autoTries` ref), the three stored
  results and `error`. Its methods are:
  - the constructor, which mounts the component;
  - `Step`, which runs one fetch cycle in place;
  - `Refresh`, which re-runs `Step` while a cycle keeps changing the filters.

  `Step` is proved to leave exactly the state that the `Cycle` function
  computes, and `Refresh` exactly the state that `Settle` (the chain of
  cycles up to the first one that leaves the filters alone) computes.

Replies from the data source are an input: a `DataProvider` maps each
request to `Ok(body)` or `NotOk`. The base URL (`API_URL`) is not part of a
request. A request is its endpoint plus its ordered list of query
parameters with their raw values.

Details of the code that the model keeps, some of which a reader of the
relaxation rule alone might not expect:

- State codes pass through `filter(Boolean)` before the "at least 5" test.
- A relaxation step changes at most one field, not exactly one. A year list
  with a repeated entry can "move" the year to the same text. Then nothing
  changes and, because React's dependency list is unchanged, no new cycle
  starts. `Refresh` stops there too.
- `find` returns the first crop that is neither the current one nor
  `"Total"`. If that entry is falsy, the crop axis counts as unavailable and
  the year is tried next. The search does not go on to later crops.
- A year entry `""` (or a year list with no usable entry, such as an empty
  `anos`) can leave the year unset. The next cycle then stops at the guard,
  so the results shown still belong to the previous filters, or there are
  none.
- The try budget is per mount. The ref is never reset, not even when the
  user changes filters.
- The proved lemma `CropAxisNeverExhausts` shows a consequence of the code.
  When the crop list holds no falsy entry and at least two distinct crops
  besides `"Total"`, the crop axis never runs out: at the last metric each
  step alternates between crops, and the year is never relaxed. A falsy entry
  changes this: with crops `["Total", null, "Soja", "Milho"]` at `"Soja"`,
  `find` returns the null entry, the crop axis counts as unavailable and the
  year moves.

Value representation:

- A falsy crop or state entry (null or `""`) behaves the same everywhere in
  this code, so it is written `""`.
- Year entries are `Option<string>`: JSON null is `None`, because `??` and
  `String(null) == "null"` treat it differently from `""`.
- Numeric fields are `Option<real>`, where `None` stands for a field that is
  missing or null, or whose `Number(...)` is NaN. `Number(null)` is 0, not
  NaN, but `|| 0` sends both to 0, so the two need not be told apart.

## Model

| member | source | states |
|---|---|---|
| `Js.ToNumOrZero` | src/App.jsx:102-103 | `Number(v) \|\| 0` is zero exactly when the value is missing/NaN or zero, and is the number itself otherwise |
| `Js.FindIndex` | src/App.jsx:112 | result is -1 exactly when no element satisfies the predicate; otherwise the element there satisfies it and none before does |
| `Js.IndexOf` | src/App.jsx:106 | -1 exactly when the value is absent; otherwise the first position holding it |
| `Js.Find` | src/App.jsx:61 | undefined exactly when no element satisfies the predicate; otherwise the element at the first satisfying position |
| `Js.Every` | src/App.jsx:102-103 | true exactly when every element satisfies the predicate (so true on an empty list) |
| `Js.Min` | src/App.jsx:106 | `Math.min`: the result is at most both arguments and equal to one of them |
| `Js.YearText` | src/App.jsx:112-113 | `String()` of a year entry: its text, or "null" for JSON null |
| `Js.FilterTruthy` | src/App.jsx:53 | each truthy entry is kept as often as it occurs and every falsy entry is dropped, so the result is no longer than the input |
| `Js.FilterTruthyOfConcat` | src/App.jsx:53 | filtering keeps the order: the filter of a concatenation is the concatenation of the filters |
| `Js.FilterTruthyFirst` | src/App.jsx:53-60 | the first kept entry, which `ufs[0]` reads, is the first truthy entry of the input |
| `Js.FilterTruthyKeepsTruthyList` | src/App.jsx:53 | filtering a list with no falsy entry returns it unchanged |
| `Dashboard.UfAllFacts` | src/App.jsx:17 | the fallback list has 27 truthy codes, and "SP" is among them |
| `Dashboard.ResolveMeta` | src/App.jsx:53-57 | non-array fields become empty lists; the state list is the filtered API list when it has at least 5 codes and `UF_ALL` otherwise; so it always has at least 5 truthy codes |
| `Dashboard.DefaultYear` | src/App.jsx:59 | the first year if it is not null, else the last year if that is not null, else "" (also for an empty list) |
| `Dashboard.DefaultUf` | src/App.jsx:60 | "SP" exactly when the list contains "SP"; otherwise the first code, or "" for an empty list |
| `Dashboard.DefaultCrop` | src/App.jsx:61 | the first non-"Total" crop when it is truthy; otherwise the first entry, or "" |
| `Dashboard.DefaultFilters` | src/App.jsx:59-62 | in terms of the metadata: the first year unless it is null (then the last year, or ""); "SP" exactly when offered, else the first state code or ""; the first non-"Total" crop when truthy, else the first crop or ""; and the metric `valor_mil_reais` |
| `Dashboard.InitialRegionIsSet` | src/App.jsx:53-60 | whatever `/filters` returns, the initial state code is non-empty |
| `Dashboard.InitialCropAvoidsTotal` | src/App.jsx:61 | the default crop is "Total" only if the list starts with "Total" and its first other entry is falsy or absent |
| `Dashboard.CanonicalListIsKept` | src/App.jsx:53-54 | an API list equal to the 27 canonical codes is kept as it is |
| `Dashboard.ExampleInitialState` | src/App.jsx:53-62 | years [2023, 2022], the 27 states and crops [Total, Soja, Milho] give the filters {2023, SP, Soja, valor_mil_reais} |
| `Dashboard.ExampleDefaults` | src/App.jsx:59-61 | the default year, state code and crop of that example session |
| `Api.OverviewRequest` | src/App.jsx:79-81 | the overview request built from the filters; its contents are stated by the lemma below |
| `Api.ChoroplethRequest` | src/App.jsx:86-88 | the choropleth request built from the filters; its contents are stated by the lemma below |
| `Api.SeriesRequest` | src/App.jsx:94-96 | the time-series request built from the filters; its contents are stated by the lemma below |
| `Api.OverviewRequestCarriesFilters` | src/App.jsx:79-81 | the overview query carries exactly these parameters: `ano` first, `uf` exactly when it is set, `cultura` exactly when it is set, no metric, and each value is the filter field of its name |
| `Api.ChoroplethRequestCarriesFilters` | src/App.jsx:86-88 | the choropleth query carries exactly these parameters: `ano` first, `uf` exactly when it is set, then `cultura` and `variavel`, in that order, as the last two, with their filter values |
| `Api.SeriesRequestCarriesFilters` | src/App.jsx:94-96 | the time-series query carries exactly `uf`, `cultura` and `variavel` with their filter values, and no year |
| `Refinement.IsDegenerate` | src/App.jsx:102-104 | degenerate exactly when every ranked value and every series value coerces to 0; a missing list counts as empty |
| `Refinement.DegenerateCases` | src/App.jsx:102-104 | all-missing values and missing lists are degenerate; one non-zero number in either list makes the result not degenerate |
| `Refinement.NextMetric` | src/App.jsx:106-107 | each metric but the last moves to the next in `VAR_ORDER`; the last stays put; an unknown metric moves to the first |
| `Refinement.NextFilters` | src/App.jsx:106-113 | a relaxation step never changes the state code and changes at most one of metric, crop and year |
| `Refinement.NextFiltersAdvancesMetric` | src/App.jsx:106-108 | first priority: a metric other than the last advances, and nothing else changes |
| `Refinement.NextFiltersSwitchesCrop` | src/App.jsx:109-110 | second priority: at the last metric, the crop becomes the first entry that is neither the current crop nor "Total", when that entry is truthy |
| `Refinement.NextFiltersStepsYear` | src/App.jsx:111-113 | third priority: at the last metric with no usable crop, the year becomes the entry after the first one whose text matches, when that entry is not the last |
| `Refinement.NextFiltersExhausted` | src/App.jsx:106-114 | when no axis can move, the filters are unchanged |
| `Refinement.CropAxisNeverExhausts` | src/App.jsx:109-110 | with two distinct truthy crops besides "Total" and no falsy entry, a step at the last metric always changes the crop and never the year |
| `Refinement.ExampleCropRelaxation` | src/App.jsx:109-110 | on crops [Total, Soja, Milho] at producao_t, Milho moves to Soja and Soja moves back to Milho |
| `FetchCycle.Ready` | src/App.jsx:73 | a cycle fetches only when both year and crop are set; its effect is stated by `CycleRunsStagesInOrder` |
| `FetchCycle.Refine` | src/App.jsx:101-114 | the refinement leaves the stored results and the error alone and never moves the state code; the counter either stays or rises by one, and rises exactly when it is under budget and the result is degenerate; it stays within 3; when it rises the filters become one relaxation step (`NextFilters`) of the old ones, otherwise they stay |
| `FetchCycle.SeriesStep` | src/App.jsx:93-115 | the time-series stage keeps the overview, the choropleth and the state code; a failed reply sets the series error and changes nothing else; an ok reply is stored and keeps the error as it was; the counter either stays or rises by one, rising exactly when it is under budget, the reply is ok and the result is degenerate; when it rises the filters become one relaxation step of the old ones, otherwise they stay |
| `FetchCycle.Cycle` | src/App.jsx:72-122 | one run of the fetch effect never moves the state code and sends at most three requests; the lemmas below give the rest of its behaviour |
| `FetchCycle.Plan` | src/App.jsx:79-99 | a fully successful cycle sends overview, then choropleth, then a time-series request only when a state code is set |
| `FetchCycle.CycleRunsStagesInOrder` | src/App.jsx:73-99 | without both year and crop nothing is sent and nothing changes; otherwise the requests sent are a non-empty prefix of the plan, and every request before the last one succeeded |
| `FetchCycle.CycleReportsFailedStage` | src/App.jsx:77-118 | for a cycle whose year and crop are set: it ends with no error exactly when it sent the whole plan and the last reply was ok; otherwise the error names the stage of the last request, whose reply was not ok |
| `FetchCycle.CycleStoresResults` | src/App.jsx:84-116 | each result is replaced exactly when its stage succeeded and is otherwise left as it was; without a state code a successful cycle clears the time series |
| `FetchCycle.CycleSpendsOneTry` | src/App.jsx:101-113 | the counter stays within 3 and rises by exactly one when a degenerate state-scoped result is seen under budget, even when no axis can move; the filters change only then, and by one relaxation step |
| `FetchCycle.CycleWithoutRegionKeepsFilters` | src/App.jsx:93-116 | without a state code at most two requests are sent and the filters and the counter are unchanged |
| `FetchCycle.CycleAfterBudgetKeepsFilters` | src/App.jsx:101 | once three tries are spent, a cycle changes neither the filters nor the counter |
| `FetchCycle.CycleChoroplethFailure` | src/App.jsx:84-91 | a failed choropleth stops the cycle after two requests: the error names the choropleth, this cycle's overview is kept, the stored choropleth and time series are untouched |
| `FetchCycle.CycleWithoutRefinementIsStable` | src/App.jsx:72-123 | a cycle that spends no try is a fixed point: running it again from the state it left sends the same requests and leaves the same state |
| `FetchCycle.Settle` | src/App.jsx:72-123 | the chain of fetch cycles that React starts while the dependency list keeps changing, up to the first cycle that leaves the filters unchanged; a filter change spends a try, so the chain is finite |
| `FetchCycle.SettledResultsMatchFilters` | src/App.jsx:72-123 | the counter ends within 3; when the final year and crop are set and the chain ends without an error, the stored overview, choropleth and time series are the replies to the requests built from the final filters (no series without a state code) |
| `FetchCycle.SettledFiltersAreStable` | src/App.jsx:72-123 | one more cycle from the state the chain ends in leaves the filters unchanged, so React would not re-run the effect |
| `FetchCycle.ExampleMetricRelaxation` | src/App.jsx:101-108 | an all-zero state-scoped result with counter 0 at valor_mil_reais moves the metric to area_ha and sets the counter to 1 |
| `App.RefinementController.constructor` | src/App.jsx:21-69 | mounting starts with counter 0 and no results; a successful `/filters` reply sets the resolved metadata and default filters; a failed one reports the error and leaves the filters unset, so no cycle can run |
| `App.RefinementController.Step` | src/App.jsx:72-122 | one run of the fetch effect, performed in place, leaves exactly the state `Cycle` gives, reports the requests it sent, keeps the metadata and keeps the counter within budget |
| `App.RefinementController.FetchSeries` | src/App.jsx:93-115 | the time-series stage and the relaxation step leave the state `SeriesStep` gives |
| `App.RefinementController.Refresh` | src/App.jsx:72-123 | cycles re-run in place while the filters keep changing, and the component ends in exactly the state `Settle` gives; at least one and at most 4 − (tries already spent) cycles run; the counter rises by the number of cycles or one less |

## Left out

- Global style injection (src/App.jsx:31-43), chart data and options (125-169), the JSX layout and the 50-row table (207-311): presentation only.
- The filter selects (src/App.jsx:221-237): a user's change of a filter is not an operation of the model. Its effect is a new `Refresh` from the changed filters; the counter is not reset.
- `fmt` (src/App.jsx:171): locale formatting by `Intl.NumberFormat`.
- `fetch`, `r.json()` and the async plumbing: replies are inputs. A body that fails to parse, a JSON-null body, and a truthy non-array `top_municipios` or time-series `data` that would make `.every` throw (src/App.jsx:102-103) are not modelled.
- The `loading` flag and the error message texts: an error is represented by the stage it names (`Failure`), not by its Portuguese message.
- URL assembly, `encodeURIComponent` and `API_URL`: a request is its endpoint plus its raw parameter list.
- React's scheduling: effect re-triggering is modelled as the `Refresh` loop, and stale responses from overlapping cycles are not modelled. The metadata is fixed after mount, as in the source.
- Floating-point `Number()` coercion: values are exact reals, with `None` for NaN; a string that `Number()` would parse, or `Infinity`, is not distinguished.
