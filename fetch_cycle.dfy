/** One run of the data-fetch effect (src/App.jsx:72-122) as a function of
    the state it starts from: the guard, the three stages in order with an
    early stop on the first non-ok reply, and the refinement step at the end
    of a successful state-scoped cycle. */
module FetchCycle {
  import opened Js
  import opened Dashboard
  import opened Api
  import opened Refinement

  datatype Stage = OverviewStage | ChoroplethStage | SeriesStage

  /** What `erro` reports: the metadata load or one stage of a cycle failed. */
  datatype Failure = MetadataLoad | FetchFailed(stage: Stage)

  /** Everything a cycle reads or writes: `filtros`, `autoTries.current`,
      the three stored results and `erro` (None is the empty message). */
  datatype State = State(filters: Filters, tries: nat,
                         overview: Option<Overview>, choropleth: Option<Choropleth>,
                         series: Option<Series>, error: Option<Failure>)

  /** The requests a cycle sent, in order, and the state it left. */
  datatype Outcome = Outcome(issued: seq<Request>, next: State)

  /** `if (!filtros.ano || !filtros.cultura) return;` (src/App.jsx:73). */
  predicate Ready(f: Filters) { f.ano != "" && f.cultura != "" }

  /** The requests of a cycle in which every stage succeeds. */
  function Plan(f: Filters): (p: seq<Request>)
    ensures |p| == (if f.uf != "" then 3 else 2)
    ensures p[0].endpoint == StatsOverview && p[1].endpoint == MapChoropleth
    ensures |p| == 3 ==> p[2].endpoint == Timeseries
  {
    [OverviewRequest(f), ChoroplethRequest(f)] + (if f.uf != "" then [SeriesRequest(f)] else [])
  }

  function StageOf(rq: Request): Stage {
    match rq.endpoint
    case StatsOverview => OverviewStage
    case MapChoropleth => ChoroplethStage
    case Timeseries => SeriesStage
  }

  /** Both replies the degeneracy test reads are ok and all zero. */
  predicate DegenerateReplies(api: DataProvider, f: Filters) {
    api.overview(OverviewRequest(f)).Ok? && api.series(SeriesRequest(f)).Ok? &&
    IsDegenerate(api.overview(OverviewRequest(f)).body, api.series(SeriesRequest(f)).body)
  }

  /** The refinement step after the time series is stored
      (src/App.jsx:101-114): the counter goes up before any axis is tried,
      even when no axis can move. */
  function Refine(meta: Meta, s: State, ov: Overview, se: Series): (r: State)
    ensures r.overview == s.overview && r.choropleth == s.choropleth && r.series == s.series && r.error == s.error
    ensures r.filters.uf == s.filters.uf
    ensures s.tries <= MaxTries ==> r.tries <= MaxTries
    ensures r.tries == s.tries || r.tries == s.tries + 1
    ensures r.tries == s.tries + 1 <==> s.tries < MaxTries && IsDegenerate(ov, se)
    ensures r.filters == (if r.tries == s.tries + 1 then NextFilters(s.filters, meta) else s.filters)
  {
    if s.tries < MaxTries && IsDegenerate(ov, se)
    then s.(tries := s.tries + 1, filters := NextFilters(s.filters, meta))
    else s
  }

  /** One fetch cycle from state s: it never moves the state code and never
      sends more than the plan. Its other properties are the lemmas below. */
  function Cycle(meta: Meta, api: DataProvider, s: State): (o: Outcome)
    ensures o.next.filters.uf == s.filters.uf
    ensures |o.issued| <= 3
  {
    var f := s.filters;
    if !Ready(f) then Outcome([], s)
    else
      var s0 := s.(error := None);
      var oq := OverviewRequest(f);
      var ov := api.overview(oq);
      if ov.NotOk? then Outcome([oq], s0.(error := Some(FetchFailed(OverviewStage))))
      else
        var s1 := s0.(overview := Some(ov.body));
        var cq := ChoroplethRequest(f);
        var ch := api.choropleth(cq);
        if ch.NotOk? then Outcome([oq, cq], s1.(error := Some(FetchFailed(ChoroplethStage))))
        else
          var s2 := s1.(choropleth := Some(ch.body));
          if f.uf == "" then Outcome([oq, cq], s2.(series := None))
          else
            var sq := SeriesRequest(f);
            Outcome([oq, cq, sq], SeriesStep(meta, api, s2, ov.body))
  }

  /** The time-series stage and the refinement step after it
      (src/App.jsx:93-115), from the state the first two stages left. */
  function SeriesStep(meta: Meta, api: DataProvider, s: State, ov: Overview): (r: State)
    ensures r.overview == s.overview && r.choropleth == s.choropleth
    ensures r.filters.uf == s.filters.uf
    ensures api.series(SeriesRequest(s.filters)).NotOk? ==>
              r == s.(error := Some(FetchFailed(SeriesStage)))
    ensures api.series(SeriesRequest(s.filters)).Ok? ==>
              r.series == Some(api.series(SeriesRequest(s.filters)).body) && r.error == s.error
    ensures r.tries == s.tries || r.tries == s.tries + 1
    ensures r.tries == s.tries + 1 <==>
              s.tries < MaxTries && api.series(SeriesRequest(s.filters)).Ok? &&
              IsDegenerate(ov, api.series(SeriesRequest(s.filters)).body)
    ensures r.filters == (if r.tries == s.tries + 1 then NextFilters(s.filters, meta) else s.filters)
  {
    var se := api.series(SeriesRequest(s.filters));
    if se.NotOk? then s.(error := Some(FetchFailed(SeriesStage)))
    else Refine(meta, s.(series := Some(se.body)), ov, se.body)
  }

  /** Without both year and crop nothing is fetched and nothing changes;
      otherwise the stages run in order, each only after the previous one
      succeeded. */
  lemma CycleRunsStagesInOrder(meta: Meta, api: DataProvider, s: State)
    ensures var o := Cycle(meta, api, s);
            (!Ready(s.filters) ==> o.issued == [] && o.next == s) &&
            (Ready(s.filters) ==> 1 <= |o.issued| <= |Plan(s.filters)| && o.issued == Plan(s.filters)[..|o.issued|]) &&
            (forall i :: 0 <= i < |o.issued| - 1 ==> Succeeds(api, o.issued[i]))
  {
  }

  /** A cycle reports an error exactly when it stopped early, and the error
      names the stage whose reply was not ok. */
  lemma CycleReportsFailedStage(meta: Meta, api: DataProvider, s: State)
    requires Ready(s.filters)
    ensures var o := Cycle(meta, api, s);
            (o.next.error.None? <==> o.issued == Plan(s.filters) && Succeeds(api, o.issued[|o.issued| - 1])) &&
            (o.next.error.Some? ==>
               !Succeeds(api, o.issued[|o.issued| - 1]) &&
               o.next.error == Some(FetchFailed(StageOf(o.issued[|o.issued| - 1]))))
  {
  }

  /** A result is stored exactly when its stage succeeded; results of stages
      that did not run are left as they were, and a cycle without a state
      code clears the time series. */
  lemma CycleStoresResults(meta: Meta, api: DataProvider, s: State)
    requires Ready(s.filters)
    ensures var o := Cycle(meta, api, s);
            o.next.overview == (if Succeeds(api, o.issued[0]) then Some(api.overview(o.issued[0]).body)
                                else s.overview) &&
            o.next.choropleth == (if |o.issued| >= 2 && Succeeds(api, o.issued[1])
                                  then Some(api.choropleth(o.issued[1]).body) else s.choropleth) &&
            o.next.series == (if |o.issued| == 3 && Succeeds(api, o.issued[2]) then Some(api.series(o.issued[2]).body)
                              else if s.filters.uf == "" && o.next.error.None? then None
                              else s.series)
  {
  }

  /** The counter never passes the budget and rises by exactly one on every
      degenerate state-scoped result seen under budget, whether or not an axis
      can still move; the filters change only when it rises, and then by one
      relaxation step. */
  lemma CycleSpendsOneTry(meta: Meta, api: DataProvider, s: State)
    ensures var o := Cycle(meta, api, s);
            (s.tries <= MaxTries ==> o.next.tries <= MaxTries) &&
            (o.next.tries == s.tries || o.next.tries == s.tries + 1) &&
            (o.next.tries == s.tries + 1 <==>
               Ready(s.filters) && s.filters.uf != "" && s.tries < MaxTries &&
               Succeeds(api, ChoroplethRequest(s.filters)) && DegenerateReplies(api, s.filters)) &&
            o.next.filters == (if o.next.tries == s.tries + 1 then NextFilters(s.filters, meta) else s.filters)
  {
  }

  /** Without a state code there is no time series and no refinement: the
      filters and the counter stay as they were. */
  lemma CycleWithoutRegionKeepsFilters(meta: Meta, api: DataProvider, s: State)
    requires s.filters.uf == ""
    ensures |Cycle(meta, api, s).issued| <= 2
    ensures Cycle(meta, api, s).next.filters == s.filters
    ensures Cycle(meta, api, s).next.tries == s.tries
  {
  }

  /** Once the budget is spent a degenerate result is shown as it is. */
  lemma CycleAfterBudgetKeepsFilters(meta: Meta, api: DataProvider, s: State)
    requires s.tries == MaxTries
    ensures Cycle(meta, api, s).next.filters == s.filters
    ensures Cycle(meta, api, s).next.tries == MaxTries
  {
  }

  /** A failed choropleth stops the cycle: the overview of this cycle is kept,
      the time series is neither requested nor touched. */
  lemma CycleChoroplethFailure(meta: Meta, api: DataProvider, s: State)
    requires Ready(s.filters)
    requires api.overview(OverviewRequest(s.filters)).Ok?
    requires api.choropleth(ChoroplethRequest(s.filters)).NotOk?
    ensures Cycle(meta, api, s).issued == [OverviewRequest(s.filters), ChoroplethRequest(s.filters)]
    ensures Cycle(meta, api, s).next.error == Some(FetchFailed(ChoroplethStage))
    ensures Cycle(meta, api, s).next.overview == Some(api.overview(OverviewRequest(s.filters)).body)
    ensures Cycle(meta, api, s).next.choropleth == s.choropleth
    ensures Cycle(meta, api, s).next.series == s.series
    ensures Cycle(meta, api, s).next.filters == s.filters
  {
  }

  /** A cycle that does not spend a try changes nothing a second time over:
      from the state it left, the same requests get the same replies and the
      state stays as it is. In particular, filters whose results are not
      degenerate stay put however often the cycle runs. */
  lemma CycleWithoutRefinementIsStable(meta: Meta, api: DataProvider, s: State)
    requires Cycle(meta, api, s).next.tries == s.tries
    ensures Cycle(meta, api, Cycle(meta, api, s).next).issued == Cycle(meta, api, s).issued
    ensures Cycle(meta, api, Cycle(meta, api, s).next).next == Cycle(meta, api, s).next
  {
    var f := s.filters;
    var n := Cycle(meta, api, s).next;
    CycleSpendsOneTry(meta, api, s);
    assert n.filters == f && n.tries == s.tries;
    if Ready(f) {
      var oq, cq, sq := OverviewRequest(f), ChoroplethRequest(f), SeriesRequest(f);
      if api.overview(oq).NotOk? {
      } else if api.choropleth(cq).NotOk? {
      } else if f.uf == "" {
      } else if api.series(sq).NotOk? {
      } else {
        assert !(s.tries < MaxTries && IsDegenerate(api.overview(oq).body, api.series(sq).body));
        assert n == s.(error := None, overview := Some(api.overview(oq).body),
                       choropleth := Some(api.choropleth(cq).body), series := Some(api.series(sq).body));
      }
    }
  }

  /** The effect re-run by React while the filters keep changing
      (src/App.jsx:123): a cycle whose relaxation moved the filters starts
      the next one, and the chain ends at the first cycle that leaves them
      as it found them. A filter change spends a try, so at most
      MaxTries - s.tries cycles follow the first. */
  function Settle(meta: Meta, api: DataProvider, s: State): State
    requires s.tries <= MaxTries
    decreases MaxTries - s.tries
  {
    var n := Cycle(meta, api, s).next;
    CycleSpendsOneTry(meta, api, s);
    if n.filters == s.filters then n else Settle(meta, api, n)
  }

  /** When the chain of cycles ends, its shown results belong to the final
      filters: without an error, the overview, the choropleth and the time
      series are the replies to the requests built from those filters, and
      the last cycle left the filters unchanged. */
  lemma {:induction false} SettledResultsMatchFilters(meta: Meta, api: DataProvider, s: State)
    requires s.tries <= MaxTries
    ensures var r := Settle(meta, api, s);
            r.tries <= MaxTries &&
            (Ready(r.filters) && r.error.None? ==>
               r.overview.Some? && api.overview(OverviewRequest(r.filters)) == Ok(r.overview.value) &&
               r.choropleth.Some? && api.choropleth(ChoroplethRequest(r.filters)) == Ok(r.choropleth.value) &&
               (r.filters.uf != "" ==> r.series.Some? && api.series(SeriesRequest(r.filters)) == Ok(r.series.value)) &&
               (r.filters.uf == "" ==> r.series.None?))
    decreases MaxTries - s.tries
  {
    var n := Cycle(meta, api, s).next;
    CycleSpendsOneTry(meta, api, s);
    if n.filters != s.filters {
      SettledResultsMatchFilters(meta, api, n);
    }
  }

  /** The chain really has ended: one more cycle from the state it settled
      in does not move the filters, so React would not re-run the effect. */
  lemma {:induction false} SettledFiltersAreStable(meta: Meta, api: DataProvider, s: State)
    requires s.tries <= MaxTries
    ensures Cycle(meta, api, Settle(meta, api, s)).next.filters == Settle(meta, api, s).filters
    decreases MaxTries - s.tries
  {
    var n := Cycle(meta, api, s).next;
    CycleSpendsOneTry(meta, api, s);
    if n.filters != s.filters {
      SettledFiltersAreStable(meta, api, n);
    } else {
      CycleSpendsOneTry(meta, api, n);
    }
  }

  /** A session whose first state-scoped cycle comes back all zero: the metric
      moves from valor_mil_reais to area_ha and the counter becomes 1. */
  lemma ExampleMetricRelaxation(meta: Meta, s: State)
    requires s.filters == Filters("2023", "SP", "Soja", "valor_mil_reais") && s.tries == 0
    ensures var api := DataProvider(
                (rq: Request) => Ok(Overview(Kpis(None, None, None), Some([Ranked("Sorriso", Some(0.0))]))),
                (rq: Request) => Ok(Choropleth(Some([]))),
                (rq: Request) => Ok(Series(Some([Point("2023", Some(0.0))]))));
            Cycle(meta, api, s).next.filters == Filters("2023", "SP", "Soja", "area_ha") &&
            Cycle(meta, api, s).next.tries == 1 &&
            Cycle(meta, api, s).issued == Plan(s.filters)
  {
    NextFiltersAdvancesMetric(s.filters, meta);
  }
}
