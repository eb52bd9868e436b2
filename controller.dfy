/** The dashboard component's mutable state and its two effects: loading the
    metadata on mount (src/App.jsx:46-69) and the data fetch that runs on
    every filter change (src/App.jsx:72-123). */
module App {
  import opened Js
  import opened Dashboard
  import opened Api
  import opened Refinement
  import opened FetchCycle

  class RefinementController {
    var meta: Meta
    var filters: Filters
    var tries: nat
    var overview: Option<Overview>
    var choropleth: Option<Choropleth>
    var series: Option<Series>
    var error: Option<Failure>

    /** The retry counter `autoTries.current` stays within its budget. */
    ghost predicate Valid()
      reads this
    {
      tries <= MaxTries
    }

    /** The part of the component a fetch cycle reads and writes. */
    function Snapshot(): State
      reads this
    {
      State(filters, tries, overview, choropleth, series, error)
    }

    /** Mounting the component: the state of src/App.jsx:21-28, then the
        `/filters` reply. On success the metadata and the default filters
        are set; on failure the error is reported and the filters stay
        unset, so no fetch cycle can start. */
    constructor (load: Reply<RawMeta>)
      ensures Valid() && tries == 0
      ensures overview.None? && choropleth.None? && series.None?
      ensures load.Ok? ==> meta == ResolveMeta(load.body) && filters == DefaultFilters(meta) && error.None?
      ensures load.NotOk? ==> meta == InitialMeta && filters == InitialFilters && error == Some(MetadataLoad)
      ensures load.NotOk? ==> !Ready(filters)
    {
      tries := 0;
      overview, choropleth, series := None, None, None;
      if load.Ok? {
        var m := ResolveMeta(load.body);
        meta, filters, error := m, DefaultFilters(m), None;
      } else {
        meta, filters, error := InitialMeta, InitialFilters, Some(MetadataLoad);
      }
    }

    /** One run of the data-fetch effect against the data provider; returns
        the requests it sent, in order. */
    method Step(api: DataProvider) returns (issued: seq<Request>)
      requires Valid()
      modifies this
      ensures Valid() && meta == old(meta)
      ensures issued == Cycle(meta, api, old(Snapshot())).issued
      ensures Snapshot() == Cycle(meta, api, old(Snapshot())).next
    {
      ghost var start := Snapshot();
      issued := [];
      if filters.ano == "" || filters.cultura == "" {
        return;
      }
      error := None;
      var f := filters;

      var oq := OverviewRequest(f);
      issued := issued + [oq];
      var ov := api.overview(oq);
      if ov.NotOk? {
        error := Some(FetchFailed(OverviewStage));
        assert Cycle(meta, api, start) == Outcome(issued, Snapshot());
        return;
      }
      overview := Some(ov.body);

      var cq := ChoroplethRequest(f);
      issued := issued + [cq];
      var ch := api.choropleth(cq);
      if ch.NotOk? {
        error := Some(FetchFailed(ChoroplethStage));
        assert Cycle(meta, api, start) == Outcome(issued, Snapshot());
        return;
      }
      choropleth := Some(ch.body);

      if f.uf != "" {
        var sq := SeriesRequest(f);
        issued := issued + [sq];
        ghost var stored := Snapshot();
        FetchSeries(api, ov.body);
        assert Snapshot() == SeriesStep(meta, api, stored, ov.body);
      } else {
        series := None;
      }
    }

    /** The time-series stage and, on an all-zero result under budget, one
        relaxation step paid for by one try. */
    method FetchSeries(api: DataProvider, ov: Overview)
      requires Valid() && Ready(filters) && filters.uf != ""
      modifies this`series, this`error, this`tries, this`filters
      ensures Valid()
      ensures Snapshot() == SeriesStep(meta, api, old(Snapshot()), ov)
    {
      var se := api.series(SeriesRequest(filters));
      if se.NotOk? {
        error := Some(FetchFailed(SeriesStage));
        return;
      }
      series := Some(se.body);
      if tries < MaxTries {
        if IsDegenerate(ov, se.body) {
          tries := tries + 1;
          filters := NextFilters(filters, meta);
        }
      }
    }

    /** A filter change starts the next cycle: cycles run until one leaves
        the filters as it found them, and the component ends in the state
        `Settle` gives. Each cycle after the first was started by a
        relaxation that spent a try, so at most four cycles run, fewer the
        more of the budget was already spent. */
    method Refresh(api: DataProvider) returns (cycles: nat)
      requires Valid()
      modifies this
      ensures Valid() && meta == old(meta)
      ensures Snapshot() == Settle(meta, api, old(Snapshot()))
      ensures 1 <= cycles <= MaxTries + 1 - old(tries)
      ensures old(tries) + cycles - 1 <= tries <= old(tries) + cycles
    {
      ghost var target := Settle(meta, api, Snapshot());
      var before := filters;
      CycleSpendsOneTry(meta, api, Snapshot());
      var _ := Step(api);
      cycles := 1;
      while filters != before
        invariant Valid() && meta == old(meta)
        invariant old(tries) + cycles - 1 <= tries <= old(tries) + cycles
        invariant filters != before ==> old(tries) + cycles <= tries
        invariant filters != before ==> Settle(meta, api, Snapshot()) == target
        invariant filters == before ==> Snapshot() == target
        decreases MaxTries - tries + (if filters != before then 1 else 0)
      {
        before := filters;
        CycleSpendsOneTry(meta, api, Snapshot());
        var _ := Step(api);
        cycles := cycles + 1;
      }
    }
  }
}
