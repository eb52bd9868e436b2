/** The three data endpoints the fetch cycle calls: the request each stage
    builds from the filters, and the parsed body each returns
    (src/App.jsx:79-99). A request is its endpoint and the ordered list of
    query parameters with their raw values; the URL text, in which each value
    goes through encodeURIComponent, is not modelled. */
module Api {
  import opened Js
  import opened Dashboard

  datatype Endpoint = StatsOverview | MapChoropleth | Timeseries

  datatype Param = Param(name: string, value: string)

  datatype Request = Request(endpoint: Endpoint, query: seq<Param>)

  /** A response: `r.ok` with its parsed JSON body, or any non-2xx status. */
  datatype Reply<T> = Ok(body: T) | NotOk

  /** `/stats/overview` body: KPI totals and the ranked municipalities. */
  datatype Kpis = Kpis(areaHa: Num, producaoT: Num, valorMilReais: Num)
  datatype Ranked = Ranked(nome: string, valor: Num)
  datatype Overview = Overview(kpis: Kpis, topMunicipios: Option<seq<Ranked>>)

  /** `/map/choropleth` body: one row per municipality. */
  datatype Row = Row(municipio: string, uf: string, areaHa: Num, producaoT: Num, valorMilReais: Num)
  datatype Choropleth = Choropleth(data: Option<seq<Row>>)

  /** `/timeseries` body: one point per year. */
  datatype Point = Point(ano: string, valor: Num)
  datatype Series = Series(data: Option<seq<Point>>)

  /** The value of the filter field a query parameter is named after. */
  function FieldValue(f: Filters, name: string): string {
    if name == "ano" then f.ano
    else if name == "uf" then f.uf
    else if name == "cultura" then f.cultura
    else if name == "variavel" then f.variavel
    else ""
  }

  predicate HasParam(q: seq<Param>, name: string) {
    exists p :: p in q && p.name == name
  }

  /** The overview query: `ano`, then `uf` and `cultura` only when truthy. */
  function OverviewRequest(f: Filters): Request {
    Request(StatsOverview,
            [Param("ano", f.ano)]
            + (if f.uf != "" then [Param("uf", f.uf)] else [])
            + (if f.cultura != "" then [Param("cultura", f.cultura)] else []))
  }

  /** The choropleth query: `ano`, `uf` only when truthy, `cultura`, `variavel`. */
  function ChoroplethRequest(f: Filters): Request {
    Request(MapChoropleth,
            [Param("ano", f.ano)]
            + (if f.uf != "" then [Param("uf", f.uf)] else [])
            + [Param("cultura", f.cultura), Param("variavel", f.variavel)])
  }

  /** The time-series query: `uf`, `cultura`, `variavel`. */
  function SeriesRequest(f: Filters): Request {
    Request(Timeseries, [Param("uf", f.uf), Param("cultura", f.cultura), Param("variavel", f.variavel)])
  }

  /** The overview request carries the year, the state code exactly when it
      is set and the crop exactly when it is set, each with its filter value. */
  lemma OverviewRequestCarriesFilters(f: Filters)
    ensures var r := OverviewRequest(f);
            r.endpoint == StatsOverview && r.query[0] == Param("ano", f.ano) &&
            |r.query| == 1 + (if f.uf != "" then 1 else 0) + (if f.cultura != "" then 1 else 0) &&
            (HasParam(r.query, "uf") <==> f.uf != "") &&
            (HasParam(r.query, "cultura") <==> f.cultura != "") &&
            !HasParam(r.query, "variavel") &&
            forall p :: p in r.query ==> p.value == FieldValue(f, p.name)
  {
  }

  /** The choropleth request carries the year, the state code exactly when it
      is set, the crop and the metric, each with its filter value. */
  lemma ChoroplethRequestCarriesFilters(f: Filters)
    ensures var r := ChoroplethRequest(f);
            r.endpoint == MapChoropleth && r.query[0] == Param("ano", f.ano) &&
            |r.query| == 3 + (if f.uf != "" then 1 else 0) &&
            r.query[|r.query| - 2] == Param("cultura", f.cultura) &&
            r.query[|r.query| - 1] == Param("variavel", f.variavel) &&
            (HasParam(r.query, "uf") <==> f.uf != "") &&
            HasParam(r.query, "cultura") && HasParam(r.query, "variavel") &&
            forall p :: p in r.query ==> p.value == FieldValue(f, p.name)
  {
  }

  /** The time series is asked for one state, crop and metric, and no year. */
  lemma SeriesRequestCarriesFilters(f: Filters)
    ensures var r := SeriesRequest(f);
            r.endpoint == Timeseries && |r.query| == 3 &&
            HasParam(r.query, "uf") && HasParam(r.query, "cultura") && HasParam(r.query, "variavel") &&
            !HasParam(r.query, "ano") &&
            forall p :: p in r.query ==> p.value == FieldValue(f, p.name)
  {
  }

  /** The data source: what each endpoint answers to each request. */
  datatype DataProvider = DataProvider(overview: Request -> Reply<Overview>,
                                       choropleth: Request -> Reply<Choropleth>,
                                       series: Request -> Reply<Series>)

  /** Whether the provider answers this request with an ok status. */
  predicate Succeeds(api: DataProvider, rq: Request) {
    match rq.endpoint
    case StatsOverview => api.overview(rq).Ok?
    case MapChoropleth => api.choropleth(rq).Ok?
    case Timeseries => api.series(rq).Ok?
  }
}
