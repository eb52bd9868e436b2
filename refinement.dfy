/** The auto-refinement heuristic of the data-fetch effect
    (src/App.jsx:101-113): when the overview's ranking and the time series
    come back all zero, relax one filter field, trying the metric, then the
    crop, then the year. */
module Refinement {
  import opened Js
  import opened Dashboard
  import opened Api

  /** The automatic-retry budget of one mount: `autoTries.current < 3`. */
  const MaxTries: nat := 3

  /** `ov?.top_municipios || []` and `se?.data || []`. */
  function TopList(ov: Overview): seq<Ranked> { ov.topMunicipios.GetOr([]) }
  function PointList(se: Series): seq<Point> { se.data.GetOr([]) }

  /** `allZeroTop && allZeroSeries` (src/App.jsx:102-104): every ranked value
      and every series value coerces to 0. */
  function IsDegenerate(ov: Overview, se: Series): (d: bool)
    ensures d <==> ((forall i :: 0 <= i < |TopList(ov)| ==> ToNumOrZero(TopList(ov)[i].valor) == 0.0) &&
                    (forall j :: 0 <= j < |PointList(se)| ==> ToNumOrZero(PointList(se)[j].valor) == 0.0))
  {
    Every(TopList(ov), (x: Ranked) => ToNumOrZero(x.valor) == 0.0) &&
    Every(PointList(se), (p: Point) => ToNumOrZero(p.valor) == 0.0)
  }

  /** Missing or empty lists, and values that are missing or not numeric,
      make a result degenerate; one non-zero number anywhere does not. */
  lemma DegenerateCases(ov: Overview, se: Series)
    ensures ((forall i :: 0 <= i < |TopList(ov)| ==> TopList(ov)[i].valor.None?) &&
             (forall j :: 0 <= j < |PointList(se)| ==> PointList(se)[j].valor.None?))
            ==> IsDegenerate(ov, se)
    ensures ov.topMunicipios.None? && se.data.None? ==> IsDegenerate(ov, se)
    ensures forall i :: 0 <= i < |TopList(ov)| && TopList(ov)[i].valor.Some? && TopList(ov)[i].valor.value != 0.0
              ==> !IsDegenerate(ov, se)
    ensures forall j :: 0 <= j < |PointList(se)| && PointList(se)[j].valor.Some? && PointList(se)[j].valor.value != 0.0
              ==> !IsDegenerate(ov, se)
  {
  }

  /** `VAR_ORDER[Math.min(VAR_ORDER.length - 1, VAR_ORDER.indexOf(v) + 1)]`
      (src/App.jsx:106-107): the next metric, the last one stays put and an
      unknown one restarts at the first. */
  function NextMetric(v: string): (r: string)
    ensures r in VarOrder
    ensures forall i :: 0 <= i < |VarOrder| - 1 && VarOrder[i] == v ==> r == VarOrder[i + 1]
    ensures v == VarOrder[|VarOrder| - 1] ==> r == v
    ensures v !in VarOrder ==> r == VarOrder[0]
  {
    VarOrder[Min(|VarOrder| - 1, IndexOf(VarOrder, v) + 1)]
  }

  /** i is the first position of cs holding neither cur nor "Total". */
  ghost predicate IsFirstAltCrop(cs: seq<string>, cur: string, i: int) {
    0 <= i < |cs| && cs[i] != cur && cs[i] != TotalCrop &&
    forall j :: 0 <= j < i ==> cs[j] == cur || cs[j] == TotalCrop
  }

  /** k is the first position of the year list whose text is ano. */
  ghost predicate IsFirstYearMatch(anos: seq<Option<string>>, ano: string, k: int) {
    0 <= k < |anos| && YearText(anos[k]) == ano &&
    forall j :: 0 <= j < k ==> YearText(anos[j]) != ano
  }

  /** How many of the three relaxation axes differ between f and g. */
  function Changed(f: Filters, g: Filters): nat {
    (if f.variavel != g.variavel then 1 else 0) +
    (if f.cultura != g.cultura then 1 else 0) +
    (if f.ano != g.ano then 1 else 0)
  }

  /** One relaxation step (src/App.jsx:106-113): at most one field moves and
      the state code never does. */
  function NextFilters(f: Filters, meta: Meta): (g: Filters)
    ensures g.uf == f.uf
    ensures Changed(f, g) <= 1
  {
    var nextVar := NextMetric(f.variavel);
    if nextVar != f.variavel then f.(variavel := nextVar)
    else
      var alt := Find(meta.culturas, c => c != f.cultura && c != TotalCrop);
      if alt.Some? && alt.value != "" then f.(cultura := alt.value)
      else
        var k := FindIndex(meta.anos, a => YearText(a) == f.ano);
        if 0 <= k < |meta.anos| - 1 then f.(ano := YearText(meta.anos[k + 1])) else f
  }

  /** First priority: a metric other than the last one advances. */
  lemma NextFiltersAdvancesMetric(f: Filters, meta: Meta)
    requires f.variavel != VarOrder[|VarOrder| - 1]
    ensures NextMetric(f.variavel) != f.variavel
    ensures NextFilters(f, meta) == f.(variavel := NextMetric(f.variavel))
  {
    if f.variavel == VarOrder[0] {
      assert NextMetric(f.variavel) == VarOrder[1];
    } else if f.variavel == VarOrder[1] {
      assert NextMetric(f.variavel) == VarOrder[2];
    }
  }

  /** Second priority: at the last metric, the first crop other than the
      current one and "Total" is taken when it is truthy. */
  lemma NextFiltersSwitchesCrop(f: Filters, meta: Meta, i: int)
    requires f.variavel == VarOrder[|VarOrder| - 1]
    requires IsFirstAltCrop(meta.culturas, f.cultura, i) && meta.culturas[i] != ""
    ensures NextFilters(f, meta) == f.(cultura := meta.culturas[i])
  {
    var k := FindIndex(meta.culturas, c => c != f.cultura && c != TotalCrop);
    assert k == i;
  }

  /** Third priority: with no usable alternative crop, the year moves to the
      entry after the first one matching the current year, if there is one. */
  lemma NextFiltersStepsYear(f: Filters, meta: Meta, k: int)
    requires f.variavel == VarOrder[|VarOrder| - 1]
    requires forall i :: IsFirstAltCrop(meta.culturas, f.cultura, i) ==> meta.culturas[i] == ""
    requires IsFirstYearMatch(meta.anos, f.ano, k) && k < |meta.anos| - 1
    ensures NextFilters(f, meta) == f.(ano := YearText(meta.anos[k + 1]))
  {
    var ci := FindIndex(meta.culturas, c => c != f.cultura && c != TotalCrop);
    if ci >= 0 {
      assert IsFirstAltCrop(meta.culturas, f.cultura, ci);
    }
    var yi := FindIndex(meta.anos, a => YearText(a) == f.ano);
    assert yi == k;
  }

  /** Otherwise nothing changes: the degenerate result is final. */
  lemma NextFiltersExhausted(f: Filters, meta: Meta)
    requires f.variavel == VarOrder[|VarOrder| - 1]
    requires forall i :: IsFirstAltCrop(meta.culturas, f.cultura, i) ==> meta.culturas[i] == ""
    requires forall k :: IsFirstYearMatch(meta.anos, f.ano, k) ==> k == |meta.anos| - 1
    ensures NextFilters(f, meta) == f
  {
    var ci := FindIndex(meta.culturas, c => c != f.cultura && c != TotalCrop);
    if ci >= 0 {
      assert IsFirstAltCrop(meta.culturas, f.cultura, ci);
    }
    var yi := FindIndex(meta.anos, a => YearText(a) == f.ano);
    if yi >= 0 {
      assert IsFirstYearMatch(meta.anos, f.ano, yi);
    }
  }

  /** When the crop list holds two different truthy crops besides "Total" and
      no falsy entry, the crop axis never runs out: at the last metric every
      step changes the crop and never reaches the year. */
  lemma CropAxisNeverExhausts(f: Filters, meta: Meta, a: string, b: string)
    requires f.variavel == VarOrder[|VarOrder| - 1]
    requires a in meta.culturas && b in meta.culturas && a != b && a != TotalCrop && b != TotalCrop
    requires forall c :: c in meta.culturas ==> c != ""
    ensures NextFilters(f, meta).cultura != f.cultura
    ensures NextFilters(f, meta).ano == f.ano
  {
    var p := (c: string) => c != f.cultura && c != TotalCrop;
    var w := if a != f.cultura then a else b;
    var j :| 0 <= j < |meta.culturas| && meta.culturas[j] == w;
    assert p(meta.culturas[j]);
    var r := Find(meta.culturas, p);
    assert r.Some?;
    assert r.value in meta.culturas;
  }

  /** The crop cases of a session on the crops Total, Soja, Milho at the last
      metric: Milho moves to Soja, and Soja moves back to Milho. */
  lemma ExampleCropRelaxation(meta: Meta)
    requires meta.culturas == ["Total", "Soja", "Milho"]
    ensures NextFilters(Filters("2023", "SP", "Milho", "producao_t"), meta)
            == Filters("2023", "SP", "Soja", "producao_t")
    ensures NextFilters(Filters("2023", "SP", "Soja", "producao_t"), meta)
            == Filters("2023", "SP", "Milho", "producao_t")
  {
    NextFiltersSwitchesCrop(Filters("2023", "SP", "Milho", "producao_t"), meta, 1);
    NextFiltersSwitchesCrop(Filters("2023", "SP", "Soja", "producao_t"), meta, 2);
  }
}
