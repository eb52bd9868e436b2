/** The dashboard's filter state, the metadata list it is chosen from, and how
    the `/filters` response is turned into both when the page mounts
    (src/App.jsx:17-18, 23-24, 53-62). */
module Dashboard {
  import opened Js

  /** The 27 state codes used when the API returns fewer than five. */
  const UfAll: seq<string> :=
    ["AC", "AL", "AM", "AP", "BA", "CE", "DF", "ES", "GO", "MA", "MG", "MS", "MT", "PA",
     "PB", "PE", "PI", "PR", "RJ", "RN", "RO", "RR", "RS", "SC", "SE", "SP", "TO"]

  /** The metrics, in the order the relaxation walks them. */
  const VarOrder: seq<string> := ["valor_mil_reais", "area_ha", "producao_t"]

  /** The aggregate crop that is never picked as a default or an alternative. */
  const TotalCrop: string := "Total"

  /** The filter state `filtros`: year, state code (optional), crop, metric.
      The empty string is the unset value. */
  datatype Filters = Filters(ano: string, uf: string, cultura: string, variavel: string)

  /** The metadata `meta` the filters are chosen from. Year entries keep
      JSON null apart (None) because `??` and String() treat it unlike ""; a
      falsy crop or state entry is written "". */
  datatype Meta = Meta(anos: seq<Option<string>>, ufs: seq<string>, culturas: seq<string>)

  /** The parsed `/filters` body; a field that is not an array is None. */
  datatype RawMeta = RawMeta(anos: Option<seq<Option<string>>>,
                             ufs: Option<seq<string>>,
                             culturas: Option<seq<string>>)

  /** The state before the metadata arrives (src/App.jsx:23-24). */
  const InitialMeta: Meta := Meta([], [], [])
  const InitialFilters: Filters := Filters("", "", "", VarOrder[0])

  /** i is the first position of cs holding something other than "Total". */
  ghost predicate IsFirstNonTotal(cs: seq<string>, i: int) {
    0 <= i < |cs| && cs[i] != TotalCrop &&
    forall j :: 0 <= j < i ==> cs[j] == TotalCrop
  }

  lemma UfAllFacts()
    ensures |UfAll| == 27 && "SP" in UfAll
    ensures forall j :: 0 <= j < |UfAll| ==> UfAll[j] != ""
  {
    assert UfAll[25] == "SP";
  }

  /** The metadata stored after `/filters` succeeds (src/App.jsx:53-57):
      non-array fields become empty lists, falsy state codes are dropped, and
      the canonical 27 codes replace an API list with fewer than five. */
  function ResolveMeta(raw: RawMeta): (m: Meta)
    ensures raw.anos.Some? ==> m.anos == raw.anos.value
    ensures raw.anos.None? ==> m.anos == []
    ensures raw.culturas.Some? ==> m.culturas == raw.culturas.value
    ensures raw.culturas.None? ==> m.culturas == []
    ensures |FilterTruthy(raw.ufs.GetOr([]))| >= 5 ==> m.ufs == FilterTruthy(raw.ufs.GetOr([]))
    ensures |FilterTruthy(raw.ufs.GetOr([]))| < 5 ==> m.ufs == UfAll
    ensures |m.ufs| >= 5 && forall u :: u in m.ufs ==> u != ""
  {
    UfAllFacts();
    var fromApi := if raw.ufs.Some? then FilterTruthy(raw.ufs.value) else [];
    var ufs := if |fromApi| >= 5 then fromApi else UfAll;
    Meta(raw.anos.GetOr([]), ufs, raw.culturas.GetOr([]))
  }

  /** `String(anos?.[0] ?? anos?.[anos.length - 1] ?? "")` (src/App.jsx:59). */
  function DefaultYear(anos: seq<Option<string>>): (y: string)
    ensures |anos| == 0 ==> y == ""
    ensures |anos| > 0 && anos[0].Some? ==> y == anos[0].value
    ensures |anos| > 0 && anos[0].None? && anos[|anos| - 1].Some? ==> y == anos[|anos| - 1].value
    ensures |anos| > 0 && anos[0].None? && anos[|anos| - 1].None? ==> y == ""
  {
    if |anos| > 0 && anos[0].Some? then anos[0].value
    else if |anos| > 0 && anos[|anos| - 1].Some? then anos[|anos| - 1].value
    else ""
  }

  /** `ufs.includes("SP") ? "SP" : ufs[0] || ""` (src/App.jsx:60). */
  function DefaultUf(ufs: seq<string>): (u: string)
    ensures u == "SP" <==> "SP" in ufs
    ensures "SP" !in ufs && |ufs| > 0 ==> u == ufs[0]
    ensures |ufs| == 0 ==> u == ""
  {
    if "SP" in ufs then "SP"
    else if |ufs| > 0 then ufs[0]
    else ""
  }

  /** `culturas.find(c => c !== "Total") || culturas[0] || ""`
      (src/App.jsx:61): the first non-"Total" entry when it is truthy,
      otherwise the first entry, otherwise "". */
  function DefaultCrop(cs: seq<string>): (c: string)
    ensures forall i :: IsFirstNonTotal(cs, i) && cs[i] != "" ==> c == cs[i]
    ensures (forall i :: IsFirstNonTotal(cs, i) ==> cs[i] == "") ==>
              c == (if |cs| > 0 then cs[0] else "")
  {
    var found := Find(cs, x => x != TotalCrop);
    if found.Some? && found.value != "" then found.value
    else if |cs| > 0 then cs[0]
    else ""
  }

  /** The filters set once the metadata is in (src/App.jsx:59-62): the
      leading year unless it is null, "SP" when offered, the first crop
      other than "Total", and the first metric. */
  function DefaultFilters(m: Meta): (f: Filters)
    ensures |m.anos| > 0 && m.anos[0].Some? ==> f.ano == m.anos[0].value
    ensures |m.anos| > 0 && m.anos[0].None? ==> f.ano == m.anos[|m.anos| - 1].GetOr("")
    ensures |m.anos| == 0 ==> f.ano == ""
    ensures f.uf == "SP" <==> "SP" in m.ufs
    ensures "SP" !in m.ufs ==> f.uf == (if |m.ufs| > 0 then m.ufs[0] else "")
    ensures forall i :: IsFirstNonTotal(m.culturas, i) && m.culturas[i] != "" ==> f.cultura == m.culturas[i]
    ensures (forall i :: IsFirstNonTotal(m.culturas, i) ==> m.culturas[i] == "") ==>
              f.cultura == (if |m.culturas| > 0 then m.culturas[0] else "")
    ensures f.variavel == "valor_mil_reais"
  {
    Filters(DefaultYear(m.anos), DefaultUf(m.ufs), DefaultCrop(m.culturas), VarOrder[0])
  }

  /** Whatever `/filters` returns, the initial state code is set: the state
      list always has at least five truthy codes. */
  lemma InitialRegionIsSet(raw: RawMeta)
    ensures DefaultFilters(ResolveMeta(raw)).uf != ""
  {
    var m := ResolveMeta(raw);
    assert m.ufs[0] in m.ufs;
  }

  /** The initial crop is "Total" only when the list starts with "Total" and
      its first other entry is missing or falsy. */
  lemma InitialCropAvoidsTotal(cs: seq<string>)
    requires DefaultCrop(cs) == TotalCrop
    ensures |cs| > 0 && cs[0] == TotalCrop
    ensures forall i :: IsFirstNonTotal(cs, i) ==> cs[i] == ""
  {
    var k := FindIndex(cs, x => x != TotalCrop);
    if k >= 0 {
      assert IsFirstNonTotal(cs, k);
      forall i | IsFirstNonTotal(cs, i) ensures cs[i] == "" {
        assert i == k;
      }
    }
  }

  /** The canonical list, returned by the API, is kept as it is. */
  lemma CanonicalListIsKept(raw: RawMeta)
    requires raw.ufs == Some(UfAll)
    ensures ResolveMeta(raw).ufs == UfAll
  {
    UfAllFacts();
    FilterTruthyKeepsTruthyList(UfAll);
  }

  /** The first example session: years 2023 and 2022, all 27 states and the
      crops Total, Soja, Milho. */
  lemma ExampleInitialState()
    ensures DefaultFilters(ResolveMeta(RawMeta(Some([Some("2023"), Some("2022")]), Some(UfAll),
                                                Some(["Total", "Soja", "Milho"]))))
            == Filters("2023", "SP", "Soja", "valor_mil_reais")
  {
    var anos: seq<Option<string>> := [Some("2023"), Some("2022")];
    var cs := ["Total", "Soja", "Milho"];
    var raw := RawMeta(Some(anos), Some(UfAll), Some(cs));
    CanonicalListIsKept(raw);
    ExampleDefaults(anos, cs);
  }

  lemma ExampleDefaults(anos: seq<Option<string>>, cs: seq<string>)
    requires anos == [Some("2023"), Some("2022")] && cs == ["Total", "Soja", "Milho"]
    ensures DefaultYear(anos) == "2023" && DefaultUf(UfAll) == "SP" && DefaultCrop(cs) == "Soja"
  {
    assert DefaultYear(anos) == "2023" by {}
    assert DefaultUf(UfAll) == "SP" by { UfAllFacts(); }
    assert DefaultCrop(cs) == "Soja" by { assert IsFirstNonTotal(cs, 1); }
  }
}
