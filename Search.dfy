/** The search view: a case-insensitive substring filter over a fixed catalogue,
    the results grouped under their categories, and the tab a chosen result opens. */
module Search {
  import opened JsCore
  import opened Tabs

  datatype SearchItem = SearchItem(id: string, category: string, title: string, description: string, target: string)

  /** The catalogue (icons left out). */
  const SEARCH_DATA: seq<SearchItem> := [
    SearchItem("1", "Vistas", "Balance General", "Ver resumen de utilidad bruta y neta.", "BALANCE"),
    SearchItem("2", "Vistas", "Calendario de Ocupación", "Revisar disponibilidad y reservas confirmadas.", "OCUPACION"),
    SearchItem("3", "Vistas", "Documentación Fiscal", "Descargar archivos CFDI, PDF y XML.", "FISCAL"),
    SearchItem("4", "Métricas", "Ingresos Totales", "Análisis detallado de entradas de capital.", "BALANCE"),
    SearchItem("5", "Métricas", "Costos Operativos", "Gastos de mantenimiento y administración.", "BALANCE"),
    SearchItem("6", "Ajustes", "Notificaciones", "Configurar alertas push y correos.", "PERFIL"),
    SearchItem("7", "Ajustes", "Idioma y Moneda", "Cambiar preferencias de visualización.", "PERFIL"),
    SearchItem("8", "Documentos", "Facturas Q1", "Documentos del primer trimestre 2024.", "FISCAL")
  ]

  /** The filter's test for one item against the lower-cased query. */
  predicate Matches(item: SearchItem, lowerQuery: string) {
    Includes(Lower(item.title), lowerQuery)
    || Includes(Lower(item.description), lowerQuery)
    || Includes(Lower(item.category), lowerQuery)
  }

  function FilterMatching(items: seq<SearchItem>, lowerQuery: string): (r: seq<SearchItem>)
    ensures |r| <= |items|
  {
    if items == [] then []
    else if Matches(items[0], lowerQuery) then [items[0]] + FilterMatching(items[1..], lowerQuery)
    else FilterMatching(items[1..], lowerQuery)
  }

  lemma {:induction false} FilterMatchingSpec(items: seq<SearchItem>, lowerQuery: string)
    ensures forall x :: x in FilterMatching(items, lowerQuery) <==> x in items && Matches(x, lowerQuery)
    ensures IsSubsequence(FilterMatching(items, lowerQuery), items)
  {
    if items != [] {
      FilterMatchingSpec(items[1..], lowerQuery);
      assert items == [items[0]] + items[1..];
      var r := FilterMatching(items, lowerQuery);
      if Matches(items[0], lowerQuery) {
        assert r[1..] == FilterMatching(items[1..], lowerQuery);
      }
    }
  }

  /** `filteredResults` over a catalogue: nothing for a blank query, otherwise the items
      matching the lower-cased (untrimmed) query. */
  function Results(catalogue: seq<SearchItem>, query: string): seq<SearchItem> {
    if Trim(query) == [] then [] else FilterMatching(catalogue, Lower(query))
  }

  function FilteredResults(query: string): seq<SearchItem> {
    Results(SEARCH_DATA, query)
  }

  /** An empty or whitespace-only query finds nothing. */
  lemma BlankQueryFindsNothing(catalogue: seq<SearchItem>, query: string)
    requires AllWhitespace(query)
    ensures Results(catalogue, query) == []
  {
    TrimEmptyIff(query);
  }

  /** For a query with a non-blank character, an item is a result exactly when its
      lower-cased title, description or category contains the lower-cased query; the
      results keep catalogue order. */
  lemma ResultsSpec(catalogue: seq<SearchItem>, query: string)
    requires !AllWhitespace(query)
    ensures forall x :: x in Results(catalogue, query) <==>
      x in catalogue
      && (Includes(Lower(x.title), Lower(query))
          || Includes(Lower(x.description), Lower(query))
          || Includes(Lower(x.category), Lower(query)))
    ensures IsSubsequence(Results(catalogue, query), catalogue)
  {
    TrimEmptyIff(query);
    FilterMatchingSpec(catalogue, Lower(query));
  }

  /** Typing more narrows the search: if a non-blank query q occurs in q2, every result
      for q2 is a result for q. */
  lemma LongerQueryNarrows(catalogue: seq<SearchItem>, q: string, q2: string)
    requires !AllWhitespace(q) && Includes(q2, q)
    ensures forall x :: x in Results(catalogue, q2) ==> x in Results(catalogue, q)
  {
    IncludesIff(q2, q);
    var i :| OccursAt(q2, q, i);
    var k :| 0 <= k < |q| && !IsJsWhitespace(q[k]);
    assert q2[i + k] == q[k];
    assert !AllWhitespace(q2);
    ResultsSpec(catalogue, q);
    ResultsSpec(catalogue, q2);
    IncludesLower(q2, q);
    forall x | x in Results(catalogue, q2) ensures x in Results(catalogue, q) {
      if Includes(Lower(x.title), Lower(q2)) {
        IncludesTransitive(Lower(x.title), Lower(q2), Lower(q));
      } else if Includes(Lower(x.description), Lower(q2)) {
        IncludesTransitive(Lower(x.description), Lower(q2), Lower(q));
      } else {
        IncludesTransitive(Lower(x.category), Lower(q2), Lower(q));
      }
    }
  }

  // ---------------------------------------------------------------------------
  // Categories and grouping
  // ---------------------------------------------------------------------------

  function CategoriesOf(results: seq<SearchItem>): (cats: seq<string>)
    ensures |cats| == |results|
    ensures forall k :: 0 <= k < |results| ==> cats[k] == results[k].category
  {
    if results == [] then [] else [results[0].category] + CategoriesOf(results[1..])
  }

  /** `Array.from(new Set(filteredResults.map(r => r.category)))`. */
  function Categories(results: seq<SearchItem>): seq<string> {
    Dedupe(CategoriesOf(results))
  }

  /** Each result category is listed exactly once, in order of first appearance. */
  lemma CategoriesSpec(results: seq<SearchItem>)
    ensures forall c :: c in Categories(results) <==> c in CategoriesOf(results)
    ensures forall c :: c in Categories(results) <==> exists x :: x in results && x.category == c
    ensures forall x :: x in results ==> x.category in Categories(results)
    ensures NoDuplicates(Categories(results))
    ensures forall i, j :: 0 <= i < j < |Categories(results)| ==>
      FirstIndex(CategoriesOf(results), Categories(results)[i]) < FirstIndex(CategoriesOf(results), Categories(results)[j])
  {
    var cs := CategoriesOf(results);
    DedupeSpec(cs);
    forall c | c in cs ensures exists x :: x in results && x.category == c {
      var k :| 0 <= k < |cs| && cs[k] == c;
      assert results[k] in results;
    }
    forall x | x in results ensures x.category in cs {
      var k :| 0 <= k < |results| && results[k] == x;
      assert cs[k] == x.category;
    }
  }

  /** `filteredResults.filter(r => r.category === category)`. */
  function InCategory(results: seq<SearchItem>, category: string): (r: seq<SearchItem>)
    ensures |r| <= |results|
  {
    if results == [] then []
    else if results[0].category == category then [results[0]] + InCategory(results[1..], category)
    else InCategory(results[1..], category)
  }

  lemma {:induction false} InCategorySpec(results: seq<SearchItem>, category: string)
    ensures forall x :: x in InCategory(results, category) <==> x in results && x.category == category
  {
    if results != [] {
      InCategorySpec(results[1..], category);
      assert results == [results[0]] + results[1..];
    }
  }

  datatype Group = Group(category: string, items: seq<SearchItem>)

  /** One heading per category, each with the results of that category. */
  function Groups(results: seq<SearchItem>): (groups: seq<Group>)
    ensures |groups| == |Categories(results)|
  {
    var cats := Categories(results);
    seq(|cats|, g requires 0 <= g < |cats| => Group(cats[g], InCategory(results, cats[g])))
  }

  /** The sum of the group sizes. */
  function TotalSize(groups: seq<Group>): nat {
    if groups == [] then 0 else |groups[0].items| + TotalSize(groups[1..])
  }

  /** Each group is headed by its own category and holds exactly the results of it. */
  lemma GroupsByCategory(results: seq<SearchItem>)
    ensures var groups := Groups(results);
      (forall g1, g2 :: 0 <= g1 < g2 < |groups| ==> groups[g1].category != groups[g2].category)
      && (forall g, x :: 0 <= g < |groups| ==> (x in groups[g].items <==> x in results && x.category == groups[g].category))
  {
    var groups := Groups(results);
    var cats := Categories(results);
    CategoriesSpec(results);
    forall g | 0 <= g < |groups|
      ensures forall x :: x in groups[g].items <==> x in results && x.category == groups[g].category
    {
      InCategorySpec(results, cats[g]);
    }
  }

  /** Every result sits under the heading of its category. */
  lemma GroupsCover(results: seq<SearchItem>)
    ensures var groups := Groups(results);
      forall x :: x in results ==> exists g :: 0 <= g < |groups| && groups[g].category == x.category && x in groups[g].items
  {
    var groups := Groups(results);
    var cats := Categories(results);
    CategoriesSpec(results);
    forall x | x in results
      ensures exists g :: 0 <= g < |groups| && groups[g].category == x.category && x in groups[g].items
    {
      var g :| 0 <= g < |cats| && cats[g] == x.category;
      InCategorySpec(results, cats[g]);
      assert groups[g].category == x.category;
    }
  }

  /** The groups together hold exactly as many entries as the results. */
  lemma GroupsTotal(results: seq<SearchItem>)
    ensures TotalSize(Groups(results)) == |results|
  {
    var groups := Groups(results);
    var cats := Categories(results);
    CategoriesSpec(results);
    assert forall g :: 0 <= g < |groups| ==> groups[g] == Group(cats[g], InCategory(results, cats[g]));
    GroupSizesCount(results, cats);
    TotalSizeIsGroupSizes(results, cats, groups);
  }

  /** The sizes of the category filters, summed over a list of categories. */
  function GroupSizes(results: seq<SearchItem>, cats: seq<string>): nat {
    if cats == [] then 0 else |InCategory(results, cats[0])| + GroupSizes(results, cats[1..])
  }

  lemma {:induction false} TotalSizeIsGroupSizes(results: seq<SearchItem>, cats: seq<string>, groups: seq<Group>)
    requires |groups| == |cats|
    requires forall g :: 0 <= g < |groups| ==> groups[g] == Group(cats[g], InCategory(results, cats[g]))
    ensures TotalSize(groups) == GroupSizes(results, cats)
  {
    if cats != [] {
      TotalSizeIsGroupSizes(results, cats[1..], groups[1..]);
    }
  }

  /** How many times c occurs in cats. */
  function Occurrences(cats: seq<string>, c: string): nat {
    if cats == [] then 0 else (if cats[0] == c then 1 else 0) + Occurrences(cats[1..], c)
  }

  lemma {:induction false} OccurrencesOfDistinct(cats: seq<string>, c: string)
    requires NoDuplicates(cats)
    ensures Occurrences(cats, c) == if c in cats then 1 else 0
  {
    if cats != [] {
      assert NoDuplicates(cats[1..]) by {
        forall i, j | 0 <= i < j < |cats[1..]| ensures cats[1..][i] != cats[1..][j] {
          assert cats[1..][i] == cats[i + 1] && cats[1..][j] == cats[j + 1];
        }
      }
      OccurrencesOfDistinct(cats[1..], c);
      if cats[0] == c {
        assert c !in cats[1..] by {
          forall j | 0 <= j < |cats[1..]| ensures cats[1..][j] != c {
            assert cats[1..][j] == cats[j + 1];
          }
        }
      } else {
        assert c in cats <==> c in cats[1..] by { assert cats == [cats[0]] + cats[1..]; }
      }
    }
  }

  lemma {:induction false} GroupSizesCons(x: SearchItem, rest: seq<SearchItem>, cats: seq<string>)
    ensures GroupSizes([x] + rest, cats) == GroupSizes(rest, cats) + Occurrences(cats, x.category)
  {
    assert ([x] + rest)[0] == x && ([x] + rest)[1..] == rest;
    if cats != [] {
      GroupSizesCons(x, rest, cats[1..]);
    }
  }

  lemma {:induction false} GroupSizesEmpty(cats: seq<string>)
    ensures GroupSizes([], cats) == 0
  {
    if cats != [] { GroupSizesEmpty(cats[1..]); }
  }

  /** Summed over distinct categories that cover every result, the category filters
      hold each result once. */
  lemma {:induction false} GroupSizesCount(results: seq<SearchItem>, cats: seq<string>)
    requires NoDuplicates(cats)
    requires forall x :: x in results ==> x.category in cats
    ensures GroupSizes(results, cats) == |results|
  {
    if results == [] {
      GroupSizesEmpty(cats);
    } else {
      var x, rest := results[0], results[1..];
      assert results == [x] + rest;
      GroupSizesCount(rest, cats);
      GroupSizesCons(x, rest, cats);
      OccurrencesOfDistinct(cats, x.category);
    }
  }

  // ---------------------------------------------------------------------------
  // What the screen shows
  // ---------------------------------------------------------------------------

  datatype Screen = Prompt | ResultGroups(groups: seq<Group>) | NoResults

  /** `!query ? prompt : filteredResults.length > 0 ? groups : "Sin resultados"`. */
  function ScreenFor(query: string): Screen {
    if query == "" then Prompt
    else
      var results := FilteredResults(query);
      if |results| > 0 then ResultGroups(Groups(results)) else NoResults
  }

  /** The prompt shows only for the empty query; a whitespace-only query reports
      that nothing was found. */
  lemma ScreenSpec(query: string)
    ensures ScreenFor(query) == Prompt <==> query == ""
    ensures query != "" && AllWhitespace(query) ==> ScreenFor(query) == NoResults
  {
    if query != "" && AllWhitespace(query) {
      BlankQueryFindsNothing(SEARCH_DATA, query);
    }
  }

  // ---------------------------------------------------------------------------
  // Navigation
  // ---------------------------------------------------------------------------

  /** `viewMap[target]`. */
  function ViewMap(target: string): Option<ViewTab> {
    if target == "BALANCE" then Some(BALANCE)
    else if target == "OCUPACION" then Some(OCUPACION)
    else if target == "FISCAL" then Some(FISCAL)
    else None
  }

  /** `bottomMap[target]`. */
  function BottomMap(target: string): Option<BottomTab> {
    if target == "PERFIL" then Some(PERFIL)
    else if target == "BALANCE" || target == "OCUPACION" || target == "FISCAL" then Some(INICIO)
    else None
  }

  /** `onNavigate(viewMap[target] || 'BALANCE', bottomMap[target] || 'INICIO')`. */
  function Navigate(target: string): (ViewTab, BottomTab) {
    (match ViewMap(target) case Some(v) => v case None => BALANCE,
     match BottomMap(target) case Some(b) => b case None => INICIO)
  }

  /** Only PERFIL opens the profile tab (with the view defaulting to BALANCE); every
      other target opens INICIO, on the view it names, and the search tab is never
      the destination. */
  lemma NavigateSpec(target: string)
    ensures Navigate(target).1 == PERFIL <==> target == "PERFIL"
    ensures Navigate(target).1 != BUSCAR
    ensures target == "PERFIL" ==> Navigate(target) == (BALANCE, PERFIL)
    ensures Navigate(target).0 == OCUPACION <==> target == "OCUPACION"
    ensures Navigate(target).0 == FISCAL <==> target == "FISCAL"
    ensures ViewTabValue(Navigate("OCUPACION").0) == "OCUPACIÓN"
  {
  }

  /** Every catalogue target is a key of the bottom-tab map, so its fallback is never
      used for a catalogue item; only PERFIL falls back on the view. */
  lemma CatalogueTargetsKnown(k: nat)
    requires k < |SEARCH_DATA|
    ensures BottomMap(SEARCH_DATA[k].target).Some?
    ensures ViewMap(SEARCH_DATA[k].target).None? <==> SEARCH_DATA[k].target == "PERFIL"
  {
  }
}
