/**
 * The result page: what it shows for the scores handed over by the
 * questionnaire. The overall score is the mean of the category scores, the
 * current and next maturity levels come from rounding it, and up to three
 * recommendations are drawn from the lowest-scoring categories.
 */
module Resultado {
  import opened Wrappers
  import opened Text
  import opened Records
  import opened MaturityData
  import opened Means

  // ---------------------------------------------------------------- navigation state

  /** `location.state`: absent on a direct visit, otherwise an object that may lack `scores`. */
  datatype NavState = NoState | State(scores: Option<Entries>)

  datatype Recommendation = Recommendation(category: string, currentScore: real, suggestion: string)

  /** Everything the page derives from the scores. */
  datatype ResultView = ResultView(
    scores: Entries,
    overall: Option<real>,
    currentLevel: Level,
    nextLevel: Option<Level>,
    recommendations: seq<Recommendation>)

  /** What the page does: throw while rendering, send the visitor home, or render the result. */
  datatype Page = Crash | RedirectHome | Render(view: ResultView)

  // ---------------------------------------------------------------- overall score

  function OverallScore(scores: Entries): Option<real> {
    Mean(Values(scores))
  }

  /** The overall score is an unweighted mean: it lies between any bounds of the category scores. */
  lemma OverallScoreBounds(scores: Entries, lo: real, hi: real)
    requires |scores| >= 1
    requires forall i :: 0 <= i < |scores| ==> lo <= scores[i].1 <= hi
    ensures OverallScore(scores).Some?
    ensures lo <= OverallScore(scores).value <= hi
  {
    MeanWithin(Values(scores), lo, hi);
  }

  /** All categories with the same score give that score overall. */
  lemma OverallScoreOfEqualScores(scores: Entries, x: real)
    requires |scores| >= 1
    requires forall i :: 0 <= i < |scores| ==> scores[i].1 == x
    ensures OverallScore(scores) == Some(x)
  {
    OverallScoreBounds(scores, x, x);
  }

  // ---------------------------------------------------------------- levels

  /** `Math.round`: the nearest integer, halves rounded up. */
  function Round(x: real): (r: int)
    ensures r as real - 0.5 <= x < r as real + 0.5
  {
    (x + 0.5).Floor
  }

  lemma RoundHalves()
    ensures Round(4.5) == 5 && Round(2.5) == 3 && Round(0.5) == 1 && Round(-0.5) == 0
    ensures Round(2.49) == 2 && Round(3.0) == 3
  {
  }

  /** The level whose id is the rounded overall score, or level 1 when there is none (NaN included). */
  function CurrentLevel(overall: Option<real>): (l: Level)
    ensures l.id == if overall.Some? && 1 <= Round(overall.value) <= 5 then Round(overall.value) else 1
    ensures l == Levels[l.id - 1]
  {
    LevelsInOrder();
    match overall
    case None => Levels[0]
    case Some(x) => FindLevel(Round(x)).GetOr(Levels[0])
  }

  /** The level whose id is one above the rounded overall score, if there is one. */
  function NextLevel(overall: Option<real>): (l: Option<Level>)
    ensures l.Some? <==> overall.Some? && 0 <= Round(overall.value) <= 4
    ensures l.Some? ==> l.value.id == Round(overall.value) + 1 && l.value == Levels[l.value.id - 1]
  {
    match overall
    case None => None
    case Some(x) => FindLevel(Round(x) + 1)
  }

  /** For an overall score in [1, 5] the current level is within half a point of it, and the next level is one above it except at the top. */
  lemma LevelProgression(x: real)
    requires 1.0 <= x <= 5.0
    ensures CurrentLevel(Some(x)).id == Round(x)
    ensures CurrentLevel(Some(x)).id as real - 0.5 <= x < CurrentLevel(Some(x)).id as real + 0.5
    ensures NextLevel(Some(x)).None? <==> CurrentLevel(Some(x)).id == 5
    ensures NextLevel(Some(x)).Some? ==> NextLevel(Some(x)).value.id == CurrentLevel(Some(x)).id + 1
  {
  }

  /** Below 0.5 the rounded score is 0: the current level falls back to level 1, and the next level is level 1 as well. */
  lemma LowScoreFallsBack(x: real)
    requires -0.5 <= x < 0.5
    ensures CurrentLevel(Some(x)) == Levels[0]
    ensures NextLevel(Some(x)) == Some(Levels[0])
  {
  }

  // ---------------------------------------------------------------- the stable sort

  predicate SortedByScore(xs: Entries) {
    forall i, j :: 0 <= i < j < |xs| ==> xs[i].1 <= xs[j].1
  }

  /** Inserts `x` after every entry whose score is not above it. */
  function Insert(x: (string, real), s: Entries): (r: Entries)
    ensures |r| == |s| + 1
  {
    if |s| == 0 then [x]
    else if x.1 < s[0].1 then [x] + s
    else [s[0]] + Insert(x, s[1..])
  }

  /** Inserting adds `x` and loses nothing. */
  lemma {:induction false} InsertPermutes(x: (string, real), s: Entries)
    ensures multiset(Insert(x, s)) == multiset(s) + multiset{x}
  {
    if |s| > 0 && x.1 >= s[0].1 {
      InsertPermutes(x, s[1..]);
      assert s == [s[0]] + s[1..];
    }
  }

  /** `entries.sort(([, a], [, b]) => a - b)`: a stable ascending sort by score. */
  function SortByScore(xs: Entries): (r: Entries)
    ensures |r| == |xs|
  {
    if |xs| == 0 then [] else Insert(xs[|xs| - 1], SortByScore(xs[..|xs| - 1]))
  }

  lemma {:induction false} InsertSorted(x: (string, real), s: Entries)
    requires SortedByScore(s)
    ensures SortedByScore(Insert(x, s))
    ensures |s| > 0 ==> Insert(x, s)[0] == (if x.1 < s[0].1 then x else s[0])
  {
    if |s| > 0 && x.1 >= s[0].1 {
      var tail := Insert(x, s[1..]);
      InsertSorted(x, s[1..]);
      InsertPermutes(x, s[1..]);
      var r := [s[0]] + tail;
      forall i, j | 0 <= i < j < |r| ensures r[i].1 <= r[j].1 {
        if i == 0 {
          assert tail[0].1 >= s[0].1;
          assert r[j] in multiset(tail);
          assert r[j] == x || r[j] in multiset(s[1..]);
          if r[j] != x {
            var k :| 0 <= k < |s[1..]| && s[1..][k] == r[j];
            assert s[k + 1] == r[j];
          }
        }
      }
    }
  }

  /** The sort returns the entries in ascending score order, as a permutation of its input. */
  lemma {:induction false} SortByScoreSorted(xs: Entries)
    ensures SortedByScore(SortByScore(xs))
    ensures multiset(SortByScore(xs)) == multiset(xs)
  {
    if |xs| > 0 {
      var n := |xs| - 1;
      SortByScoreSorted(xs[..n]);
      InsertSorted(xs[n], SortByScore(xs[..n]));
      InsertPermutes(xs[n], SortByScore(xs[..n]));
      assert xs == xs[..n] + [xs[n]];
    }
  }

  /** The entries scoring exactly `v`, in order. */
  function Ties(xs: Entries, v: real): (r: Entries)
    ensures forall i :: 0 <= i < |r| ==> r[i].1 == v
  {
    if |xs| == 0 then []
    else (if xs[0].1 == v then [xs[0]] else []) + Ties(xs[1..], v)
  }

  lemma {:induction false} TiesAppend(a: Entries, b: Entries, v: real)
    ensures Ties(a + b, v) == Ties(a, v) + Ties(b, v)
  {
    if |a| > 0 {
      assert (a + b)[1..] == a[1..] + b;
      TiesAppend(a[1..], b, v);
    } else {
      assert a + b == b;
    }
  }

  lemma {:induction false} NoTiesAbove(s: Entries, v: real)
    requires forall i :: 0 <= i < |s| ==> s[i].1 > v
    ensures Ties(s, v) == []
  {
    if |s| > 0 {
      NoTiesAbove(s[1..], v);
    }
  }

  lemma {:induction false} TiesInsert(x: (string, real), s: Entries, v: real)
    requires SortedByScore(s)
    ensures Ties(Insert(x, s), v) == Ties(s, v) + (if x.1 == v then [x] else [])
  {
    if |s| == 0 {
    } else if x.1 < s[0].1 {
      if x.1 == v {
        NoTiesAbove(s, v);
      }
      assert ([x] + s)[1..] == s;
    } else {
      TiesInsert(x, s[1..], v);
      assert ([s[0]] + Insert(x, s[1..]))[1..] == Insert(x, s[1..]);
    }
  }

  /** One insertion step keeps the ties of the sorted prefix followed by the new entry's own tie. */
  lemma StableStep(x: (string, real), prefix: Entries, v: real)
    requires Ties(SortByScore(prefix), v) == Ties(prefix, v)
    ensures Ties(Insert(x, SortByScore(prefix)), v) == Ties(prefix + [x], v)
  {
    SortByScoreSorted(prefix);
    TiesInsert(x, SortByScore(prefix), v);
    TiesAppend(prefix, [x], v);
    assert Ties([x], v) == (if x.1 == v then [x] else []) + Ties([], v);
  }

  /** Stability: the entries sharing a score keep their relative (insertion) order. */
  lemma {:induction false} SortByScoreStable(xs: Entries, v: real)
    ensures Ties(SortByScore(xs), v) == Ties(xs, v)
  {
    if |xs| > 0 {
      var n := |xs| - 1;
      SortByScoreStable(xs[..n], v);
      StableStep(xs[n], xs[..n], v);
      assert xs[..n] + [xs[n]] == xs;
    }
  }

  /** The number of entries scoring strictly below `v`. */
  function CountBelow(xs: Entries, v: real): (n: nat)
    ensures n <= |xs|
  {
    if |xs| == 0 then 0 else (if xs[0].1 < v then 1 else 0) + CountBelow(xs[1..], v)
  }

  lemma {:induction false} CountBelowAppend(a: Entries, b: Entries, v: real)
    ensures CountBelow(a + b, v) == CountBelow(a, v) + CountBelow(b, v)
  {
    if |a| > 0 {
      assert (a + b)[1..] == a[1..] + b;
      CountBelowAppend(a[1..], b, v);
    } else {
      assert a + b == b;
    }
  }

  lemma {:induction false} CountBelowInsert(x: (string, real), s: Entries, v: real)
    ensures CountBelow(Insert(x, s), v) == CountBelow(s, v) + (if x.1 < v then 1 else 0)
  {
    if |s| == 0 {
    } else if x.1 < s[0].1 {
      assert ([x] + s)[1..] == s;
    } else {
      CountBelowInsert(x, s[1..], v);
      assert ([s[0]] + Insert(x, s[1..]))[1..] == Insert(x, s[1..]);
    }
  }

  lemma {:induction false} CountBelowSort(xs: Entries, v: real)
    ensures CountBelow(SortByScore(xs), v) == CountBelow(xs, v)
  {
    if |xs| > 0 {
      var n := |xs| - 1;
      var x := xs[n];
      var prefix := xs[..n];
      assert CountBelow([x], v) == (if x.1 < v then 1 else 0) + CountBelow([], v);
      calc {
        CountBelow(SortByScore(xs), v);
        CountBelow(Insert(x, SortByScore(prefix)), v);
        { CountBelowInsert(x, SortByScore(prefix), v); }
        CountBelow(SortByScore(prefix), v) + CountBelow([x], v);
        { CountBelowSort(prefix, v); }
        CountBelow(prefix, v) + CountBelow([x], v);
        { CountBelowAppend(prefix, [x], v); }
        CountBelow(prefix + [x], v);
        { assert prefix + [x] == xs; }
        CountBelow(xs, v);
      }
    }
  }

  /** In a sorted list, fewer than `p + 1` entries score strictly below the entry at position `p`. */
  lemma {:induction false} CountBelowPosition(s: Entries, p: nat)
    requires SortedByScore(s) && p < |s|
    ensures CountBelow(s, s[p].1) <= p
  {
    if p == 0 {
      CountBelowNone(s, s[0].1);
    } else {
      CountBelowPosition(s[1..], p - 1);
      assert s[1..][p - 1] == s[p];
    }
  }

  lemma {:induction false} CountBelowNone(s: Entries, v: real)
    requires forall i :: 0 <= i < |s| ==> s[i].1 >= v
    ensures CountBelow(s, v) == 0
  {
    if |s| > 0 {
      CountBelowNone(s[1..], v);
    }
  }

  // ---------------------------------------------------------------- suggestions

  /** Category id to its suggestions, lowest band first. */
  type Rows = seq<(string, seq<string>)>

  /** What `getImprovementSuggestion` draws on: its per-category lists and the text shown when none applies. */
  datatype Table = Table(rows: Rows, fallback: string)

  const DefaultSuggestion := "Continue melhorando os processos existentes"

  /** The suggestion source the page ships with. */
  const SuggestionTable := Table(ShippedRows, DefaultSuggestion)

  /** The per-category suggestion lists of `getImprovementSuggestion`, in their written order. */
  const ShippedRows: Rows := [
    ("estrutura-organizacional", [
      "Defina papéis e responsabilidades claros na equipe",
      "Implemente estrutura hierárquica adequada",
      "Especialize vendedores por segmento ou produto"]),
    ("documentacao-governanca", [
      "Documente todos os processos de vendas",
      "Estabeleça métricas e indicadores de performance",
      "Implemente governança e controles regulares"]),
    ("uso-tecnologia", [
      "Implemente um CRM robusto",
      "Integre ferramentas de automação",
      "Adote analytics avançados e IA"]),
    ("treinamento-desenvolvimento", [
      "Estruture programa de capacitação contínua",
      "Desenvolva trilhas de aprendizado personalizadas",
      "Crie academia interna de vendas"]),
    ("metricas-kpis", [
      "Defina KPIs essenciais de vendas",
      "Implemente dashboards em tempo real",
      "Use análise preditiva para tomada de decisões"]),
    ("previsibilidade-vendas", [
      "Estruture pipeline de vendas consistente",
      "Implemente forecasting baseado em dados",
      "Desenvolva cenários e planejamento estratégico"]),
    ("alinhamento-estrategico", [
      "Alinhe vendas com objetivos empresariais",
      "Integre vendas com outras áreas",
      "Torne vendas driver estratégico da empresa"]),
    ("retencao-cultura", [
      "Desenvolva cultura de alta performance",
      "Implemente programas de retenção",
      "Torne-se referência no mercado"]),
    ("eficiencia-operacional", [
      "Otimize processos operacionais",
      "Elimine desperdícios e gargalos",
      "Implemente melhoria contínua"]),
    ("inovacao-melhoria", [
      "Fomente cultura de inovação",
      "Implemente processos de melhoria contínua",
      "Torne-se líder em inovação no setor"])
  ]

  /** The first table row for `id`, if any. */
  function LookupSuggestions(rows: Rows, id: string): (r: Option<seq<string>>)
    ensures r.None? <==> forall i :: 0 <= i < |rows| ==> rows[i].0 != id
    ensures r.Some? ==> exists i :: 0 <= i < |rows| && rows[i] == (id, r.value)
  {
    if |rows| == 0 then None
    else if rows[0].0 == id then Some(rows[0].1)
    else
      var r := LookupSuggestions(rows[1..], id);
      assert r.Some? ==> exists i :: 0 <= i < |rows[1..]| && rows[1..][i] == (id, r.value);
      r
  }

  /** `suggestions[categoryId] || []`. */
  function SuggestionsIn(table: Table, id: string): (r: seq<string>)
    ensures (forall i :: 0 <= i < |table.rows| ==> table.rows[i].0 != id) ==> r == []
    ensures r != [] ==> exists i :: 0 <= i < |table.rows| && table.rows[i] == (id, r)
    ensures LookupSuggestions(table.rows, id).Some? ==> r == LookupSuggestions(table.rows, id).value
  {
    LookupSuggestions(table.rows, id).GetOr([])
  }

  /** The shipped table's suggestions for `id`: three for a listed id, none otherwise. */
  function SuggestionsFor(id: string): (r: seq<string>)
    ensures r == [] <==> forall i :: 0 <= i < |ShippedRows| ==> ShippedRows[i].0 != id
    ensures r != [] ==> |r| == 3
  {
    SuggestionTableShape();
    SuggestionsIn(SuggestionTable, id)
  }

  /** The table has one row of three suggestions per catalog category, in catalog order. */
  lemma SuggestionTableShape()
    ensures |ShippedRows| == |Categories|
    ensures forall i :: 0 <= i < |ShippedRows| ==> ShippedRows[i].0 == Categories[i].id
    ensures forall i :: 0 <= i < |ShippedRows| ==> |ShippedRows[i].1| == 3
  {
  }

  /** No suggestion of the table is empty text. */
  lemma SuggestionTableEntriesNonEmpty()
    ensures forall i, j :: 0 <= i < |ShippedRows| && 0 <= j < |ShippedRows[i].1| ==> ShippedRows[i].1[j] != ""
  {
  }

  /** Every catalog category has three suggestions; any other id has none. */
  lemma SuggestionsCoverCatalog(id: string)
    ensures |SuggestionsFor(id)| == if FindCategoryIn(Categories, id).Some? then 3 else 0
  {
    SuggestionTableShape();
  }

  function Min(a: int, b: int): int {
    if a <= b then a else b
  }

  /** `text || fallback`: an empty suggestion falls back to the default text. */
  function OrDefault(text: string, fallback: string): (r: string)
    ensures r == "" <==> text == "" && fallback == ""
    ensures text != "" ==> r == text
    ensures text == "" ==> r == fallback
  {
    if text != "" then text else fallback
  }

  /**
   * `getImprovementSuggestion`: the suggestion at index `min(floor(score), length - 1)`
   * of the category's list, or the default text when that index does not
   * exist or the entry there is empty.
   */
  function ImprovementSuggestion(table: Table, id: string, score: real): (r: string)
    ensures table.fallback != "" ==> r != ""
    ensures SuggestionsIn(table, id) == [] || score < 0.0 ==> r == table.fallback
    ensures SuggestionsIn(table, id) != [] && score >= 0.0 ==>
      r in SuggestionsIn(table, id) || (r == table.fallback && "" in SuggestionsIn(table, id))
  {
    var list := SuggestionsIn(table, id);
    var index := Min(score.Floor, |list| - 1);
    if 0 <= index < |list| then OrDefault(list[index], table.fallback) else table.fallback
  }

  /**
   * For a category with three suggestions, scores in [0,1), [1,2) and [2,∞)
   * pick the first, second and third (the default text if that one is empty).
   */
  lemma SuggestionBands(table: Table, id: string, score: real)
    requires |SuggestionsIn(table, id)| == 3
    ensures 0.0 <= score < 1.0 ==> ImprovementSuggestion(table, id, score) == OrDefault(SuggestionsIn(table, id)[0], table.fallback)
    ensures 1.0 <= score < 2.0 ==> ImprovementSuggestion(table, id, score) == OrDefault(SuggestionsIn(table, id)[1], table.fallback)
    ensures 2.0 <= score ==> ImprovementSuggestion(table, id, score) == OrDefault(SuggestionsIn(table, id)[2], table.fallback)
  {
    var list := SuggestionsIn(table, id);
    if 0.0 <= score < 1.0 {
      assert score.Floor == 0;
    } else if 1.0 <= score < 2.0 {
      assert score.Floor == 1;
    } else if 2.0 <= score {
      assert score.Floor >= 2;
      assert Min(score.Floor, |list| - 1) == 2;
    }
  }

  /** The shipped table holds no empty suggestion, so the page always shows a table entry for a catalog category. */
  lemma ShippedSuggestionsNonEmpty(id: string, score: real)
    requires FindCategoryIn(Categories, id).Some? && score >= 0.0
    ensures ImprovementSuggestion(SuggestionTable, id, score) in SuggestionsFor(id)
  {
    SuggestionsCoverCatalog(id);
    ShippedSuggestionListed(id, score);
  }

  /** For an id the shipped table lists, the suggestion is one of its entries. */
  lemma ShippedSuggestionListed(id: string, score: real)
    requires SuggestionsFor(id) != [] && score >= 0.0
    ensures ImprovementSuggestion(SuggestionTable, id, score) in SuggestionsFor(id)
  {
    SuggestionTableEntriesNonEmpty();
    var list := SuggestionsIn(SuggestionTable, id);
    var i :| 0 <= i < |ShippedRows| && ShippedRows[i] == (id, list);
    assert "" !in list;
  }

  /** With the shipped source the page never shows an empty suggestion. */
  lemma ShippedSuggestionNeverEmpty(id: string, score: real)
    ensures ImprovementSuggestion(SuggestionTable, id, score) != ""
  {
    assert SuggestionTable.fallback[0] == 'C';
  }

  // ---------------------------------------------------------------- recommendations

  /** The recommendation an entry yields: only for a catalog category scoring below 4. */
  function RecommendationFor(cats: seq<Category>, table: Table, e: (string, real)): (r: Option<Recommendation>)
    ensures r.Some? <==> FindCategoryIn(cats, e.0).Some? && e.1 < 4.0
    ensures r.Some? ==> r.value.currentScore == e.1 && r.value.suggestion == ImprovementSuggestion(table, e.0, e.1)
    ensures r.Some? ==> r.value.category == FindCategoryIn(cats, e.0).value.name
  {
    match FindCategoryIn(cats, e.0)
    case Some(category) =>
      if e.1 < 4.0 then Some(Recommendation(category.name, e.1, ImprovementSuggestion(table, e.0, e.1))) else None
    case None => None
  }

  function Listed(o: Option<Recommendation>): (r: seq<Recommendation>)
    ensures |r| <= 1
  {
    if o.Some? then [o.value] else []
  }

  /** The recommendations pushed while walking `chosen` in order. */
  function RecommendationsFrom(cats: seq<Category>, table: Table, chosen: Entries): (r: seq<Recommendation>)
    ensures |r| <= |chosen|
  {
    if |chosen| == 0 then []
    else RecommendationsFrom(cats, table, chosen[..|chosen| - 1]) + Listed(RecommendationFor(cats, table, chosen[|chosen| - 1]))
  }

  /** `getRecommendations`: the three lowest-scoring entries, walked in ascending order. */
  function Recommendations(cats: seq<Category>, table: Table, scores: Entries): seq<Recommendation> {
    RecommendationsFrom(cats, table, Take(SortByScore(scores), 3))
  }

  /** Every recommendation comes from a chosen entry that qualifies. */
  lemma {:induction false} RecommendationsFromChosen(cats: seq<Category>, table: Table, chosen: Entries)
    ensures forall k :: 0 <= k < |RecommendationsFrom(cats, table, chosen)| ==>
      exists i :: 0 <= i < |chosen| && RecommendationFor(cats, table, chosen[i]) == Some(RecommendationsFrom(cats, table, chosen)[k])
  {
    if |chosen| > 0 {
      var n := |chosen| - 1;
      var prefix := chosen[..n];
      RecommendationsFromChosen(cats, table, prefix);
      var rest := RecommendationsFrom(cats, table, prefix);
      var r := RecommendationsFrom(cats, table, chosen);
      assert r == rest + Listed(RecommendationFor(cats, table, chosen[n]));
      forall k | 0 <= k < |r|
        ensures exists i :: 0 <= i < |chosen| && RecommendationFor(cats, table, chosen[i]) == Some(r[k])
      {
        if k < |rest| {
          var i :| 0 <= i < |prefix| && RecommendationFor(cats, table, prefix[i]) == Some(rest[k]);
          assert chosen[i] == prefix[i];
        } else {
          assert RecommendationFor(cats, table, chosen[n]) == Some(r[k]);
        }
      }
    } else {
      assert RecommendationsFrom(cats, table, chosen) == [];
    }
  }

  /** Every chosen entry that qualifies yields a recommendation. */
  lemma ChosenRecommended(cats: seq<Category>, table: Table, chosen: Entries)
    ensures forall i :: 0 <= i < |chosen| && RecommendationFor(cats, table, chosen[i]).Some? ==>
      RecommendationFor(cats, table, chosen[i]).value in RecommendationsFrom(cats, table, chosen)
  {
    RecommendationsFromGathered(cats, table, chosen);
    forall i | 0 <= i < |chosen| && RecommendationFor(cats, table, chosen[i]).Some?
      ensures RecommendationFor(cats, table, chosen[i]).value in RecommendationsFrom(cats, table, chosen)
    {
      GatherHas(RecommendationOf(cats, table), chosen, i, RecommendationFor(cats, table, chosen[i]).value);
    }
  }

  /** `RecommendationFor` over a fixed catalog and table, as a function value. */
  function RecommendationOf(cats: seq<Category>, table: Table): ((string, real)) -> Option<Recommendation> {
    e => RecommendationFor(cats, table, e)
  }

  /** Building the list entry by entry gathers what `RecommendationFor` yields. */
  lemma {:induction false} RecommendationsFromGathered(cats: seq<Category>, table: Table, chosen: Entries)
    ensures RecommendationsFrom(cats, table, chosen) == Gather(RecommendationOf(cats, table), chosen)
  {
    if |chosen| > 0 {
      RecommendationsFromGathered(cats, table, chosen[..|chosen| - 1]);
    }
  }

  /** Walking entries in ascending score order yields recommendations in ascending score order. */
  lemma {:induction false} RecommendationsAscending(cats: seq<Category>, table: Table, chosen: Entries)
    requires SortedByScore(chosen)
    ensures forall k, l :: 0 <= k < l < |RecommendationsFrom(cats, table, chosen)| ==>
      RecommendationsFrom(cats, table, chosen)[k].currentScore <= RecommendationsFrom(cats, table, chosen)[l].currentScore
  {
    if |chosen| > 0 {
      var n := |chosen| - 1;
      var prefix := chosen[..n];
      RecommendationsAscending(cats, table, prefix);
      RecommendationsFromChosen(cats, table, prefix);
      var rest := RecommendationsFrom(cats, table, prefix);
      forall k | 0 <= k < |rest| ensures rest[k].currentScore <= chosen[n].1 {
        var i :| 0 <= i < |prefix| && RecommendationFor(cats, table, prefix[i]) == Some(rest[k]);
        assert prefix[i] == chosen[i];
      }
    }
  }

  /**
   * What the page recommends: at most three entries, each for a catalog
   * category scoring below 4, in ascending score order, and each for a
   * category with at most two categories scoring strictly lower.
   */
  lemma RecommendationsProperties(cats: seq<Category>, table: Table, scores: Entries)
    ensures |Recommendations(cats, table, scores)| <= 3
    ensures forall k :: 0 <= k < |Recommendations(cats, table, scores)| ==>
      Recommendations(cats, table, scores)[k].currentScore < 4.0
      && (exists i :: 0 <= i < |cats| && cats[i].name == Recommendations(cats, table, scores)[k].category)
      && CountBelow(scores, Recommendations(cats, table, scores)[k].currentScore) <= 2
    ensures forall k, l :: 0 <= k < l < |Recommendations(cats, table, scores)| ==>
      Recommendations(cats, table, scores)[k].currentScore <= Recommendations(cats, table, scores)[l].currentScore
    ensures forall i :: 0 <= i < 3 && i < |scores| && RecommendationFor(cats, table, SortByScore(scores)[i]).Some? ==>
      RecommendationFor(cats, table, SortByScore(scores)[i]).value in Recommendations(cats, table, scores)
  {
    var sorted := SortByScore(scores);
    SortByScoreSorted(scores);
    var chosen := Take(sorted, 3);
    var recs := RecommendationsFrom(cats, table, chosen);
    RecommendationsFromChosen(cats, table, chosen);
    ChosenRecommended(cats, table, chosen);
    assert SortedByScore(chosen);
    RecommendationsAscending(cats, table, chosen);
    forall k | 0 <= k < |recs|
      ensures recs[k].currentScore < 4.0
      ensures exists i :: 0 <= i < |cats| && cats[i].name == recs[k].category
      ensures CountBelow(scores, recs[k].currentScore) <= 2
    {
      var i :| 0 <= i < |chosen| && RecommendationFor(cats, table, chosen[i]) == Some(recs[k]);
      var category := FindCategoryIn(cats, chosen[i].0).value;
      assert recs[k].category == category.name;
      CountBelowPosition(sorted, i);
      CountBelowSort(scores, sorted[i].1);
    }
  }

  /** Walking one more entry appends its recommendation, if it yields one. */
  lemma RecommendationsFromStep(cats: seq<Category>, table: Table, chosen: Entries, i: nat)
    requires i < |chosen|
    ensures RecommendationsFrom(cats, table, chosen[..i + 1])
      == RecommendationsFrom(cats, table, chosen[..i]) + Listed(RecommendationFor(cats, table, chosen[i]))
  {
    assert chosen[..i + 1][..i] == chosen[..i];
  }

  /** The order-walking loop of `getRecommendations`, pushing one entry per qualifying category. */
  method GetRecommendations(cats: seq<Category>, table: Table, scores: Entries) returns (recommendations: seq<Recommendation>)
    ensures recommendations == Recommendations(cats, table, scores)
  {
    var sortedCategories := Take(SortByScore(scores), 3);
    recommendations := [];
    var i := 0;
    while i < |sortedCategories|
      invariant 0 <= i <= |sortedCategories|
      invariant recommendations == RecommendationsFrom(cats, table, sortedCategories[..i])
    {
      var (categoryId, score) := sortedCategories[i];
      var category := FindCategoryIn(cats, categoryId);
      if category.Some? && score < 4.0 {
        recommendations := recommendations + [Recommendation(category.value.name, score, ImprovementSuggestion(table, categoryId, score))];
      }
      RecommendationsFromStep(cats, table, sortedCategories, i);
      i := i + 1;
    }
    assert sortedCategories[..i] == sortedCategories;
  }

  // ---------------------------------------------------------------- the page

  /**
   * What the page renders from a score record, given the catalog and the
   * suggestion table. A complete questionnaire (scores in [1, 5]) always shows
   * an overall score and a level on the scale, with a next level exactly below
   * level 5; at most three recommendations are shown, all below 4.
   */
  function View(cats: seq<Category>, table: Table, scores: Entries): (v: ResultView)
    ensures v.scores == scores && v.overall == OverallScore(scores)
    ensures v.currentLevel == CurrentLevel(v.overall) && v.nextLevel == NextLevel(v.overall)
    ensures v.recommendations == Recommendations(cats, table, scores)
    ensures v.overall.None? <==> |scores| == 0
    ensures |scores| > 0 && (forall i :: 0 <= i < |scores| ==> 1.0 <= scores[i].1 <= 5.0) ==>
      v.overall.Some? && 1 <= v.currentLevel.id <= 5 && (v.nextLevel.Some? <==> v.currentLevel.id < 5)
    ensures |v.recommendations| <= 3
    ensures forall k :: 0 <= k < |v.recommendations| ==> v.recommendations[k].currentScore < 4.0
  {
    var overall := OverallScore(scores);
    var recs := Recommendations(cats, table, scores);
    RecommendationsProperties(cats, table, scores);
    if |scores| > 0 && (forall i :: 0 <= i < |scores| ==> 1.0 <= scores[i].1 <= 5.0) then
      OverallScoreBounds(scores, 1.0, 5.0);
      LevelProgression(overall.value);
      ResultView(scores, overall, CurrentLevel(overall), NextLevel(overall), recs)
    else
      ResultView(scores, overall, CurrentLevel(overall), NextLevel(overall), recs)
  }

  /**
   * The page as written: the state object is destructured before the check,
   * so a visit without navigation state throws; missing scores redirect home.
   */
  function ResultPageAsWritten(cats: seq<Category>, table: Table, state: NavState): (p: Page)
    ensures p.Crash? <==> state.NoState?
    ensures p == RedirectHome <==> state == State(None)
    ensures p.Render? ==> state.State? && state.scores.Some? && p.view == View(cats, table, state.scores.value)
  {
    match state
    case NoState => Crash
    case State(None) => RedirectHome
    case State(Some(scores)) => Render(View(cats, table, scores))
  }

  /** The page as intended: anything without scores redirects home, nothing throws. */
  function ResultPage(cats: seq<Category>, table: Table, state: NavState): (p: Page)
    ensures !p.Crash?
    ensures p == RedirectHome <==> state.NoState? || state == State(None)
    ensures p.Render? ==> state.State? && state.scores.Some? && p.view == View(cats, table, state.scores.value)
  {
    match state
    case State(Some(scores)) => Render(View(cats, table, scores))
    case _ => RedirectHome
  }

  /** The two agree wherever navigation state exists; they differ on a direct visit. */
  lemma ResultPageDiffersOnlyWithoutState(cats: seq<Category>, table: Table, state: NavState)
    ensures state.State? ==> ResultPage(cats, table, state) == ResultPageAsWritten(cats, table, state)
    ensures ResultPageAsWritten(cats, table, NoState) == Crash && ResultPage(cats, table, NoState) == RedirectHome
  {
  }

  /** An empty score record renders (an empty object is truthy) with no overall score, level 1 and no next level. */
  lemma EmptyScoresRender(cats: seq<Category>, table: Table)
    ensures ResultPage(cats, table, State(Some([]))) == Render(ResultView([], None, Levels[0], None, []))
  {
    assert Take(SortByScore([]), 3) == [];
  }
}
