/**
 * The per-respondent report: the follow-up playbook for the stored level,
 * the level details, the per-category cards and the WhatsApp number taken
 * from the phone field.
 */
module RelatorioRespondente {
  import opened Wrappers
  import opened Text
  import opened MaturityData
  import opened Leads

  // ---------------------------------------------------------------- follow-up

  /** The follow-up table: four actions for each level, levels 1 to 5 in order. */
  const FollowupTable: seq<seq<string>> := [
    ["Agendar reunião executiva para apresentar roadmap de transformação",
     "Propor diagnóstico aprofundado com workshop interno",
     "Apresentar cases de sucesso de empresas similares",
     "Oferecer consultoria estratégica inicial"],
    ["Apresentar plano de implementação estruturado",
     "Propor mentoria contínua para equipe de vendas",
     "Sugerir integração de ferramentas de CRM",
     "Oferecer treinamento especializado"],
    ["Focar em otimização de processos existentes",
     "Propor implementação de analytics avançado",
     "Sugerir automação de tarefas operacionais",
     "Oferecer consultoria em escalabilidade"],
    ["Apresentar estratégias de inovação e diferenciação",
     "Propor programa de excelência em vendas",
     "Sugerir transformação digital completa",
     "Oferecer partnership estratégico"],
    ["Posicionar como referência de mercado",
     "Propor programa de retenção e desenvolvimento de talentos",
     "Sugerir expansão para novos mercados",
     "Oferecer consultoria em liderança e inovação"]
  ]

  /** The table's entry for a level, nothing off the scale. */
  function FollowupFor(level: int): (r: Option<seq<string>>)
    ensures r.Some? <==> 1 <= level <= 5
    ensures r.Some? ==> |r.value| == 4
  {
    if 1 <= level <= 5 then Some(FollowupTable[level - 1]) else None
  }

  /** `getFollowupRecommendations`: nothing without a result, four actions for levels 1..5, nothing otherwise. */
  function FollowupRecommendations(result: Option<MaturityResult>): (r: seq<string>)
    ensures result.None? ==> r == []
    ensures result.Some? && 1 <= result.value.maturityLevel <= 5 ==> |r| == 4
    ensures result.Some? && !(1 <= result.value.maturityLevel <= 5) ==> r == []
  {
    match result
    case None => []
    case Some(m) => FollowupFor(m.maturityLevel).GetOr([])
  }

  // ---------------------------------------------------------------- level details

  /** `maturityLevels.find(level => level.id === maturityResult?.maturity_level)`: no fallback. */
  function ReportLevel(result: Option<MaturityResult>): (l: Option<Level>)
    ensures l.Some? <==> result.Some? && 1 <= result.value.maturityLevel <= 5
    ensures l.Some? ==> l.value.id == result.value.maturityLevel && l.value == Levels[l.value.id - 1]
  {
    match result
    case None => None
    case Some(m) => FindLevel(m.maturityLevel)
  }

  // ---------------------------------------------------------------- WhatsApp

  /** `telefone.replace(/\D/g, "")`: keeps the ASCII digits, in order. */
  function DigitsOnly(s: string): (r: string)
    ensures AllDigits(r)
    ensures |r| <= |s|
  {
    Filter(s, IsDigit)
  }

  /** Exactly the digits of the phone field survive, in their original order. */
  lemma DigitsOnlyKeepsDigits(s: string, c: char)
    ensures c in DigitsOnly(s) <==> c in s && IsDigit(c)
    ensures IsSubsequence(DigitsOnly(s), s)
  {
    FilterMembers(s, IsDigit, c);
    FilterSubsequence(s, IsDigit);
  }

  /** Stripping twice is stripping once; a digit-only number is left as it is. */
  lemma DigitsOnlyIdempotent(s: string)
    ensures DigitsOnly(DigitsOnly(s)) == DigitsOnly(s)
    ensures AllDigits(s) ==> DigitsOnly(s) == s
  {
    FilterKeepsAll(DigitsOnly(s), IsDigit);
    if AllDigits(s) {
      FilterKeepsAll(s, IsDigit);
    }
  }

  // ---------------------------------------------------------------- category cards

  /** `typeof score === "number" ? score : 0`. */
  function ScoreNumber(v: ScoreValue): real {
    match v
    case Number(x) => x
    case NotNumber => 0.0
  }

  /** The width of a category's bar, in percent. */
  function Percentage(v: ScoreValue): (p: real)
    ensures v.NotNumber? ==> p == 0.0
    ensures v.Number? ==> p * 5.0 == v.value * 100.0
  {
    (ScoreNumber(v) / 5.0) * 100.0
  }

  /** A score in [0, 5] fills between 0% and 100% of the bar, the full bar exactly at 5. */
  lemma PercentageBounds(v: ScoreValue)
    requires 0.0 <= ScoreNumber(v) <= 5.0
    ensures 0.0 <= Percentage(v) <= 100.0
    ensures Percentage(v) == 100.0 <==> ScoreNumber(v) == 5.0
  {
  }

  /** `category?.name || categoryId.replace("-", " ")`. */
  function DisplayName(cats: seq<Category>, id: string): (name: string)
    ensures FindCategoryIn(cats, id).Some? && FindCategoryIn(cats, id).value.name != "" ==>
      name == FindCategoryIn(cats, id).value.name
    ensures FindCategoryIn(cats, id).None? ==> name == CategoryLabel(id)
  {
    match FindCategoryIn(cats, id)
    case Some(c) => if c.name != "" then c.name else CategoryLabel(id)
    case None => CategoryLabel(id)
  }

  /** Every catalog category has a name, so a catalog id always shows its own catalog name. */
  lemma CatalogNamesShown(i: nat)
    requires i < |Categories|
    ensures DisplayName(Categories, Categories[i].id) == Categories[i].name
  {
    CategoryNamesNonEmpty();
    CategoryIdsDistinct();
    var found := FindCategoryIn(Categories, Categories[i].id);
    assert found.Some?;
    var j :| 0 <= j < |Categories| && Categories[j] == found.value && found.value.id == Categories[i].id;
    assert j == i;
  }

  lemma CategoryNamesNonEmpty()
    ensures forall i :: 0 <= i < |Categories| ==> Categories[i].name != ""
  {
  }

  /** One card per stored score, in stored order. */
  datatype CategoryCard = CategoryCard(name: string, score: real, percentage: real)

  function CategoryCards(scores: seq<(string, ScoreValue)>): (cards: seq<CategoryCard>)
    ensures |cards| == |scores|
    ensures forall i :: 0 <= i < |scores| ==>
      cards[i].name == DisplayName(Categories, scores[i].0) && cards[i].score == ScoreNumber(scores[i].1)
      && cards[i].percentage == Percentage(scores[i].1)
  {
    seq(|scores|, i requires 0 <= i < |scores| =>
      CategoryCard(DisplayName(Categories, scores[i].0), ScoreNumber(scores[i].1), Percentage(scores[i].1)))
  }
}
