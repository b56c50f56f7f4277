/**
 * The question catalog: five maturity levels with their profiles, and ten
 * categories, each holding one question of five options whose value is also
 * its maturity level. Everything here is constant data; the lemmas state the
 * invariants the scoring and reporting pages rely on.
 */
module MaturityData {
  import opened Wrappers

  datatype Level = Level(
    id: int,
    name: string,
    description: string,
    color: string,
    characteristics: seq<string>,
    salesEfficiency: real,
    revenueIncrease: string)

  datatype AnswerOption = AnswerOption(value: int, text: string, level: int)

  datatype Question = Question(id: string, text: string, options: seq<AnswerOption>)

  datatype Category = Category(id: string, name: string, description: string, questions: seq<Question>)

  const Levels: seq<Level> := [
    Level(1, "Caos Operacional",
      "Falta governança nos processos comerciais, equipe de vendas opera de maneira descoordenada",
      "hsl(var(--nivel-1))",
      [
        "Processos não documentados",
        "Métricas inexistentes ou irrelevantes",
        "Cultura reativa e desorganizada",
        "Falta de estratégias definidas"
      ],
      1.0, "0%"),
    Level(2, "Organização Inicial",
      "Processos iniciais de vendas estabelecidos, adoção crescente de ferramentas básicas",
      "hsl(var(--nivel-2))",
      [
        "Implementação de CRMs básicos",
        "Primeiros indícios de segmentação",
        "Cultura em transição",
        "Métricas básicas implementadas"
      ],
      1.25, "25%"),
    Level(3, "Estruturação e Consistência",
      "Processos estabelecidos e documentados, métricas e KPIs básicos em uso",
      "hsl(var(--nivel-3))",
      [
        "Processos documentados",
        "Cultura data-driven iniciante",
        "Coordenação entre vendas e marketing",
        "Ciclo de vendas definido"
      ],
      1.6, "60%"),
    Level(4, "Otimização e Previsibilidade",
      "Operações guiadas por métricas bem definidas, ferramentas tecnológicas robustas",
      "hsl(var(--nivel-4))",
      [
        "Funil de vendas bem definido",
        "Previsibilidade alta",
        "Cultura orientada para desempenho",
        "Coordenação forte entre áreas"
      ],
      2.0, "100%"),
    Level(5, "Excelência",
      "Operações otimizadas, cultura de inovação e melhoria contínua estabelecida",
      "hsl(var(--nivel-5))",
      [
        "Inovação e melhoria contínua",
        "Cultura organizacional de alto nível",
        "Processos otimizados",
        "Liderança estratégica"
      ],
      2.5, "150%")
  ]

  // One constant per category, in catalog order.

  const EstruturaOrganizacional: Category :=
    Category("estrutura-organizacional", "Estrutura Organizacional",
      "Organização e definição de papéis na equipe de vendas",
      [
        Question("estrutura-1",
          "Como está organizada a estrutura da sua equipe de vendas?",
          [
            AnswerOption(1, "Sem estrutura definida, cada vendedor atua individualmente", 1),
            AnswerOption(2, "Estrutura básica com alguns papéis definidos", 2),
            AnswerOption(3, "Estrutura clara com papéis e responsabilidades bem definidos", 3),
            AnswerOption(4, "Estrutura otimizada com especialização por segmento/produto", 4),
            AnswerOption(5, "Estrutura de alta performance com times especializados e liderança estratégica", 5)
          ])
      ])

  const DocumentacaoGovernanca: Category :=
    Category("documentacao-governanca", "Documentação e Governança",
      "Processos documentados e governança estabelecida",
      [
        Question("doc-1",
          "Qual o nível de documentação dos seus processos de vendas?",
          [
            AnswerOption(1, "Processos não documentados, conhecimento tribal", 1),
            AnswerOption(2, "Alguns processos documentados de forma básica", 2),
            AnswerOption(3, "Processos principais documentados e atualizados regularmente", 3),
            AnswerOption(4, "Processos detalhados com métricas e indicadores associados", 4),
            AnswerOption(5, "Documentação completa com governança e melhoria contínua", 5)
          ])
      ])

  const UsoTecnologia: Category :=
    Category("uso-tecnologia", "Uso de Tecnologia",
      "Adoção e utilização de ferramentas tecnológicas",
      [
        Question("tech-1",
          "Como sua empresa utiliza tecnologia no processo de vendas?",
          [
            AnswerOption(1, "Uso básico ou inexistente de tecnologia", 1),
            AnswerOption(2, "CRM básico implementado, uso limitado", 2),
            AnswerOption(3, "CRM implementado com boa adoção da equipe", 3),
            AnswerOption(4, "Ferramentas integradas: CRM, automação, analytics", 4),
            AnswerOption(5, "Stack tecnológico completo com IA e automação avançada", 5)
          ])
      ])

  const TreinamentoDesenvolvimento: Category :=
    Category("treinamento-desenvolvimento", "Treinamento e Desenvolvimento",
      "Capacitação e desenvolvimento da equipe",
      [
        Question("train-1",
          "Como funciona o treinamento da sua equipe de vendas?",
          [
            AnswerOption(1, "Não há programa de treinamento estruturado", 1),
            AnswerOption(2, "Treinamentos pontuais e básicos", 2),
            AnswerOption(3, "Programa de treinamento estruturado e regular", 3),
            AnswerOption(4, "Desenvolvimento contínuo com trilhas personalizadas", 4),
            AnswerOption(5, "Academia de vendas com metodologia própria e certificações", 5)
          ])
      ])

  const MetricasKpis: Category :=
    Category("metricas-kpis", "Métricas e KPIs",
      "Uso de métricas e indicadores de performance",
      [
        Question("metrics-1",
          "Como sua empresa monitora as métricas de vendas?",
          [
            AnswerOption(1, "Métricas básicas ou não utilizadas", 1),
            AnswerOption(2, "Algumas métricas básicas acompanhadas", 2),
            AnswerOption(3, "KPIs definidos e acompanhados regularmente", 3),
            AnswerOption(4, "Métricas avançadas com análise preditiva", 4),
            AnswerOption(5, "Dashboard completo com insights estratégicos em tempo real", 5)
          ])
      ])

  const PrevisibilidadeVendas: Category :=
    Category("previsibilidade-vendas", "Previsibilidade de Vendas",
      "Capacidade de prever e planejar vendas",
      [
        Question("forecast-1",
          "Como é realizada a previsão de vendas na sua empresa?",
          [
            AnswerOption(1, "Não há previsibilidade, vendas são imprevisíveis", 1),
            AnswerOption(2, "Previsões básicas baseadas em intuição", 2),
            AnswerOption(3, "Previsões estruturadas com base em pipeline", 3),
            AnswerOption(4, "Previsões precisas com alta confiabilidade", 4),
            AnswerOption(5, "Previsões estratégicas com cenários e planejamento de longo prazo", 5)
          ])
      ])

  const AlinhamentoEstrategico: Category :=
    Category("alinhamento-estrategico", "Alinhamento Estratégico",
      "Alinhamento entre vendas e estratégia empresarial",
      [
        Question("strategy-1",
          "Como as vendas estão alinhadas com a estratégia da empresa?",
          [
            AnswerOption(1, "Vendas operam isoladamente da estratégia", 1),
            AnswerOption(2, "Alinhamento básico com objetivos gerais", 2),
            AnswerOption(3, "Vendas alinhadas com estratégia e objetivos claros", 3),
            AnswerOption(4, "Integração estratégica com outras áreas", 4),
            AnswerOption(5, "Vendas como driver estratégico da empresa", 5)
          ])
      ])

  const RetencaoCultura: Category :=
    Category("retencao-cultura", "Retenção e Cultura",
      "Cultura organizacional e retenção de talentos",
      [
        Question("culture-1",
          "Como é a cultura e retenção na sua equipe de vendas?",
          [
            AnswerOption(1, "Alta rotatividade, cultura tóxica ou inexistente", 1),
            AnswerOption(2, "Cultura em desenvolvimento, rotatividade controlada", 2),
            AnswerOption(3, "Cultura positiva estabelecida, boa retenção", 3),
            AnswerOption(4, "Cultura de alta performance, baixa rotatividade", 4),
            AnswerOption(5, "Cultura de excelência, empresa referência no mercado", 5)
          ])
      ])

  const EficienciaOperacional: Category :=
    Category("eficiencia-operacional", "Eficiência Operacional",
      "Eficiência dos processos operacionais",
      [
        Question("efficiency-1",
          "Como você avalia a eficiência operacional das vendas?",
          [
            AnswerOption(1, "Processos ineficientes, muito tempo perdido", 1),
            AnswerOption(2, "Eficiência básica, ainda há muito desperdício", 2),
            AnswerOption(3, "Processos eficientes com otimizações pontuais", 3),
            AnswerOption(4, "Alta eficiência com processos otimizados", 4),
            AnswerOption(5, "Excelência operacional com melhoria contínua", 5)
          ])
      ])

  const InovacaoMelhoria: Category :=
    Category("inovacao-melhoria", "Inovação e Melhoria Contínua",
      "Capacidade de inovar e melhorar continuamente",
      [
        Question("innovation-1",
          "Como sua empresa inova e melhora os processos de vendas?",
          [
            AnswerOption(1, "Não há cultura de inovação ou melhoria", 1),
            AnswerOption(2, "Melhorias pontuais quando surgem problemas", 2),
            AnswerOption(3, "Processo estruturado de melhoria contínua", 3),
            AnswerOption(4, "Inovação como parte da cultura empresarial", 4),
            AnswerOption(5, "Liderança em inovação, empresa referência no setor", 5)
          ])
      ])

  /** The ten categories, in the order the questionnaire asks them. */
  const Categories: seq<Category> := [
    EstruturaOrganizacional,
    DocumentacaoGovernanca,
    UsoTecnologia,
    TreinamentoDesenvolvimento,
    MetricasKpis,
    PrevisibilidadeVendas,
    AlinhamentoEstrategico,
    RetencaoCultura,
    EficienciaOperacional,
    InovacaoMelhoria
  ]

  // ---------------------------------------------------------------- lookups

  /** `levels.find(level => level.id === id)`: the first level with that id. */
  function FindLevelIn(levels: seq<Level>, id: int): (r: Option<Level>)
    ensures r.None? <==> forall i :: 0 <= i < |levels| ==> levels[i].id != id
    ensures r.Some? ==> exists i :: 0 <= i < |levels| && levels[i] == r.value && r.value.id == id
  {
    if |levels| == 0 then None
    else if levels[0].id == id then Some(levels[0])
    else
      var r := FindLevelIn(levels[1..], id);
      assert r.Some? ==> exists i :: 0 <= i < |levels[1..]| && levels[1..][i] == r.value && r.value.id == id;
      r
  }

  /** `maturityLevels.find(level => level.id === id)`. */
  function FindLevel(id: int): (r: Option<Level>)
    ensures r.Some? <==> 1 <= id <= 5
    ensures r.Some? ==> r.value == Levels[id - 1] && r.value.id == id
  {
    LevelsInOrder();
    FindLevelIn(Levels, id)
  }

  /** `categories.find(c => c.id === id)`: the first category with that id. */
  function FindCategoryIn(cats: seq<Category>, id: string): (r: Option<Category>)
    ensures r.None? <==> forall i :: 0 <= i < |cats| ==> cats[i].id != id
    ensures r.Some? ==> exists i :: 0 <= i < |cats| && cats[i] == r.value && r.value.id == id
  {
    if |cats| == 0 then None
    else if cats[0].id == id then Some(cats[0])
    else
      var r := FindCategoryIn(cats[1..], id);
      assert r.Some? ==> exists i :: 0 <= i < |cats[1..]| && cats[1..][i] == r.value && r.value.id == id;
      r
  }

  // ---------------------------------------------------------------- invariants

  /** Five options whose values are 1..5 in order, each value equal to its level. */
  predicate WellFormedQuestion(q: Question) {
    |q.options| == 5 &&
    forall k :: 0 <= k < 5 ==> q.options[k].value == k + 1 && q.options[k].level == k + 1
  }

  /** At least one question, and every question well formed. */
  predicate WellFormedCategory(c: Category) {
    |c.questions| >= 1 &&
    forall j :: 0 <= j < |c.questions| ==> WellFormedQuestion(c.questions[j])
  }

  /** Every category of the catalog is well formed. */
  predicate WellFormedCatalog(cats: seq<Category>) {
    forall i :: 0 <= i < |cats| ==> WellFormedCategory(cats[i])
  }

  predicate DistinctCategoryIds(cats: seq<Category>) {
    forall i, j :: 0 <= i < j < |cats| ==> cats[i].id != cats[j].id
  }

  /** Question ids are distinct across the whole catalog, not only within a category. */
  predicate DistinctQuestionIds(cats: seq<Category>) {
    forall i, a, j, b ::
      0 <= i < |cats| && 0 <= a < |cats[i].questions| &&
      0 <= j < |cats| && 0 <= b < |cats[j].questions| &&
      (i != j || a != b) ==>
        cats[i].questions[a].id != cats[j].questions[b].id
  }

  /** There are five levels, with ids 1, 2, 3, 4, 5 in that order. */
  lemma LevelsInOrder()
    ensures |Levels| == 5
    ensures forall i :: 0 <= i < |Levels| ==> Levels[i].id == i + 1
  {
  }

  /** The efficiency multiplier is 1.0, 1.25, 1.6, 2.0, 2.5: strictly increasing with the level. */
  lemma SalesEfficiencyIncreases()
    ensures |Levels| == 5
    ensures Levels[0].salesEfficiency == 1.0 && Levels[4].salesEfficiency == 2.5
    ensures forall i, j :: 0 <= i < j < |Levels| ==> Levels[i].salesEfficiency < Levels[j].salesEfficiency
  {
  }

  /** Every level profile lists exactly four characteristics. */
  lemma FourCharacteristics()
    ensures forall i :: 0 <= i < |Levels| ==> |Levels[i].characteristics| == 4
  {
  }

  /** Ten categories, each holding exactly one question. */
  lemma CategoriesShape()
    ensures |Categories| == 10
    ensures forall i :: 0 <= i < |Categories| ==> |Categories[i].questions| == 1
  {
  }

  /** Category ids are pairwise distinct. */
  lemma CategoryIdsDistinct()
    ensures DistinctCategoryIds(Categories)
  {
  }

  /** The question ids of the catalog, one per category, in catalog order. */
  const QuestionIds: seq<string> := ["estrutura-1", "doc-1", "tech-1", "train-1", "metrics-1",
                                     "forecast-1", "strategy-1", "culture-1", "efficiency-1", "innovation-1"]

  /** The ten listed question ids differ pairwise. */
  lemma QuestionIdsListDistinct()
    ensures |QuestionIds| == 10
    ensures forall i, j :: 0 <= i < 10 && 0 <= j < 10 && i != j ==> QuestionIds[i] != QuestionIds[j]
  {
  }

  /** Category i holds the single question QuestionIds[i]. */
  lemma QuestionIdsOfCatalog()
    ensures |Categories| == 10
    ensures forall i :: 0 <= i < 10 ==> |Categories[i].questions| == 1 && Categories[i].questions[0].id == QuestionIds[i]
  {
    CategoriesShape();
  }

  /** Question ids are pairwise distinct across the catalog. */
  lemma QuestionIdsDistinct()
    ensures DistinctQuestionIds(Categories)
  {
    QuestionIdsOfCatalog();
    QuestionIdsListDistinct();
    forall i, a, j, b |
      0 <= i < |Categories| && 0 <= a < |Categories[i].questions| &&
      0 <= j < |Categories| && 0 <= b < |Categories[j].questions| &&
      (i != j || a != b)
      ensures Categories[i].questions[a].id != Categories[j].questions[b].id
    {
      assert a == 0 && b == 0 && i != j;
    }
  }

  /** Every question of the catalog has the five options 1..5, value equal to level. */
  lemma CatalogWellFormed()
    ensures WellFormedCatalog(Categories)
  {
    FirstFiveWellFormed();
    LastFiveWellFormed();
  }

  /** The first five categories, each taken on its own, are well formed. */
  lemma FirstFiveWellFormed()
    ensures WellFormedCategory(EstruturaOrganizacional) && WellFormedCategory(DocumentacaoGovernanca)
    ensures WellFormedCategory(UsoTecnologia) && WellFormedCategory(TreinamentoDesenvolvimento)
    ensures WellFormedCategory(MetricasKpis)
  {
  }

  /** The last five categories, each taken on its own, are well formed. */
  lemma LastFiveWellFormed()
    ensures WellFormedCategory(PrevisibilidadeVendas) && WellFormedCategory(AlinhamentoEstrategico)
    ensures WellFormedCategory(RetencaoCultura) && WellFormedCategory(EficienciaOperacional)
    ensures WellFormedCategory(InovacaoMelhoria)
  {
  }

  /** In a well-formed catalog every option value lies in 1..5. */
  lemma OptionValuesInRange(cats: seq<Category>)
    requires WellFormedCatalog(cats)
    ensures forall i, j, k ::
      0 <= i < |cats| && 0 <= j < |cats[i].questions| && 0 <= k < |cats[i].questions[j].options| ==>
        1 <= cats[i].questions[j].options[k].value <= 5
  {
  }
}
