/**
 * The question flow: the catalog flattened into one list of questions, a
 * cursor that walks it, the answer map the radio buttons write into, and the
 * per-category scoring run when the last question is confirmed.
 */
module Questionario {
  import opened Wrappers
  import opened Text
  import opened Records
  import opened MaturityData
  import opened Means

  /** An entry of `allQuestions`: a question tagged with its category's name and id. */
  datatype FlatQuestion = FlatQuestion(question: Question, categoryName: string, categoryId: string)

  /** The state passed to the result page: the scores and the raw answers. */
  datatype ResultState = ResultState(scores: Entries, answers: Answers)

  /** Question id to the selected option's value, as the radio group reports it (a string). */
  type Answers = map<string, string>

  // ---------------------------------------------------------------- allQuestions

  function Tagged(c: Category): seq<FlatQuestion> {
    seq(|c.questions|, j requires 0 <= j < |c.questions| => FlatQuestion(c.questions[j], c.name, c.id))
  }

  /** `categories.flatMap(category => category.questions.map(...))`. */
  function AllQuestions(cats: seq<Category>): seq<FlatQuestion> {
    if |cats| == 0 then [] else Tagged(cats[0]) + AllQuestions(cats[1..])
  }

  function QuestionCount(cats: seq<Category>): nat {
    if |cats| == 0 then 0 else |cats[0].questions| + QuestionCount(cats[1..])
  }

  /** Position in the flattened list of the first question of category `c`. */
  function Offset(cats: seq<Category>, c: nat): nat
    requires c <= |cats|
  {
    if c == 0 then 0 else |cats[0].questions| + Offset(cats[1..], c - 1)
  }

  /** The flattened list holds as many questions as all categories together. */
  lemma {:induction false} AllQuestionsLength(cats: seq<Category>)
    ensures |AllQuestions(cats)| == QuestionCount(cats) == Offset(cats, |cats|)
  {
    if |cats| > 0 {
      AllQuestionsLength(cats[1..]);
    }
  }

  /** Category `c`'s questions occupy positions Offset(c) .. Offset(c+1)-1, in catalog order. */
  lemma {:induction false} AllQuestionsAt(cats: seq<Category>, c: nat, j: nat)
    requires c < |cats| && j < |cats[c].questions|
    ensures Offset(cats, c + 1) == Offset(cats, c) + |cats[c].questions|
    ensures Offset(cats, c) + j < |AllQuestions(cats)|
    ensures AllQuestions(cats)[Offset(cats, c) + j] == FlatQuestion(cats[c].questions[j], cats[c].name, cats[c].id)
  {
    AllQuestionsLength(cats);
    if c > 0 {
      AllQuestionsAt(cats[1..], c - 1, j);
      AllQuestionsLength(cats[1..]);
    }
  }

  // ---------------------------------------------------------------- progress

  /** The progress bar value `(cursor + 1) / total * 100`. */
  function ProgressOf(cursor: nat, total: nat): (p: real)
    requires cursor < total
    ensures 0.0 < p <= 100.0
    ensures p == 100.0 <==> cursor == total - 1
  {
    var num, den := (cursor + 1) as real, total as real;
    FractionOfWhole(num, den);
    var f := num / den;
    f * 100.0
  }

  // ---------------------------------------------------------------- scoring

  predicate HasQuestions(cats: seq<Category>) {
    forall i :: 0 <= i < |cats| ==> |cats[i].questions| >= 1
  }

  /** Answers are what the radio group writes: decimal digit strings (or empty). */
  predicate WellFormedAnswers(a: Answers) {
    forall k :: k in a ==> AllDigits(a[k])
  }

  /** `answer ? parseInt(answer) : 0`: a missing or empty answer counts as 0. */
  function AnswerValue(a: Answers, qid: string): nat
    requires WellFormedAnswers(a)
  {
    if qid in a && a[qid] != "" then ParseDigits(a[qid]) else 0
  }

  function AnswerValues(qs: seq<Question>, a: Answers): (vs: seq<nat>)
    requires WellFormedAnswers(a)
  {
    seq(|qs|, j requires 0 <= j < |qs| => AnswerValue(a, qs[j].id))
  }

  function Sum(xs: seq<nat>): nat {
    if |xs| == 0 then 0 else Sum(xs[..|xs| - 1]) + xs[|xs| - 1]
  }

  /** The mean of a category's answer values. */
  function CategoryScore(c: Category, a: Answers): real
    requires |c.questions| >= 1
    requires WellFormedAnswers(a)
  {
    Sum(AnswerValues(c.questions, a)) as real / |c.questions| as real
  }

  /** What `calculateScores` builds: `scores[category.id] = average` for each category in order. */
  function ScoresOf(cats: seq<Category>, a: Answers): Entries
    requires HasQuestions(cats)
    requires WellFormedAnswers(a)
  {
    if |cats| == 0 then []
    else
      var last := cats[|cats| - 1];
      Put(ScoresOf(cats[..|cats| - 1], a), last.id, CategoryScore(last, a))
  }

  /** One entry per category, in catalog order: its id and its mean. */
  function CategoryMeans(cats: seq<Category>, a: Answers): (es: Entries)
    requires HasQuestions(cats)
    requires WellFormedAnswers(a)
    ensures |es| == |cats|
    ensures forall i :: 0 <= i < |cats| ==> es[i] == (cats[i].id, CategoryScore(cats[i], a))
  {
    seq(|cats|, i requires 0 <= i < |cats| => (cats[i].id, CategoryScore(cats[i], a)))
  }

  lemma CategoryMeansSnoc(cats: seq<Category>, a: Answers)
    requires |cats| > 0 && HasQuestions(cats)
    requires WellFormedAnswers(a)
    ensures CategoryMeans(cats, a) == CategoryMeans(cats[..|cats| - 1], a)
      + [(cats[|cats| - 1].id, CategoryScore(cats[|cats| - 1], a))]
  {
    var n := |cats| - 1;
    var prefix := cats[..n];
    var r := CategoryMeans(prefix, a) + [(cats[n].id, CategoryScore(cats[n], a))];
    forall i | 0 <= i < |cats| ensures CategoryMeans(cats, a)[i] == r[i] {
      if i < n {
        assert prefix[i] == cats[i];
      }
    }
  }

  /** With distinct ids, the last category's id is not among the earlier categories' entries. */
  lemma LastIdFresh(cats: seq<Category>, a: Answers)
    requires |cats| > 0 && HasQuestions(cats)
    requires WellFormedAnswers(a)
    requires DistinctCategoryIds(cats)
    ensures cats[|cats| - 1].id !in Keys(CategoryMeans(cats[..|cats| - 1], a))
  {
    var n := |cats| - 1;
    var ks := Keys(CategoryMeans(cats[..n], a));
    forall i | 0 <= i < n ensures ks[i] != cats[n].id {
      assert ks[i] == cats[i].id;
    }
  }

  /** With distinct category ids, the scores hold exactly one entry per category, in catalog order, each the category's mean. */
  lemma {:induction false} ScoresAreCategoryMeans(cats: seq<Category>, a: Answers)
    requires HasQuestions(cats)
    requires WellFormedAnswers(a)
    requires DistinctCategoryIds(cats)
    ensures ScoresOf(cats, a) == CategoryMeans(cats, a)
  {
    if |cats| > 0 {
      var n := |cats| - 1;
      var prefix := cats[..n];
      var last := cats[n];
      var before := ScoresOf(prefix, a);
      ScoresAreCategoryMeans(prefix, a);
      LastIdFresh(cats, a);
      calc {
        ScoresOf(cats, a);
        Put(before, last.id, CategoryScore(last, a));
        { PutFresh(before, last.id, CategoryScore(last, a)); }
        before + [(last.id, CategoryScore(last, a))];
        CategoryMeans(prefix, a) + [(last.id, CategoryScore(last, a))];
        { CategoryMeansSnoc(cats, a); }
        CategoryMeans(cats, a);
      }
    }
  }

  lemma {:induction false} SumBounds(xs: seq<nat>, lo: nat, hi: nat)
    requires forall k :: 0 <= k < |xs| ==> lo <= xs[k] <= hi
    ensures lo * |xs| <= Sum(xs) <= hi * |xs|
  {
    if |xs| > 0 {
      var n := |xs| - 1;
      SumBounds(xs[..n], lo, hi);
      assert lo * |xs| == lo * n + lo;
      assert hi * |xs| == hi * n + hi;
    }
  }

  /** A mean of values in [lo, hi] lies in [lo, hi]. */
  lemma CategoryScoreBounds(c: Category, a: Answers, lo: nat, hi: nat)
    requires |c.questions| >= 1
    requires WellFormedAnswers(a)
    requires forall j :: 0 <= j < |c.questions| ==> lo <= AnswerValue(a, c.questions[j].id) <= hi
    ensures lo as real <= CategoryScore(c, a) <= hi as real
  {
    var vs := AnswerValues(c.questions, a);
    assert forall k :: 0 <= k < |vs| ==> lo <= vs[k] <= hi;
    SumBounds(vs, lo, hi);
    NatMeanBounds(Sum(vs), |vs|, lo, hi);
  }

  lemma NatMeanBounds(total: nat, n: nat, lo: nat, hi: nat)
    requires n > 0 && lo * n <= total <= hi * n
    ensures lo as real <= total as real / n as real <= hi as real
  {
    var t, m, l, h := total as real, n as real, lo as real, hi as real;
    CastProduct(lo, n);
    CastProduct(hi, n);
    MeanBounds(t, m, l, h);
  }

  /** Zero-fill: with every given answer at most 5, every category score lies in [0, 5]. */
  lemma ScoresWithinZeroFive(cats: seq<Category>, a: Answers)
    requires HasQuestions(cats)
    requires WellFormedAnswers(a)
    requires forall k :: k in a && a[k] != "" ==> ParseDigits(a[k]) <= 5
    ensures forall i :: 0 <= i < |cats| ==> 0.0 <= CategoryScore(cats[i], a) <= 5.0
  {
    forall i | 0 <= i < |cats| ensures 0.0 <= CategoryScore(cats[i], a) <= 5.0 {
      CategoryScoreBounds(cats[i], a, 0, 5);
    }
  }

  /** When every question is answered with one of the options 1..5, every category score lies in [1, 5]. */
  lemma ScoresWithinOneFive(cats: seq<Category>, a: Answers)
    requires HasQuestions(cats)
    requires WellFormedAnswers(a)
    requires forall i, j :: 0 <= i < |cats| && 0 <= j < |cats[i].questions| ==>
      1 <= AnswerValue(a, cats[i].questions[j].id) <= 5
    ensures forall i :: 0 <= i < |cats| ==> 1.0 <= CategoryScore(cats[i], a) <= 5.0
  {
    forall i | 0 <= i < |cats| ensures 1.0 <= CategoryScore(cats[i], a) <= 5.0 {
      CategoryScoreBounds(cats[i], a, 1, 5);
    }
  }

  /**
   * `answer ? parseInt(answer) : 0`: an unanswered question weighs in its
   * category's mean exactly like an answer of 0.
   */
  lemma UnansweredCountsAsZero(c: Category, a: Answers, qid: string)
    requires |c.questions| >= 1
    requires WellFormedAnswers(a)
    requires qid !in a
    ensures WellFormedAnswers(a[qid := "0"])
    ensures CategoryScore(c, a) == CategoryScore(c, a[qid := "0"])
  {
    var b := a[qid := "0"];
    assert ParseDigits("0") == 0 by {
      assert "0"[..0] == "";
    }
    assert AnswerValues(c.questions, a) == AnswerValues(c.questions, b);
  }

  // ---------------------------------------------------------------- the page state

  class Questionnaire {
    const categories: seq<Category>
    const questions: seq<FlatQuestion>
    /** `currentQuestion`: index into `questions`. */
    var current: nat
    var answers: Answers

    ghost predicate Valid()
      reads this
    {
      && HasQuestions(categories)
      && questions == AllQuestions(categories)
      && current < |questions|
      && WellFormedAnswers(answers)
    }

    /** The page opens on the first question with no answers. */
    constructor(cats: seq<Category>)
      requires |cats| >= 1 && HasQuestions(cats)
      ensures Valid()
      ensures categories == cats && current == 0 && answers == map[]
    {
      categories := cats;
      questions := AllQuestions(cats);
      current := 0;
      answers := map[];
      new;
      AllQuestionsLength(cats);
      AllQuestionsAt(cats, 0, 0);
    }

    function CurrentId(): string
      reads this
      requires Valid()
    {
      questions[current].question.id
    }

    /** The progress bar: in (0, 100], and 100 exactly at the last question. */
    function Progress(): (p: real)
      reads this
      requires Valid()
      ensures 0.0 < p <= 100.0
      ensures p == 100.0 <==> current == |questions| - 1
    {
      ProgressOf(current, |questions|)
    }

    /** `canProceed`: the current question has a (non-empty) answer. */
    predicate CanProceed()
      reads this
      requires Valid()
    {
      CurrentId() in answers && answers[CurrentId()] != ""
    }

    /** Records `value.toString()` for the current question, overwriting any earlier answer. */
    method HandleAnswer(value: nat)
      requires Valid()
      modifies this`answers
      ensures Valid()
      ensures answers == old(answers)[CurrentId() := NatToString(value)]
      ensures CanProceed() && AnswerValue(answers, CurrentId()) == value
    {
      answers := answers[CurrentId() := NatToString(value)];
      ParseNatToString(value);
    }

    /** Advances below the last question; at the last one, scores the answers and hands them to the result page. */
    method HandleNext() returns (nav: Option<ResultState>)
      requires Valid()
      modifies this`current
      ensures Valid()
      ensures old(current) < |questions| - 1 ==> current == old(current) + 1 && nav == None
      ensures old(current) == |questions| - 1 ==>
        current == old(current) && nav == Some(ResultState(ScoresOf(categories, answers), answers))
    {
      if current < |questions| - 1 {
        current := current + 1;
        nav := None;
      } else {
        var scores := CalculateScores();
        nav := Some(ResultState(scores, answers));
      }
    }

    /** Steps back one question; does nothing at the first. */
    method HandlePrevious()
      requires Valid()
      modifies this`current
      ensures Valid()
      ensures current == if old(current) > 0 then old(current) - 1 else 0
    {
      if current > 0 {
        current := current - 1;
      }
    }

    /** `calculateScores`: one entry per category, written in catalog order. */
    method CalculateScores() returns (scores: Entries)
      requires Valid()
      ensures scores == ScoresOf(categories, answers)
    {
      scores := [];
      var i := 0;
      while i < |categories|
        invariant 0 <= i <= |categories|
        invariant HasQuestions(categories[..i])
        invariant scores == ScoresOf(categories[..i], answers)
      {
        var category := categories[i];
        var categoryAnswers := AnswerValues(category.questions, answers);
        var averageScore := Sum(categoryAnswers) as real / |categoryAnswers| as real;
        assert averageScore == CategoryScore(category, answers);
        scores := Put(scores, category.id, averageScore);
        ghost var next := categories[..i + 1];
        assert next[..i] == categories[..i] && next[i] == category;
        assert HasQuestions(next);
        i := i + 1;
      }
      assert categories[..i] == categories;
    }
  }

  /** When every category holds one question, there are as many questions as categories. */
  lemma {:induction false} OneQuestionEach(cats: seq<Category>)
    requires forall i :: 0 <= i < |cats| ==> |cats[i].questions| == 1
    ensures HasQuestions(cats)
    ensures QuestionCount(cats) == |cats|
  {
    if |cats| > 0 {
      OneQuestionEach(cats[1..]);
    }
  }

  /** The shipped catalog yields ten questions and one score per category. */
  lemma CatalogQuestionCount()
    ensures HasQuestions(Categories)
    ensures QuestionCount(Categories) == 10
  {
    CategoriesShape();
    OneQuestionEach(Categories);
  }
}
