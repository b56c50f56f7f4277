/**
 * The report PDF: the radar drawn with guide circles, numbered axes and a
 * closed polygon through the data points, the analysis table with its
 * striped rows and score bars, one card per recommendation, on exactly four
 * pages. Positions that come from `cos`/`sin` are not modelled: an axis is
 * kept as its index (the fraction index/n of a full turn) and a data point as
 * its axis and its distance from the centre.
 */
module PdfGenerator {
  import opened Text
  import opened Records
  import opened MaturityData
  import opened Resultado

  /** What the generator draws, one entry per drawn element. */
  datatype Op =
    | Cover(levelId: int, levelName: string, description: string)
    | GuideCircle(level: int, radius: real, labelled: bool)
    | Axis(index: nat, caption: string)
    | Edge(from: nat, to: nat)
    | Dot(index: nat, distance: real)
    | AnalysisRow(number: nat, y: real, striped: bool, name: string, score: real, barWidth: real)
    | ImpactBox(salesEfficiency: real, revenueIncrease: string)
    | RecommendationCard(number: nat, y: real, category: string, score: real, suggestion: string)
    | CallToAction

  /** The jsPDF document: the finished pages and the page being drawn on. */
  class PdfDoc {
    var done: seq<seq<Op>>
    var current: seq<Op>

    /** `new jsPDF()` opens with one empty page. */
    constructor()
      ensures done == [] && current == []
    {
      done := [];
      current := [];
    }

    function Pages(): seq<seq<Op>>
      reads this
    {
      done + [current]
    }

    method AddPage()
      modifies this
      ensures done == old(done) + [old(current)] && current == []
    {
      done := done + [current];
      current := [];
    }

    method Draw(op: Op)
      modifies this
      ensures done == old(done) && current == old(current) + [op]
    {
      current := current + [op];
    }
  }

  // ---------------------------------------------------------------- radar

  /** A data point of the radar: the category's name, its score and its distance from the centre. */
  datatype DataPoint = DataPoint(name: string, score: real, distance: real)

  /** `(radius * value) / 5`, for guide circles and data points alike. */
  function Scaled(radius: real, value: real): real {
    (radius * value) / 5.0
  }

  /** The five guide circles, level 1 to 5, only the outermost labelled. */
  function GuideCircles(radius: real): (ops: seq<Op>)
    ensures |ops| == 5
  {
    seq(5, k requires 0 <= k < 5 => GuideCircle(k + 1, Scaled(radius, (k + 1) as real), k + 1 == 5))
  }

  /** One axis per category, labelled with its 1-based number. */
  function Axes(n: nat): (ops: seq<Op>)
    ensures |ops| == n
  {
    seq(n, i requires 0 <= i < n => Axis(i, NatToString(i + 1)))
  }

  /** The points pushed while drawing the axes, a missing score counting as 0. */
  function RadarPoints(scores: Entries, cats: seq<Category>, radius: real): (points: seq<DataPoint>)
    ensures |points| == |cats|
  {
    seq(|cats|, i requires 0 <= i < |cats| =>
      DataPoint(cats[i].name, GetOrZero(scores, cats[i].id), Scaled(radius, GetOrZero(scores, cats[i].id))))
  }

  /** The polygon: point `i` joined to point `(i + 1) % n`. */
  function Edges(n: nat): (ops: seq<Op>)
    ensures |ops| == n
  {
    seq(n, i requires 0 <= i < n => Edge(i, (i + 1) % n))
  }

  function Dots(points: seq<DataPoint>): (ops: seq<Op>)
    ensures |ops| == |points|
  {
    seq(|points|, i requires 0 <= i < |points| => Dot(i, points[i].distance))
  }

  /** Everything `drawRadarChart` draws, in drawing order. */
  function RadarOps(scores: Entries, cats: seq<Category>, radius: real): seq<Op> {
    GuideCircles(radius) + Axes(|cats|) + Edges(|cats|) + Dots(RadarPoints(scores, cats, radius))
  }

  /** The concentric circles of `drawRadarChart`, levels 1 to 5. */
  method DrawGuideCircles(doc: PdfDoc, radius: real)
    modifies doc
    ensures doc.done == old(doc.done)
    ensures doc.current == old(doc.current) + GuideCircles(radius)
  {
    var level := 1;
    while level <= 5
      invariant 1 <= level <= 6
      invariant doc.done == old(doc.done)
      invariant doc.current == old(doc.current) + GuideCircles(radius)[..level - 1]
    {
      doc.Draw(GuideCircle(level, Scaled(radius, level as real), level == 5));
      assert GuideCircles(radius)[..level] == GuideCircles(radius)[..level - 1] + [GuideCircles(radius)[level - 1]];
      level := level + 1;
    }
    assert GuideCircles(radius)[..5] == GuideCircles(radius);
  }

  /** The `categories.forEach` of `drawRadarChart`: one numbered axis per category, pushing its data point. */
  method DrawAxes(doc: PdfDoc, scores: Entries, cats: seq<Category>, radius: real) returns (points: seq<DataPoint>)
    modifies doc
    ensures doc.done == old(doc.done)
    ensures doc.current == old(doc.current) + Axes(|cats|)
    ensures points == RadarPoints(scores, cats, radius)
  {
    points := [];
    var index := 0;
    while index < |cats|
      invariant 0 <= index <= |cats|
      invariant doc.done == old(doc.done)
      invariant doc.current == old(doc.current) + Axes(|cats|)[..index]
      invariant points == RadarPoints(scores, cats, radius)[..index]
    {
      doc.Draw(Axis(index, NatToString(index + 1)));
      var score := GetOrZero(scores, cats[index].id);
      points := points + [DataPoint(cats[index].name, score, Scaled(radius, score))];
      assert Axes(|cats|)[..index + 1] == Axes(|cats|)[..index] + [Axes(|cats|)[index]];
      assert RadarPoints(scores, cats, radius)[..index + 1]
        == RadarPoints(scores, cats, radius)[..index] + [RadarPoints(scores, cats, radius)[index]];
      index := index + 1;
    }
    assert Axes(|cats|)[..index] == Axes(|cats|);
    assert RadarPoints(scores, cats, radius)[..index] == RadarPoints(scores, cats, radius);
  }

  /** The closing polygon of `drawRadarChart` and its dots, drawn only when there are points. */
  method DrawPolygon(doc: PdfDoc, points: seq<DataPoint>)
    modifies doc
    ensures doc.done == old(doc.done)
    ensures doc.current == old(doc.current) + Edges(|points|) + Dots(points)
  {
    if |points| > 0 {
      var i := 0;
      while i < |points|
        invariant 0 <= i <= |points|
        invariant doc.done == old(doc.done)
        invariant doc.current == old(doc.current) + Edges(|points|)[..i]
      {
        doc.Draw(Edge(i, (i + 1) % |points|));
        assert Edges(|points|)[..i + 1] == Edges(|points|)[..i] + [Edges(|points|)[i]];
        i := i + 1;
      }
      assert Edges(|points|)[..i] == Edges(|points|);
      var start := doc.current;
      i := 0;
      while i < |points|
        invariant 0 <= i <= |points|
        invariant doc.done == old(doc.done)
        invariant doc.current == start + Dots(points)[..i]
      {
        doc.Draw(Dot(i, points[i].distance));
        assert Dots(points)[..i + 1] == Dots(points)[..i] + [Dots(points)[i]];
        i := i + 1;
      }
      assert Dots(points)[..i] == Dots(points);
    } else {
      assert Edges(0) + Dots(points) == [];
    }
  }

  /** `drawRadarChart`, drawing onto the current page. */
  method DrawRadarChart(doc: PdfDoc, scores: Entries, cats: seq<Category>, radius: real)
    modifies doc
    ensures doc.done == old(doc.done)
    ensures doc.current == old(doc.current) + RadarOps(scores, cats, radius)
  {
    DrawGuideCircles(doc, radius);
    var points := DrawAxes(doc, scores, cats, radius);
    DrawPolygon(doc, points);
  }

  /** Circle `level` has radius `radius * level / 5`; the outermost is the full radius and the only labelled one. */
  lemma GuideCircleRadii(radius: real)
    ensures forall k :: 0 <= k < 5 ==> GuideCircles(radius)[k].radius * 5.0 == radius * GuideCircles(radius)[k].level as real
    ensures GuideCircles(radius)[4].radius == radius && GuideCircles(radius)[4].level == 5
    ensures forall k :: 0 <= k < 5 ==> (GuideCircles(radius)[k].labelled <==> k == 4)
    ensures radius > 0.0 ==> forall k :: 0 <= k < 4 ==> GuideCircles(radius)[k].radius < GuideCircles(radius)[k + 1].radius
  {
  }

  /** A missing score sits at the centre, and a score in [0, 5] stays within the outer guide circle. */
  lemma PointWithinOuterCircle(scores: Entries, cats: seq<Category>, radius: real, i: nat)
    requires i < |cats| && radius >= 0.0
    requires forall k :: 0 <= k < |scores| ==> 0.0 <= scores[k].1 <= 5.0
    ensures cats[i].id !in Keys(scores) ==> RadarPoints(scores, cats, radius)[i].distance == 0.0
    ensures 0.0 <= RadarPoints(scores, cats, radius)[i].distance <= GuideCircles(radius)[4].radius
  {
    var s := GetOrZero(scores, cats[i].id);
    assert 0.0 <= s <= 5.0;
    assert radius * s <= radius * 5.0;
  }

  /** The point reached from point 0 after following `k` polygon edges. */
  function Walk(n: nat, k: nat): (p: nat)
    requires n > 0
    ensures p < n
  {
    if k == 0 then 0 else Edges(n)[Walk(n, k - 1)].to
  }

  /** Edge `j` leads to the next point, and the last edge back to point 0. */
  lemma EdgeTarget(n: nat, j: nat)
    requires j < n
    ensures Edges(n)[j].to == if j + 1 < n then j + 1 else 0
  {
    assert Edges(n)[j] == Edge(j, (j + 1) % n);
    if j + 1 == n {
      assert (j + 1) % n == 0;
    }
  }

  /**
   * The edges form one closed cycle through all the points: following them
   * from point 0 visits points 0, 1, ..., n - 1 in turn and returns to 0
   * after exactly n edges. With no points there are no edges.
   */
  lemma {:induction false} EdgesCloseThePolygon(n: nat, k: nat)
    requires n > 0 && k <= n
    ensures k < n ==> Walk(n, k) == k
    ensures k == n ==> Walk(n, k) == 0
    ensures Edges(0) == []
  {
    if k > 0 {
      EdgesCloseThePolygon(n, k - 1);
      assert Walk(n, k) == Edges(n)[k - 1].to;
      EdgeTarget(n, k - 1);
    }
  }

  // ---------------------------------------------------------------- analysis table

  /** `name.length > 16 ? name.substring(0, 16) + '...' : name`. */
  function TruncateName(name: string): (r: string)
    ensures |r| <= 19
    ensures |name| > 16 ==> |r| == 19 && r[..16] == name[..16] && r[16..] == "..."
    ensures |name| <= 16 ==> r == name
  {
    if |name| > 16 then name[..16] + "..." else name
  }

  /** Truncating a truncated name changes nothing. */
  lemma TruncateNameIdempotent(name: string)
    ensures TruncateName(TruncateName(name)) == TruncateName(name)
  {
    if |name| > 16 {
      var r := TruncateName(name);
      assert r[..16] + "..." == r;
    }
  }

  /** `(20 * score) / 5`, the filled part of a 20-wide bar. */
  function BarWidth(score: real): real {
    (20.0 * score) / 5.0
  }

  /** A score in [0, 5] fills between none and all of the bar, all of it exactly at 5. */
  lemma BarWidthBounds(score: real)
    requires 0.0 <= score <= 5.0
    ensures 0.0 <= BarWidth(score) <= 20.0
    ensures BarWidth(score) == 20.0 <==> score == 5.0
  {
  }

  /** The row of category `k` starts at `currentY = 50` and moves down 11 per row. */
  function RowY(k: nat): real {
    50.0 + 11.0 * k as real
  }

  /** The analysis table, one row per category in catalog order. */
  function AnalysisRows(scores: Entries, cats: seq<Category>): (rows: seq<Op>)
    ensures |rows| == |cats|
  {
    seq(|cats|, k requires 0 <= k < |cats| =>
      AnalysisRow(k + 1, RowY(k), k % 2 == 0, TruncateName(cats[k].name),
        GetOrZero(scores, cats[k].id), BarWidth(GetOrZero(scores, cats[k].id))))
  }

  /**
   * The number on each radar axis is the number of the table row for the
   * same category, and row k's background stripe (from y - 6, 10 high) ends
   * before row k + 1's text line.
   */
  lemma AxesMatchRows(scores: Entries, cats: seq<Category>, k: nat)
    requires k < |cats|
    ensures ParseDigits(Axes(|cats|)[k].caption) == AnalysisRows(scores, cats)[k].number
    ensures AnalysisRows(scores, cats)[k].striped <==> k % 2 == 0
    ensures k + 1 < |cats| ==> AnalysisRows(scores, cats)[k].y - 6.0 + 10.0 < AnalysisRows(scores, cats)[k + 1].y
  {
    ParseNatToString(k + 1);
  }

  // ---------------------------------------------------------------- recommendations

  /** Card `k` starts at `currentY = 45` and moves down 50 per card. */
  function CardY(k: nat): real {
    45.0 + 50.0 * k as real
  }

  function RecommendationCards(recs: seq<Recommendation>): (cards: seq<Op>)
    ensures |cards| == |recs|
  {
    seq(|recs|, k requires 0 <= k < |recs| =>
      RecommendationCard(k + 1, CardY(k), recs[k].category, recs[k].currentScore, recs[k].suggestion))
  }

  /** Cards are 40 high and 50 apart, so no two cards overlap. */
  lemma CardsDisjoint(recs: seq<Recommendation>, k: nat, j: nat)
    requires k < j < |recs|
    ensures RecommendationCards(recs)[k].y + 40.0 < RecommendationCards(recs)[j].y
  {
  }

  // ---------------------------------------------------------------- the report

  /** The radar's radius on page 2. */
  const RadarRadius: real := 30.0

  /** The four pages of the report, in order. */
  function ReportPages(scores: Entries, level: Level, cats: seq<Category>, recs: seq<Recommendation>): (pages: seq<seq<Op>>)
    ensures |pages| == 4
  {
    [[Cover(level.id, level.name, level.description)],
     RadarOps(scores, cats, RadarRadius) + AnalysisRows(scores, cats) + [ImpactBox(level.salesEfficiency, level.revenueIncrease)],
     RecommendationCards(recs),
     [CallToAction]]
  }

  /** The `categories.forEach` of page 2: one analysis row per category, `currentY` moving down 11 each time. */
  method DrawAnalysisRows(doc: PdfDoc, scores: Entries, cats: seq<Category>)
    modifies doc
    ensures doc.done == old(doc.done)
    ensures doc.current == old(doc.current) + AnalysisRows(scores, cats)
  {
    var currentY: real := 50.0;
    var index := 0;
    while index < |cats|
      invariant 0 <= index <= |cats|
      invariant currentY == RowY(index)
      invariant doc.done == old(doc.done)
      invariant doc.current == old(doc.current) + AnalysisRows(scores, cats)[..index]
    {
      var score := GetOrZero(scores, cats[index].id);
      doc.Draw(AnalysisRow(index + 1, currentY, index % 2 == 0, TruncateName(cats[index].name), score, BarWidth(score)));
      assert AnalysisRows(scores, cats)[..index + 1]
        == AnalysisRows(scores, cats)[..index] + [AnalysisRows(scores, cats)[index]];
      currentY := currentY + 11.0;
      index := index + 1;
    }
    assert AnalysisRows(scores, cats)[..index] == AnalysisRows(scores, cats);
  }

  /** The `recommendations.forEach` of page 3: one card per recommendation, `currentY` moving down 50 each time. */
  method DrawRecommendationCards(doc: PdfDoc, recs: seq<Recommendation>)
    modifies doc
    ensures doc.done == old(doc.done)
    ensures doc.current == old(doc.current) + RecommendationCards(recs)
  {
    var currentY: real := 45.0;
    var index := 0;
    while index < |recs|
      invariant 0 <= index <= |recs|
      invariant currentY == CardY(index)
      invariant doc.done == old(doc.done)
      invariant doc.current == old(doc.current) + RecommendationCards(recs)[..index]
    {
      doc.Draw(RecommendationCard(index + 1, currentY, recs[index].category, recs[index].currentScore, recs[index].suggestion));
      assert RecommendationCards(recs)[..index + 1] == RecommendationCards(recs)[..index] + [RecommendationCards(recs)[index]];
      currentY := currentY + 50.0;
      index := index + 1;
    }
    assert RecommendationCards(recs)[..index] == RecommendationCards(recs);
  }

  /** `generateMaturityReport`. */
  method GenerateMaturityReport(scores: Entries, level: Level, cats: seq<Category>, recs: seq<Recommendation>)
    returns (doc: PdfDoc)
    ensures fresh(doc)
    ensures doc.Pages() == ReportPages(scores, level, cats, recs)
  {
    doc := new PdfDoc();
    var cover := [Cover(level.id, level.name, level.description)];
    doc.Draw(cover[0]);
    assert doc.current == cover;

    doc.AddPage();
    assert doc.done == [cover];
    DrawRadarChart(doc, scores, cats, RadarRadius);
    DrawAnalysisRows(doc, scores, cats);
    doc.Draw(ImpactBox(level.salesEfficiency, level.revenueIncrease));
    var analysis := doc.current;
    assert analysis == RadarOps(scores, cats, RadarRadius) + AnalysisRows(scores, cats)
      + [ImpactBox(level.salesEfficiency, level.revenueIncrease)];

    doc.AddPage();
    assert doc.done == [cover, analysis];
    DrawRecommendationCards(doc, recs);
    var cards := doc.current;
    assert cards == RecommendationCards(recs);

    doc.AddPage();
    doc.Draw(CallToAction);
    assert doc.done == [cover, analysis, cards] && doc.current == [CallToAction];
  }

  /** The report always has four pages, whatever the scores and recommendations. */
  lemma FourPages(scores: Entries, level: Level, cats: seq<Category>, recs: seq<Recommendation>)
    ensures |ReportPages(scores, level, cats, recs)| == 4
    ensures |ReportPages(scores, level, cats, recs)[2]| == |recs|
    ensures |ReportPages(scores, level, cats, recs)[1]| == 5 + 4 * |cats| + 1
  {
  }
}
