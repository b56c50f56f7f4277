/**
 * The data behind the radar chart: one point per category, labelled with the
 * first two words of the category's name, scored from the score record.
 */
module MaturityRadar {
  import opened Wrappers
  import opened Text
  import opened Records
  import opened MaturityData

  /** Every point's full mark, and the upper end of the radius axis `[0, 5]`. */
  const FullMark: int := 5
  const DomainLow: int := 0

  datatype RadarPoint = RadarPoint(category: string, score: real, fullMark: int)

  /** `name.split(' ').slice(0, 2).join(' ')`. */
  function ShortLabel(name: string): string {
    Join(Take(Split(name, ' '), 2), ' ')
  }

  /** The chart data: `categories.map(...)` with `scores[category.id] || 0`. */
  function RadarData(scores: Entries, cats: seq<Category>): (points: seq<RadarPoint>)
    ensures |points| == |cats|
    ensures forall i :: 0 <= i < |cats| ==> points[i].category == ShortLabel(cats[i].name) && points[i].fullMark == FullMark
  {
    seq(|cats|, i requires 0 <= i < |cats| => RadarPoint(ShortLabel(cats[i].name), GetOrZero(scores, cats[i].id), FullMark))
  }

  /** A category's point carries its recorded score, or 0 when the record lacks it. */
  lemma RadarScores(scores: Entries, cats: seq<Category>, i: nat)
    requires i < |cats|
    ensures cats[i].id !in Keys(scores) ==> RadarData(scores, cats)[i].score == 0.0
    ensures cats[i].id in Keys(scores) ==>
      exists k :: 0 <= k < |scores| && scores[k] == (cats[i].id, RadarData(scores, cats)[i].score)
  {
  }

  /** With scores in [0, 5], every point lies inside the radius axis' domain. */
  lemma RadarWithinDomain(scores: Entries, cats: seq<Category>)
    requires forall k :: 0 <= k < |scores| ==> 0.0 <= scores[k].1 <= 5.0
    ensures forall i :: 0 <= i < |cats| ==>
      DomainLow as real <= RadarData(scores, cats)[i].score <= RadarData(scores, cats)[i].fullMark as real
  {
    forall i | 0 <= i < |cats|
      ensures DomainLow as real <= RadarData(scores, cats)[i].score <= FullMark as real
    {
      RadarScores(scores, cats, i);
    }
  }

  /** The short label is a prefix of the name. */
  lemma ShortLabelIsPrefix(name: string)
    ensures IsPrefix(ShortLabel(name), name)
  {
    var parts := Split(name, ' ');
    var taken := Take(parts, 2);
    assert taken == parts[..|taken|];
    JoinPrefix(parts, |taken|, ' ');
    JoinSplit(name, ' ');
  }

  /** A name of at most two words is its own label. */
  lemma ShortLabelKeepsShortNames(name: string)
    requires |Split(name, ' ')| <= 2
    ensures ShortLabel(name) == name
  {
    JoinSplit(name, ' ');
  }

  /** The label has at most two words, and shortening it again changes nothing. */
  lemma ShortLabelIdempotent(name: string)
    ensures |Split(ShortLabel(name), ' ')| <= 2
    ensures ShortLabel(ShortLabel(name)) == ShortLabel(name)
  {
    var taken := Take(Split(name, ' '), 2);
    SplitJoin(taken, ' ');
    ShortLabelKeepsShortNames(ShortLabel(name));
  }
}
