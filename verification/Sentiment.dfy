/**
 The overall sentiment of a video: the mean of its segment scores, weighted by duration,
 rounded to three decimals, and labelled by thresholds.
 */
module Sentiment {
  import opened Wrappers
  import opened RealFacts
  import Rounding

  datatype Segment = Segment(id: int, start: real, end: real)

  /** One reply entry of the model; absent fields are None. */
  datatype Scored = Scored(id: int, score: Option<real>, mood: Option<string>)

  datatype Point = Point(start: real, end: real, score: real, mood: string)

  function AggregateLabel(score: real): string {
    if score > 0.2 then "positive" else if score < -0.2 then "negative" else "neutral"
  }

  /** The last entry of the reply with that id. */
  function LastWithId(scored: seq<Scored>, id: int): Option<Scored> {
    if scored == [] then None
    else if scored[|scored| - 1].id == id then Some(scored[|scored| - 1])
    else LastWithId(scored[..|scored| - 1], id)
  }

  /** A segment that the model did not score counts as zero. */
  function ScoreOf(scored: seq<Scored>, seg: Segment): real {
    var s := LastWithId(scored, seg.id);
    if s.Some? && s.value.score.Some? then s.value.score.value else 0.0
  }

  function LabelOf(scored: seq<Scored>, seg: Segment): string {
    var s := LastWithId(scored, seg.id);
    if s.Some? && s.value.mood.Some? && s.value.mood.value != "" then s.value.mood.value
    else AggregateLabel(ScoreOf(scored, seg))
  }

  function Weight(seg: Segment): (w: real)
    ensures w >= 0.0 && (w == 0.0 <==> seg.end <= seg.start)
    ensures seg.start <= seg.end ==> seg.start + w == seg.end
  {
    if seg.end - seg.start > 0.0 then seg.end - seg.start else 0.0
  }

  /** A segment's part in the mean. */
  datatype Term = Term(score: real, weight: real)

  function Terms(segments: seq<Segment>, scored: seq<Scored>): (r: seq<Term>)
    ensures |r| == |segments|
  {
    seq(|segments|, i requires 0 <= i < |segments| => Term(ScoreOf(scored, segments[i]), Weight(segments[i])))
  }

  function TotalWeight(terms: seq<Term>): real {
    if terms == [] then 0.0 else TotalWeight(terms[..|terms| - 1]) + terms[|terms| - 1].weight
  }

  function WeightedSum(terms: seq<Term>): real {
    if terms == [] then 0.0
    else WeightedSum(terms[..|terms| - 1]) + terms[|terms| - 1].score * terms[|terms| - 1].weight
  }

  function PointOf(seg: Segment, scored: seq<Scored>): Point {
    Point(seg.start, seg.end, ScoreOf(scored, seg), LabelOf(scored, seg))
  }

  function Timeline(segments: seq<Segment>, scored: seq<Scored>): (r: seq<Point>)
    ensures |r| == |segments|
  {
    seq(|segments|, i requires 0 <= i < |segments| => PointOf(segments[i], scored))
  }

  function Round3(x: real): real {
    Rounding.HalfEven(x * 1000.0) as real / 1000.0
  }

  function OverallScore(terms: seq<Term>): real {
    if TotalWeight(terms) > 0.0 then Round3(WeightedSum(terms) / TotalWeight(terms)) else 0.0
  }

  ghost predicate Indexes(byId: map<int, Scored>, scored: seq<Scored>) {
    forall id :: LastWithId(scored, id) == if id in byId then Some(byId[id]) else None
  }

  /** Index the reply by id; a later entry replaces an earlier one. */
  method IndexById(scored: seq<Scored>) returns (byId: map<int, Scored>)
    ensures Indexes(byId, scored)
  {
    byId := map[];
    for k := 0 to |scored|
      invariant Indexes(byId, scored[..k])
    {
      assert scored[..k + 1][..k] == scored[..k];
      byId := byId[scored[k].id := scored[k]];
    }
    assert scored[..|scored|] == scored;
  }

  method ScoreSegment(seg: Segment, byId: map<int, Scored>, ghost scored: seq<Scored>)
    returns (point: Point, duration: real)
    requires Indexes(byId, scored)
    ensures point == PointOf(seg, scored) && duration == Weight(seg)
  {
    assert LastWithId(scored, seg.id) == if seg.id in byId then Some(byId[seg.id]) else None;
    var entry := if seg.id in byId then byId[seg.id] else Scored(seg.id, None, None);
    var score := if entry.score.Some? then entry.score.value else 0.0;
    var mood := if entry.mood.Some? && entry.mood.value != "" then entry.mood.value else AggregateLabel(score);
    point := Point(seg.start, seg.end, score, mood);
    duration := if seg.end - seg.start > 0.0 then seg.end - seg.start else 0.0;
  }

  method Aggregate(segments: seq<Segment>, scored: seq<Scored>)
    returns (timeline: seq<Point>, overallScore: real, overallLabel: string)
    ensures timeline == Timeline(segments, scored)
    ensures overallScore == OverallScore(Terms(segments, scored))
    ensures overallLabel == AggregateLabel(overallScore)
  {
    var byId := IndexById(scored);
    timeline := [];
    var totalScore, totalDuration := 0.0, 0.0;
    ghost var terms := Terms(segments, scored);
    for k := 0 to |segments|
      invariant timeline == Timeline(segments, scored)[..k]
      invariant totalScore == WeightedSum(terms[..k]) && totalDuration == TotalWeight(terms[..k])
    {
      var point, duration := ScoreSegment(segments[k], byId, scored);
      timeline := timeline + [point];
      totalScore := totalScore + point.score * duration;
      totalDuration := totalDuration + duration;
      assert terms[..k + 1][..k] == terms[..k];
    }
    assert terms[..|segments|] == terms && Timeline(segments, scored)[..|segments|] == Timeline(segments, scored);
    overallScore := if totalDuration > 0.0 then Round3(totalScore / totalDuration) else 0.0;
    overallLabel := AggregateLabel(overallScore);
  }

  // ---------- The mean lies among the scores ----------

  /** Weights are not negative, and every score that carries weight lies between `lo` and `hi`. */
  predicate ScoresBetween(terms: seq<Term>, lo: real, hi: real) {
    forall i | 0 <= i < |terms| ::
      terms[i].weight >= 0.0 && (terms[i].weight > 0.0 ==> lo <= terms[i].score <= hi)
  }

  lemma OneMoreBetween(lo: real, hi: real, w: real, sum: real, score: real, dw: real)
    requires lo * w <= sum <= hi * w && dw >= 0.0 && (dw > 0.0 ==> lo <= score <= hi)
    ensures lo * (w + dw) <= sum + score * dw <= hi * (w + dw)
  {
    Distribute(lo, w, dw);
    Distribute(hi, w, dw);
    if dw > 0.0 {
      Scale(lo, score, dw);
      Scale(score, hi, dw);
    }
  }

  /** The two sums of a list, bounded term by term. */
  predicate Bounded(lo: real, hi: real, weight: real, sum: real) {
    lo * weight <= sum <= hi * weight
  }

  lemma BoundedOneMore(lo: real, hi: real, weight: real, sum: real, last: Term, weight': real, sum': real)
    requires Bounded(lo, hi, weight, sum) && last.weight >= 0.0 && (last.weight > 0.0 ==> lo <= last.score <= hi)
    requires weight' == weight + last.weight && sum' == sum + last.score * last.weight
    ensures Bounded(lo, hi, weight', sum')
  {
    OneMoreBetween(lo, hi, weight, sum, last.score, last.weight);
  }

  lemma {:induction false} SumBetween(terms: seq<Term>, lo: real, hi: real)
    requires ScoresBetween(terms, lo, hi)
    ensures Bounded(lo, hi, TotalWeight(terms), WeightedSum(terms))
    decreases |terms|
  {
    if terms != [] {
      var before, last := terms[..|terms| - 1], terms[|terms| - 1];
      SumBetween(before, lo, hi);
      BoundedOneMore(lo, hi, TotalWeight(before), WeightedSum(before), last, TotalWeight(terms), WeightedSum(terms));
    }
  }

  /** Before rounding, the mean lies between any bounds on the scores that carry weight,
      the smallest and the largest of them included. */
  lemma MeanBetweenScores(terms: seq<Term>, lo: real, hi: real)
    requires TotalWeight(terms) > 0.0 && ScoresBetween(terms, lo, hi)
    ensures lo <= WeightedSum(terms) / TotalWeight(terms) <= hi
  {
    SumBetween(terms, lo, hi);
    QuotientBetween(WeightedSum(terms), TotalWeight(terms), lo, hi);
  }

  lemma QuotientBetween(sum: real, w: real, lo: real, hi: real)
    requires w > 0.0 && lo * w <= sum <= hi * w
    ensures lo <= sum / w <= hi
  {
    var mean := sum / w;
    assert mean * w == sum;
    Scale(lo, mean, w);
    Scale(mean, hi, w);
  }

  /** Scores in [-1, 1] give a rounded overall score in [-1, 1], also when nothing weighs. */
  lemma OverallScoreInRange(segments: seq<Segment>, scored: seq<Scored>)
    requires forall s | s in scored && s.score.Some? :: -1.0 <= s.score.value <= 1.0
    ensures -1.0 <= OverallScore(Terms(segments, scored)) <= 1.0
  {
    var terms := Terms(segments, scored);
    forall i | 0 <= i < |segments|
      ensures -1.0 <= terms[i].score <= 1.0
    {
      LastIsThere(scored, segments[i].id);
    }
    if TotalWeight(terms) > 0.0 {
      MeanBetweenScores(terms, -1.0, 1.0);
      RoundedInRange(WeightedSum(terms) / TotalWeight(terms));
    }
  }

  lemma {:induction false} LastIsThere(scored: seq<Scored>, id: int)
    ensures LastWithId(scored, id).Some? ==> LastWithId(scored, id).value in scored
    decreases |scored|
  {
    if scored != [] { LastIsThere(scored[..|scored| - 1], id); }
  }

  lemma RoundedInRange(mean: real)
    requires -1.0 <= mean <= 1.0
    ensures -1.0 <= Round3(mean) <= 1.0
  {
    Rounding.Monotone(-1000.0, mean * 1000.0);
    Rounding.Monotone(mean * 1000.0, 1000.0);
    Rounding.OfInteger(-1000);
    Rounding.OfInteger(1000);
  }

  /** `y` is `n` thousandths, the nearest to `x`, with the even one of two as near. */
  predicate IsNearest(x: real, y: real, n: int) {
    && y == n as real / 1000.0
    && -0.5 <= x * 1000.0 - n as real <= 0.5
    && (x * 1000.0 - n as real == 0.5 || x * 1000.0 - n as real == -0.5 ==> n % 2 == 0)
  }

  /** Rounding keeps three decimals: a whole number of thousandths, the nearest one. */
  lemma RoundedIsNearest(mean: real)
    ensures exists n :: IsNearest(mean, Round3(mean), n)
  {
    var n := Rounding.HalfEven(mean * 1000.0);
    Rounding.NearestTiesToEven(mean * 1000.0, n);
    assert IsNearest(mean, Round3(mean), n);
  }

  /** The label follows the rounded score, so the mean itself has to pass 0.2005, not 0.2:
      up to there, ties included, rounding brings it back to the threshold. A segment's own
      score is labelled unrounded. */
  lemma LabelOfMean(mean: real)
    ensures AggregateLabel(Round3(mean)) == "positive" <==> mean > 0.2005
    ensures AggregateLabel(Round3(mean)) == "negative" <==> mean < -0.2005
    ensures AggregateLabel(mean) == "neutral" <==> -0.2 <= mean <= 0.2
  {
    Rounding.NearestTiesToEven(mean * 1000.0, Rounding.HalfEven(mean * 1000.0));
  }

  lemma {:induction false} SumsAppend(a: seq<Term>, b: seq<Term>)
    ensures TotalWeight(a + b) == TotalWeight(a) + TotalWeight(b)
    ensures WeightedSum(a + b) == WeightedSum(a) + WeightedSum(b)
    decreases |b|
  {
    if b == [] {
      assert a + b == a;
    } else {
      assert (a + b)[..|a + b| - 1] == a + b[..|b| - 1];
      SumsAppend(a, b[..|b| - 1]);
    }
  }

  lemma HalvesAddUp(score: real, w1: real, w2: real)
    ensures TotalWeight([Term(score, w1), Term(score, w2)]) == TotalWeight([Term(score, w1 + w2)])
    ensures WeightedSum([Term(score, w1), Term(score, w2)]) == WeightedSum([Term(score, w1 + w2)])
  {
    var halves := [Term(score, w1), Term(score, w2)];
    assert halves[..1] == [Term(score, w1)];
    assert halves[..1][..0] == [];
    Distribute(score, w1, w2);
  }

  /** Cutting any term in two without changing its score leaves the overall score alone. */
  lemma TermsMayBeCut(before: seq<Term>, score: real, w1: real, w2: real, rest: seq<Term>)
    ensures OverallScore(before + [Term(score, w1), Term(score, w2)] + rest) ==
        OverallScore(before + [Term(score, w1 + w2)] + rest)
  {
    var halves, whole := [Term(score, w1), Term(score, w2)], [Term(score, w1 + w2)];
    SumsAppend(before + halves, rest);
    SumsAppend(before, halves);
    SumsAppend(before + whole, rest);
    SumsAppend(before, whole);
    HalvesAddUp(score, w1, w2);
  }

  lemma TermsAppend(a: seq<Segment>, b: seq<Segment>, scored: seq<Scored>)
    ensures Terms(a + b, scored) == Terms(a, scored) + Terms(b, scored)
  {
  }

  /** A segment weighs its duration: cutting it at any moment between its start and its end,
      with the same score on both sides, leaves the overall score alone. */
  lemma CuttingChangesNothing(before: seq<Segment>, seg: Segment, at: real, rest: seq<Segment>, scored: seq<Scored>)
    requires seg.start <= at <= seg.end
    ensures var halves := [Segment(seg.id, seg.start, at), Segment(seg.id, at, seg.end)];
      OverallScore(Terms(before + halves + rest, scored)) == OverallScore(Terms(before + [seg] + rest, scored))
  {
    var left, right := Segment(seg.id, seg.start, at), Segment(seg.id, at, seg.end);
    TermsAppend(before + [left, right], rest, scored);
    TermsAppend(before, [left, right], scored);
    TermsAppend(before + [seg], rest, scored);
    TermsAppend(before, [seg], scored);
    TermsMayBeCut(Terms(before, scored), ScoreOf(scored, seg), Weight(left), Weight(right), Terms(rest, scored));
    var score := ScoreOf(scored, seg);
    assert Terms([left, right], scored) == [Term(score, Weight(left)), Term(score, Weight(right))];
    assert Terms([seg], scored) == [Term(score, Weight(left) + Weight(right))];
  }
}
