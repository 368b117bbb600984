/**
 Giving the snippets of a transcript their speakers: of the speaker turns that the pipeline
 found, each snippet takes the one that overlaps it most.
 */
module SpeakerTurns {
  import opened Wrappers
  import opened TranscriptCache

  datatype Turn = Turn(speaker: string, start: real, end: real)

  /** A snippet is widened by this much on both sides. */
  const TOLERANCE_SECONDS := 0.2

  function Least(a: real, b: real): real {
    if b < a then b else a
  }

  function Greatest(a: real, b: real): real {
    if a < b then b else a
  }

  /** How many seconds of the turn lie inside the widened snippet. */
  function Overlap(s: Snippet, t: Turn): real {
    var from, to := s.start - TOLERANCE_SECONDS, s.start + s.duration + TOLERANCE_SECONDS;
    Greatest(0.0, Least(to, t.end) - Greatest(from, t.start))
  }

  /** A moment strictly inside both the turn and the widened snippet. */
  predicate Shared(s: Snippet, t: Turn, moment: real) {
    && t.start < moment < t.end
    && s.start - TOLERANCE_SECONDS < moment < s.start + s.duration + TOLERANCE_SECONDS
  }

  /** A turn overlaps a snippet exactly when they share a moment. */
  lemma OverlapIffShared(s: Snippet, t: Turn)
    ensures Overlap(s, t) > 0.0 <==> exists moment :: Shared(s, t, moment)
  {
    var from := Greatest(s.start - TOLERANCE_SECONDS, t.start);
    var to := Least(s.start + s.duration + TOLERANCE_SECONDS, t.end);
    if from < to {
      assert Shared(s, t, (from + to) / 2.0);
    }
  }

  /** Both moments, and so what lies between them, are shared. */
  predicate Stretch(s: Snippet, t: Turn, from: real, to: real) {
    from < to && Shared(s, t, from) && Shared(s, t, to)
  }

  /** The overlap is the least length that every shared stretch stays below. */
  lemma OverlapIsLeastBound(s: Snippet, t: Turn, bound: real)
    requires 0.0 <= bound
    ensures Overlap(s, t) <= bound <==> forall from, to | Stretch(s, t, from, to) :: to - from < bound
  {
    var excess := (Overlap(s, t) - bound) / 4.0;
    if excess > 0.0 {
      var from := Greatest(s.start - TOLERANCE_SECONDS, t.start) + excess;
      var to := Least(s.start + s.duration + TOLERANCE_SECONDS, t.end) - excess;
      assert Stretch(s, t, from, to) && to - from >= bound;
    }
  }

  /** Turn `i` overlaps the snippet, none overlaps it more, and none before it as much. */
  predicate IsBest(s: Snippet, turns: seq<Turn>, i: nat) {
    && i < |turns| && Overlap(s, turns[i]) > 0.0
    && (forall j | 0 <= j < |turns| :: Overlap(s, turns[j]) <= Overlap(s, turns[i]))
    && (forall j | 0 <= j < i :: Overlap(s, turns[j]) < Overlap(s, turns[i]))
  }

  /** The label that the turns give a snippet, if they give one. */
  ghost predicate IsLabel(s: Snippet, turns: seq<Turn>, found: Option<string>) {
    match found
    case Some(speaker) => exists i: nat :: IsBest(s, turns, i) && turns[i].speaker == speaker
    case None => forall i, moment | 0 <= i < |turns| :: !Shared(s, turns[i], moment)
  }

  /** There is only one such label. */
  lemma LabelIsUnique(s: Snippet, turns: seq<Turn>, a: Option<string>, b: Option<string>)
    requires IsLabel(s, turns, a) && IsLabel(s, turns, b)
    ensures a == b
  {
    forall i | 0 <= i < |turns|
      ensures Overlap(s, turns[i]) > 0.0 <==> exists moment :: Shared(s, turns[i], moment)
    {
      OverlapIffShared(s, turns[i]);
    }
    if a.Some? && b.Some? {
      var i: nat :| IsBest(s, turns, i) && turns[i].speaker == a.value;
      var j: nat :| IsBest(s, turns, j) && turns[j].speaker == b.value;
      assert i == j;
    }
  }

  /** The inner loop: the first turn with the largest overlap. */
  method BestLabel(s: Snippet, turns: seq<Turn>) returns (best: Option<string>)
    ensures IsLabel(s, turns, best)
  {
    best := None;
    var bestOverlap := 0.0;
    for k := 0 to |turns|
      invariant forall j | 0 <= j < k :: Overlap(s, turns[j]) <= bestOverlap
      invariant if best.None? then bestOverlap == 0.0
                else exists i | 0 <= i < k :: IsBest(s, turns[..k], i) && turns[i].speaker == best.value
                                              && Overlap(s, turns[i]) == bestOverlap
    {
      var overlap := Overlap(s, turns[k]);
      if overlap > bestOverlap {
        bestOverlap, best := overlap, Some(turns[k].speaker);
        assert IsBest(s, turns[..k + 1], k);
      } else if best.Some? {
        var i :| 0 <= i < k && IsBest(s, turns[..k], i) && turns[i].speaker == best.value
                 && Overlap(s, turns[i]) == bestOverlap;
        assert IsBest(s, turns[..k + 1], i) by {
          assert forall j | 0 <= j < k :: turns[..k][j] == turns[..k + 1][j];
        }
      }
    }
    assert turns[..|turns|] == turns;
    if best.None? {
      forall i, moment | 0 <= i < |turns|
        ensures !Shared(s, turns[i], moment)
      {
        OverlapIffShared(s, turns[i]);
      }
    }
  }

  /** A snippet as its label leaves it: spoken by the label, or as it was without one. */
  ghost predicate Spoken(before: Snippet, turns: seq<Turn>, r: Snippet) {
    exists found :: IsLabel(before, turns, found) && r == if found.Some? then before.(speaker := found) else before
  }

  method LabelOne(s: Snippet, turns: seq<Turn>) returns (r: Snippet)
    ensures Spoken(s, turns, r)
  {
    var best := BestLabel(s, turns);
    r := if best.Some? then s.(speaker := best) else s;
  }

  /** The outer loop: every snippet gets its label. */
  method AlignSpeakers(snippets: seq<Snippet>, turns: seq<Turn>) returns (r: seq<Snippet>)
    ensures |r| == |snippets| && forall i | 0 <= i < |snippets| :: Spoken(snippets[i], turns, r[i])
  {
    r := [];
    for k := 0 to |snippets|
      invariant |r| == k && forall i | 0 <= i < k :: Spoken(snippets[i], turns, r[i])
    {
      var spoken := LabelOne(snippets[k], turns);
      r := r + [spoken];
    }
  }

  /** So it comes to the tagging that a diarization commits, with the turns' labels. */
  lemma AlignmentIsTagging(snippets: seq<Snippet>, turns: seq<Turn>, labels: seq<Option<string>>, r: seq<Snippet>)
    requires |labels| == |snippets| == |r|
    requires forall i | 0 <= i < |snippets| :: IsLabel(snippets[i], turns, labels[i])
    ensures r == Tag(snippets, labels) <==> forall i | 0 <= i < |snippets| :: Spoken(snippets[i], turns, r[i])
  {
    var tagged := Tag(snippets, labels);
    forall i | 0 <= i < |snippets|
      ensures Spoken(snippets[i], turns, r[i]) <==> r[i] == tagged[i]
    {
      if Spoken(snippets[i], turns, r[i]) {
        var found :| IsLabel(snippets[i], turns, found)
                     && r[i] == if found.Some? then snippets[i].(speaker := found) else snippets[i];
        LabelIsUnique(snippets[i], turns, found, labels[i]);
      }
    }
  }
}
