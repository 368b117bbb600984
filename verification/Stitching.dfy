/**
 Stitching the responses for the parts of one audio file into one timeline.

 A response is what the transcription endpoint returned for a part; texts are as they
 are after stripping. The call itself is an oracle: None is a call that failed.
 */
module Stitching {
  import opened Wrappers
  import opened TranscriptCache
  import opened Text

  datatype Segment = Segment(start: Option<real>, end: Option<real>, text: string)

  datatype Response = Response(segments: seq<Segment>, duration: Option<real>, language: string)

  datatype Transcript = Transcript(snippets: seq<Snippet>, language: string, durationSeconds: real, fullText: string)

  function StartOf(seg: Segment): real {
    if seg.start.Some? then seg.start.value else 0.0
  }

  function EndOf(seg: Segment): real {
    if seg.end.Some? then seg.end.value else StartOf(seg)
  }

  function MaxReal(a: real, b: real): real {
    if a < b then b else a
  }

  // ---------- One part ----------

  function Shift(seg: Segment, offset: real): Snippet {
    Snippet(StartOf(seg) + offset, MaxReal(EndOf(seg) - StartOf(seg), 0.0), seg.text, None)
  }

  function Shifted(segments: seq<Segment>, offset: real): (r: seq<Snippet>)
    ensures |r| == |segments|
  {
    seq(|segments|, i requires 0 <= i < |segments| => Shift(segments[i], offset))
  }

  function TextsOf(segments: seq<Segment>): (r: seq<string>)
    ensures |r| == |segments|
  {
    seq(|segments|, i requires 0 <= i < |segments| => segments[i].text)
  }

  /** How far the segments reach beyond the part's own zero. */
  function Reach(segments: seq<Segment>): real {
    if segments == [] then 0.0 else MaxReal(Reach(segments[..|segments| - 1]), EndOf(segments[|segments| - 1]))
  }

  /** A segment ends by then: at the end it gives, else where it starts, else at zero. */
  predicate EndsBy(seg: Segment, bound: real) {
    match (seg.end, seg.start)
    case (Some(end), _) => end <= bound
    case (None, Some(start)) => start <= bound
    case (None, None) => 0.0 <= bound
  }

  /** Every segment ends within the reach, and the reach is no farther than need be. */
  lemma {:induction false} ReachIsLeast(segments: seq<Segment>, bound: real)
    ensures Reach(segments) <= bound <==> 0.0 <= bound && forall i | 0 <= i < |segments| :: EndsBy(segments[i], bound)
    decreases |segments|
  {
    if segments != [] {
      ReachIsLeast(segments[..|segments| - 1], bound);
      assert forall i | 0 <= i < |segments| - 1 :: segments[..|segments| - 1][i] == segments[i];
    }
  }

  method SegmentsFromResponse(resp: Response, offset: real)
    returns (snippets: seq<Snippet>, lastEnd: real, text: string)
    ensures snippets == Shifted(resp.segments, offset)
    ensures lastEnd == offset + Reach(resp.segments)
    ensures text == Join(TextsOf(resp.segments), " ")
  {
    snippets, lastEnd := [], offset;
    var texts := [];
    for k := 0 to |resp.segments|
      invariant snippets == Shifted(resp.segments, offset)[..k]
      invariant texts == TextsOf(resp.segments)[..k]
      invariant lastEnd == offset + Reach(resp.segments[..k])
    {
      var seg := resp.segments[k];
      var start := StartOf(seg);
      var end := EndOf(seg);
      snippets := snippets + [Snippet(start + offset, MaxReal(end - start, 0.0), seg.text, None)];
      texts := texts + [seg.text];
      lastEnd := MaxReal(lastEnd, end + offset);
      assert resp.segments[..k + 1][..k] == resp.segments[..k];
    }
    assert resp.segments[..|resp.segments|] == resp.segments;
    assert texts == TextsOf(resp.segments);
    text := Join(texts, " ");
  }

  // ---------- All parts ----------

  /** A part's length: as reported, else as far as its segments reach. */
  function PartLength(resp: Response): real {
    if resp.duration.Some? then resp.duration.value else Reach(resp.segments)
  }

  /** Where part `k` starts: the sum of the lengths before it. */
  function Offset(parts: seq<Response>, k: nat): real
    requires k <= |parts|
  {
    if k == 0 then 0.0 else Offset(parts, k - 1) + PartLength(parts[k - 1])
  }

  /** The segments of the first `k` parts, each shifted by its part's offset. */
  function Merged(parts: seq<Response>, k: nat): seq<Snippet>
    requires k <= |parts|
  {
    if k == 0 then [] else Merged(parts, k - 1) + Shifted(parts[k - 1].segments, Offset(parts, k - 1))
  }

  function FirstLanguage(parts: seq<Response>, k: nat): string
    requires k <= |parts|
  {
    if k == 0 then ""
    else if FirstLanguage(parts, k - 1) != "" then FirstLanguage(parts, k - 1)
    else parts[k - 1].language
  }

  function PartTexts(parts: seq<Response>, k: nat): seq<string>
    requires k <= |parts|
  {
    if k == 0 then [] else PartTexts(parts, k - 1) + [Join(TextsOf(parts[k - 1].segments), " ")]
  }

  function NonEmpty(texts: seq<string>): seq<string> {
    if texts == [] then []
    else (if texts[0] == "" then [] else [texts[0]]) + NonEmpty(texts[1..])
  }

  function Received(parts: seq<Option<Response>>): (r: seq<Response>)
    requires forall k | 0 <= k < |parts| :: parts[k].Some?
    ensures |r| == |parts|
  {
    seq(|parts|, k requires 0 <= k < |parts| => parts[k].value)
  }

  /** The transcript that a list of responses stands for. */
  function Stitched(parts: seq<Response>): Transcript {
    var n := |parts|;
    Transcript(Merged(parts, n), if FirstLanguage(parts, n) == "" then "en" else FirstLanguage(parts, n),
               Offset(parts, n), Join(NonEmpty(PartTexts(parts, n)), " "))
  }

  lemma {:induction false} SamePrefix(a: seq<Response>, b: seq<Response>, k: nat)
    requires k <= |a| && k <= |b| && a[..k] == b[..k]
    ensures Offset(a, k) == Offset(b, k) && Merged(a, k) == Merged(b, k)
    ensures FirstLanguage(a, k) == FirstLanguage(b, k) && PartTexts(a, k) == PartTexts(b, k)
  {
    if k > 0 {
      assert a[..k - 1] == a[..k][..k - 1] == b[..k][..k - 1] == b[..k - 1];
      assert a[k - 1] == a[..k][k - 1] == b[..k][k - 1] == b[k - 1];
      SamePrefix(a, b, k - 1);
    }
  }

  /** The offset loop. A running offset that falls back on the last segment's end when a
      part reports no length comes to the sums of the part lengths. */
  method Transcribe(responses: seq<Option<Response>>) returns (result: Option<Transcript>)
    ensures result.None? <==> exists k | 0 <= k < |responses| :: responses[k].None?
    ensures result.Some? ==> result.value == Stitched(Received(responses))
  {
    var allSnippets, allText, durationAcc, language := [], [], 0.0, "";
    ghost var parts: seq<Response> := [];
    for k := 0 to |responses|
      invariant |parts| == k && forall i | 0 <= i < k :: responses[i] == Some(parts[i])
      invariant allSnippets == Merged(parts, k) && durationAcc == Offset(parts, k)
      invariant language == FirstLanguage(parts, k)
      invariant allText == PartTexts(parts, k)
    {
      if responses[k].None? {
        return None;
      }
      var resp := responses[k].value;
      SamePrefix(parts, parts + [resp], k);
      parts := parts + [resp];
      if language == "" {
        language := resp.language;
      }
      var snippets, lastEnd, text := SegmentsFromResponse(resp, durationAcc);
      allSnippets := allSnippets + snippets;
      allText := allText + [text];
      if resp.duration.Some? {
        durationAcc := durationAcc + resp.duration.value;
      } else {
        durationAcc := lastEnd;
      }
    }
    assert parts == Received(responses);
    result := Some(Transcript(allSnippets, if language == "" then "en" else language, durationAcc,
        Join(NonEmpty(allText), " ")));
  }

  // ---------- Language and text ----------

  predicate FirstNamed(parts: seq<Response>, k: nat, i: nat)
    requires k <= |parts|
  {
    i < k && parts[i].language != "" && forall j | 0 <= j < i :: parts[j].language == ""
  }

  lemma {:induction false} LanguageComesFirst(parts: seq<Response>, k: nat)
    requires k <= |parts|
    ensures FirstLanguage(parts, k) == "" <==> forall j | 0 <= j < k :: parts[j].language == ""
    ensures forall i | 0 <= i && FirstNamed(parts, k, i) :: FirstLanguage(parts, k) == parts[i].language
  {
    if k > 0 {
      LanguageComesFirst(parts, k - 1);
      assert forall i: nat | i < k - 1 :: FirstNamed(parts, k, i) <==> FirstNamed(parts, k - 1, i);
    }
  }

  /** The transcript is in the language of the first part that names one, or in English. */
  lemma LanguageOfTranscript(parts: seq<Response>)
    ensures (forall j | 0 <= j < |parts| :: parts[j].language == "") ==> Stitched(parts).language == "en"
    ensures forall i | 0 <= i && FirstNamed(parts, |parts|, i) :: Stitched(parts).language == parts[i].language
  {
    LanguageComesFirst(parts, |parts|);
  }

  lemma {:induction false} NonEmptyAppend(a: seq<string>, b: seq<string>)
    ensures NonEmpty(a + b) == NonEmpty(a) + NonEmpty(b)
  {
    if a == [] {
      assert a + b == b;
    } else {
      assert (a + b)[1..] == a[1..] + b;
      NonEmptyAppend(a[1..], b);
    }
  }

  lemma {:induction false} JoinOneMore(texts: seq<string>, text: string, separator: string)
    ensures Join(texts + [text], separator) == if texts == [] then text else Join(texts, separator) + separator + text
  {
    if |texts| > 1 {
      assert (texts + [text])[1..] == texts[1..] + [text];
      JoinOneMore(texts[1..], text, separator);
    } else if |texts| == 1 {
      assert (texts + [text])[1..] == [text];
    } else {
      assert texts + [text] == [text];
    }
  }

  lemma {:induction false} BlankMeansNoText(texts: seq<string>)
    ensures Join(NonEmpty(texts), " ") == "" <==> NonEmpty(texts) == []
    ensures "" !in NonEmpty(texts)
  {
    if texts != [] { BlankMeansNoText(texts[1..]); }
  }

  /** One more part: its text is added after a space, or alone if there was none before; a
      part without text adds nothing. */
  lemma FullTextGrows(parts: seq<Response>, part: Response)
    ensures var before, text := Stitched(parts).fullText, Join(TextsOf(part.segments), " ");
      Stitched(parts + [part]).fullText ==
        if text == "" then before else if before == "" then text else before + " " + text
  {
    var n, text := |parts|, Join(TextsOf(part.segments), " ");
    var texts := PartTexts(parts, n);
    assert parts[..n] == (parts + [part])[..n];
    SamePrefix(parts, parts + [part], n);
    assert PartTexts(parts + [part], n + 1) == texts + [text];
    NonEmptyAppend(texts, [text]);
    BlankMeansNoText(texts);
    JoinOneMore(NonEmpty(texts), text, " ");
    assert NonEmpty([text]) == if text == "" then [] else [text] by {
      assert [text][1..] == [];
    }
    assert Stitched(parts + [part]).fullText == Join(NonEmpty(texts) + NonEmpty([text]), " ");
    assert text == "" ==> NonEmpty(texts) + NonEmpty([text]) == NonEmpty(texts);
  }

  // ---------- The merged timeline ----------

  predicate InOrder(snippets: seq<Snippet>) {
    forall i, j | 0 <= i < j < |snippets| :: snippets[i].start <= snippets[j].start
  }

  predicate Within(snippets: seq<Snippet>, from: real, to: real) {
    forall i | 0 <= i < |snippets| ::
      from <= snippets[i].start && 0.0 <= snippets[i].duration && snippets[i].start + snippets[i].duration <= to
  }

  predicate SegmentsInside(resp: Response) {
    forall i | 0 <= i < |resp.segments| ::
      0.0 <= StartOf(resp.segments[i]) <= PartLength(resp) && EndOf(resp.segments[i]) <= PartLength(resp)
  }

  /** The segments come in order and lie inside the part. */
  predicate Tidy(resp: Response) {
    && 0.0 <= PartLength(resp)
    && (forall i, j | 0 <= i < j < |resp.segments| :: StartOf(resp.segments[i]) <= StartOf(resp.segments[j]))
    && SegmentsInside(resp)
  }

  /** A part that reports no length always contains its segments. */
  lemma SilentPartsFit(resp: Response)
    requires resp.duration.None?
    ensures 0.0 <= PartLength(resp)
    ensures forall i | 0 <= i < |resp.segments| :: EndOf(resp.segments[i]) <= PartLength(resp)
  {
    ReachIsLeast(resp.segments, PartLength(resp));
  }

  lemma OnePartFits(resp: Response, offset: real)
    requires Tidy(resp)
    ensures InOrder(Shifted(resp.segments, offset))
    ensures Within(Shifted(resp.segments, offset), offset, offset + PartLength(resp))
  {
  }

  lemma {:induction false} OffsetsGrow(parts: seq<Response>, j: nat, k: nat)
    requires j <= k <= |parts| && forall i | 0 <= i < k :: 0.0 <= PartLength(parts[i])
    ensures Offset(parts, j) <= Offset(parts, k)
    decreases k
  {
    if j < k { OffsetsGrow(parts, j, k - 1); }
  }

  lemma Append(a: seq<Snippet>, b: seq<Snippet>, from: real, middle: real, to: real)
    requires InOrder(a) && Within(a, from, middle) && InOrder(b) && Within(b, middle, to) && from <= middle <= to
    ensures InOrder(a + b) && Within(a + b, from, to)
  {
  }

  /** If the segments of every part come in order inside their part, then so do the
      snippets of the transcript: in order, none starting before 0 and none ending after
      the transcript's duration. */
  lemma {:induction false} TidyPartsGiveTidyTimeline(parts: seq<Response>, k: nat)
    requires k <= |parts| && forall i | 0 <= i < k :: Tidy(parts[i])
    ensures InOrder(Merged(parts, k)) && Within(Merged(parts, k), 0.0, Offset(parts, k))
    decreases k
  {
    if k > 0 {
      TidyPartsGiveTidyTimeline(parts, k - 1);
      OnePartFits(parts[k - 1], Offset(parts, k - 1));
      OffsetsGrow(parts, 0, k - 1);
      Append(Merged(parts, k - 1), Shifted(parts[k - 1].segments, Offset(parts, k - 1)),
             0.0, Offset(parts, k - 1), Offset(parts, k));
    }
  }

  lemma {:induction false} PartInItsPlace(parts: seq<Response>, k: nat, n: nat)
    requires k < n <= |parts|
    ensures var from := |Merged(parts, k)|; var to := from + |parts[k].segments|;
      to <= |Merged(parts, n)| && Merged(parts, n)[from..to] == Shifted(parts[k].segments, Offset(parts, k))
    decreases n
  {
    if k < n - 1 {
      PartInItsPlace(parts, k, n - 1);
      var from := |Merged(parts, k)|;
      var to := from + |parts[k].segments|;
      assert Merged(parts, n)[from..to] == Merged(parts, n - 1)[from..to];
    }
  }

  /** Part `k` occupies its own stretch of the transcript, and lies in its own interval
      exactly when its segments lie inside the part. */
  lemma PartInItsInterval(parts: seq<Response>, k: nat, n: nat)
    requires k < n <= |parts|
    ensures var from := |Merged(parts, k)|; var to := from + |parts[k].segments|;
      && to <= |Merged(parts, n)|
      && Merged(parts, n)[from..to] == Shifted(parts[k].segments, Offset(parts, k))
      && (Within(Merged(parts, n)[from..to], Offset(parts, k), Offset(parts, k + 1)) <==> SegmentsInside(parts[k]))
  {
    PartInItsPlace(parts, k, n);
    ShiftedWithin(parts[k], Offset(parts, k));
  }

  /** Segment `i` of part `k` keeps its text and its length, moved by the part's offset. A
      segment without a start starts with its part; one without an end has no length. */
  lemma SegmentInItsPlace(parts: seq<Response>, k: nat, n: nat, i: nat)
    requires k < n <= |parts| && i < |parts[k].segments|
    ensures var x, seg := |Merged(parts, k)| + i, parts[k].segments[i];
      && x < |Merged(parts, n)|
      && Merged(parts, n)[x].text == seg.text && Merged(parts, n)[x].speaker == None
      && (seg.start.Some? ==> Merged(parts, n)[x].start == Offset(parts, k) + seg.start.value)
      && (seg.start.None? ==> Merged(parts, n)[x].start == Offset(parts, k))
      && 0.0 <= Merged(parts, n)[x].duration
      && (seg.end.None? ==> Merged(parts, n)[x].duration == 0.0)
      && (seg.end.Some? && Merged(parts, n)[x].start <= Offset(parts, k) + seg.end.value ==>
            Merged(parts, n)[x].start + Merged(parts, n)[x].duration == Offset(parts, k) + seg.end.value)
      && (seg.end.Some? && Offset(parts, k) + seg.end.value <= Merged(parts, n)[x].start ==>
            Merged(parts, n)[x].duration == 0.0)
  {
    PartInItsPlace(parts, k, n);
    var from := |Merged(parts, k)|;
    var to := from + |parts[k].segments|;
    assert Merged(parts, n)[from..to][i] == Merged(parts, n)[from + i];
  }

  lemma ShiftedWithin(resp: Response, offset: real)
    ensures Within(Shifted(resp.segments, offset), offset, offset + PartLength(resp)) <==> SegmentsInside(resp)
  {
    var shifted := Shifted(resp.segments, offset);
    if Within(shifted, offset, offset + PartLength(resp)) {
      forall i | 0 <= i < |resp.segments|
        ensures 0.0 <= StartOf(resp.segments[i]) <= PartLength(resp) && EndOf(resp.segments[i]) <= PartLength(resp)
      {
        assert shifted[i] == Shift(resp.segments[i], offset);
      }
    }
  }
}
