/**
 The SubRip printer, and a parser that undoes it.

 Seconds are reals; the rounding to milliseconds is Python's half-to-even `round`.
 */
module Srt {
  import opened Wrappers
  import opened TranscriptCache
  import opened Text
  import Rounding

  // ---------- Timestamps ----------

  /** A time as it is printed: clamped at zero, in whole milliseconds. */
  function TotalMs(seconds: real): nat {
    Rounding.Monotone(0.0, (if seconds < 0.0 then 0.0 else seconds) * 1000.0);
    Rounding.HalfEven((if seconds < 0.0 then 0.0 else seconds) * 1000.0)
  }

  datatype Fields = Fields(hours: nat, minutes: nat, secs: nat, millis: nat)

  /** Successive `divmod`s. */
  function FieldsOf(total: nat): Fields {
    var inHour := total % 3_600_000;
    Fields(total / 3_600_000, inHour / 60_000, inHour % 60_000 / 1000, inHour % 60_000 % 1000)
  }

  /** `HH:MM:SS,mmm` */
  function Stamp(f: Fields): string {
    Padded(f.hours, 2) + ":" + Padded(f.minutes, 2) + ":" + Padded(f.secs, 2) + "," + Padded(f.millis, 3)
  }

  function FormatTimestamp(seconds: real): string {
    Stamp(FieldsOf(TotalMs(seconds)))
  }

  function Recombined(f: Fields): nat {
    ((f.hours * 60 + f.minutes) * 60 + f.secs) * 1000 + f.millis
  }

  predicate InRange(f: Fields) {
    f.minutes < 60 && f.secs < 60 && f.millis < 1000
  }

  lemma MultiplesAreFar(x: int, d: nat)
    ensures x >= 1 ==> x * d >= d
    ensures x <= -1 ==> x * d <= 0 - d
  {
  }

  lemma QuotientIs(n: nat, d: nat, q: nat, r: nat)
    requires r < d && n == q * d + r
    ensures n / d == q && n % d == r
  {
    MultiplesAreFar(q - n / d, d);
    assert (q - n / d) * d == q * d - n / d * d;
  }

  /** Minutes and seconds stay below 60, milliseconds below 1000, and the fields add up;
      no other fields would. */
  lemma FieldsAreTheTime(total: nat, f: Fields)
    ensures f == FieldsOf(total) <==> InRange(f) && Recombined(f) == total
  {
    if InRange(f) && Recombined(f) == total {
      var inMinute := f.secs * 1000 + f.millis;
      QuotientIs(total, 3_600_000, f.hours, f.minutes * 60_000 + inMinute);
      QuotientIs(f.minutes * 60_000 + inMinute, 60_000, f.minutes, inMinute);
      QuotientIs(inMinute, 1000, f.secs, f.millis);
    }
  }

  /** The fields of a printed time, each read up to its separator. */
  function ReadFields(s: string): Option<Fields> {
    match Cut(s, ':')
    case None => None
    case Some((hh, rest)) =>
      match Cut(rest, ':')
      case None => None
      case Some((mm, rest2)) =>
        match Cut(rest2, ',')
        case None => None
        case Some((ss, mmm)) =>
          var h, m, s, ms := ParseNat(hh), ParseNat(mm), ParseNat(ss), ParseNat(mmm);
          if h.Some? && m.Some? && s.Some? && ms.Some? then Some(Fields(h.value, m.value, s.value, ms.value)) else None
  }

  /** Milliseconds of a printed time; None when a field is out of its range. */
  function ParseTimestamp(s: string): Option<nat> {
    match ReadFields(s)
    case None => None
    case Some(f) => if InRange(f) then Some(Recombined(f)) else None
  }

  lemma DigitsAvoid(s: string, c: char)
    requires AllDigits(s) && !('0' <= c <= '9')
    ensures c !in s
  {
  }

  lemma StampReadsBack(f: Fields)
    ensures ReadFields(Stamp(f)) == Some(f)
  {
    var hh, mm, ss, mmm := Padded(f.hours, 2), Padded(f.minutes, 2), Padded(f.secs, 2), Padded(f.millis, 3);
    var rest2 := ss + "," + mmm;
    var rest := mm + ":" + rest2;
    assert Stamp(f) == hh + [':'] + rest;
    CutIsJoinInverse(Stamp(f), ':', hh, rest);
    CutIsJoinInverse(rest, ':', mm, rest2);
    CutIsJoinInverse(rest2, ',', ss, mmm);
    PaddedSpells(f.hours, 2);
    PaddedSpells(f.minutes, 2);
    PaddedSpells(f.secs, 2);
    PaddedSpells(f.millis, 3);
  }

  lemma StampOfTime(total: nat)
    ensures ParseTimestamp(Stamp(FieldsOf(total))) == Some(total)
  {
    StampReadsBack(FieldsOf(total));
    FieldsAreTheTime(total, FieldsOf(total));
  }

  lemma TwoDigits(n: nat)
    requires n < 100
    ensures |Padded(n, 2)| == 2
  {
    assert Padded(n, 2) == Padded(n / 10, 1) + [Digit(n % 10)];
  }

  lemma ThreeDigits(n: nat)
    requires n < 1000
    ensures |Padded(n, 3)| == 3
  {
    TwoDigits(n / 10);
    assert Padded(n, 3) == Padded(n / 10, 2) + [Digit(n % 10)];
  }

  /** A printed time has two digits of minutes, two of seconds and three of milliseconds, after
      at least two of hours. */
  lemma StampHasShape(total: nat)
    ensures var s := Stamp(FieldsOf(total)); var n := |s|;
      && n >= 12 && (total < 360_000_000 ==> n == 12)
      && AllDigits(s[..n - 10]) && s[n - 10] == ':' && AllDigits(s[n - 9..n - 7]) && s[n - 7] == ':'
      && AllDigits(s[n - 6..n - 4]) && s[n - 4] == ',' && AllDigits(s[n - 3..])
  {
    var f := FieldsOf(total);
    FieldsAreTheTime(total, f);
    TwoDigits(f.minutes);
    TwoDigits(f.secs);
    ThreeDigits(f.millis);
    PaddedSpells(f.hours, 2);
    if f.hours < 100 { TwoDigits(f.hours); }
    var s := Stamp(f);
    var n := |s|;
    assert s[..n - 10] == Padded(f.hours, 2);
    assert s[n - 9..n - 7] == Padded(f.minutes, 2);
    assert s[n - 6..n - 4] == Padded(f.secs, 2);
    assert s[n - 3..] == Padded(f.millis, 3);
  }

  /** A printed time reads back as its milliseconds; rounding has carried into the
      higher fields. */
  lemma TimestampRoundTrip(seconds: real)
    ensures ParseTimestamp(FormatTimestamp(seconds)) == Some(TotalMs(seconds))
  {
    StampOfTime(TotalMs(seconds));
  }

  /** Printing keeps time order, moves no time from zero on by more than half a millisecond,
      and prints every negative one as zero. */
  lemma PrintedTimesKeepOrder(a: real, b: real)
    requires a <= b
    ensures TotalMs(a) <= TotalMs(b)
    ensures 0.0 <= a ==> -0.5 <= a * 1000.0 - TotalMs(a) as real <= 0.5
    ensures a <= 0.0 ==> TotalMs(a) == 0
  {
    Rounding.OfInteger(0);
    if 0.0 <= a {
      Rounding.Monotone(a * 1000.0, b * 1000.0);
      Rounding.NearestTiesToEven(a * 1000.0, TotalMs(a));
    }
  }

  // ---------- The file ----------

  function Timing(left: string, right: string): string {
    left + " --> " + right
  }

  function CueLines(number: string, timing: string, text: string): string {
    number + "\n" + timing + "\n" + text + "\n"
  }

  function CueText(index: nat, s: Snippet): string {
    CueLines(Padded(index, 0), Timing(FormatTimestamp(s.start), FormatTimestamp(s.start + s.duration)), s.text)
  }

  /** The cues, numbered from 1. */
  function CueTexts(snippets: seq<Snippet>): (texts: seq<string>)
    ensures |texts| == |snippets|
  {
    seq(|snippets|, i requires 0 <= i < |snippets| => CueText(i + 1, snippets[i]))
  }

  /** Each text, followed by a blank line. */
  function Blocks(texts: seq<string>): string {
    if texts == [] then "" else texts[0] + ("\n" + Blocks(texts[1..]))
  }

  lemma {:induction false} JoinedBlocks(texts: seq<string>)
    ensures Blocks(texts) == Join(texts, "\n") + if texts != [] then "\n" else ""
  {
    if |texts| > 1 {
      JoinedBlocks(texts[1..]);
      assert Join(texts, "\n") + "\n" == texts[0] + ("\n" + (Join(texts[1..], "\n") + "\n"));
    } else if |texts| == 1 {
      assert texts[1..] == [];
      assert "\n" + "" == "\n";
    }
  }

  method FormatCue(index: nat, s: Snippet) returns (text: string)
    ensures text == CueText(index, s)
  {
    var startTs := FormatTimestamp(s.start);
    var endTs := FormatTimestamp(s.start + s.duration);
    text := CueLines(Padded(index, 0), Timing(startTs, endTs), s.text);
  }

  /** Append one cue per snippet, then join. */
  method ToSrt(snippets: seq<Snippet>) returns (srt: string)
    ensures srt == Blocks(CueTexts(snippets))
  {
    var parts := [];
    for k := 0 to |snippets|
      invariant parts == CueTexts(snippets)[..k]
    {
      var part := FormatCue(k + 1, snippets[k]);
      parts := parts + [part];
    }
    assert CueTexts(snippets)[..|snippets|] == CueTexts(snippets);
    JoinedBlocks(parts);
    srt := Join(parts, "\n") + if parts != [] then "\n" else "";
  }

  // ---------- Reading it back ----------

  datatype Cue = Cue(index: nat, startMs: nat, endMs: nat, text: string)

  /** `start --> end` */
  function ParseTiming(line: string): Option<(nat, nat)> {
    match Cut(line, ' ')
    case None => None
    case Some((left, rest)) =>
      if |rest| < 4 || rest[..4] != "--> " then None
      else
        var a, b := ParseTimestamp(left), ParseTimestamp(rest[4..]);
        if a.Some? && b.Some? then Some((a.value, b.value)) else None
  }

  /** The first three lines, and what follows them. */
  function ThreeLines(s: string): (r: Option<(string, string, string, string)>)
    ensures r.Some? ==> |r.value.3| < |s|
  {
    match Cut(s, '\n')
    case None => None
    case Some((first, rest)) =>
      match Cut(rest, '\n')
      case None => None
      case Some((second, rest2)) =>
        match Cut(rest2, '\n')
        case None => None
        case Some((third, rest3)) => Some((first, second, third, rest3))
  }

  function CueOfLines(number: string, timing: string, text: string): Option<Cue> {
    var n, t := ParseNat(number), ParseTiming(timing);
    if n.Some? && t.Some? then Some(Cue(n.value, t.value.0, t.value.1, text)) else None
  }

  /** One cue: three lines and a blank one. */
  function ParseCue(s: string): (r: Option<(Cue, string)>)
    ensures r.Some? ==> |r.value.1| < |s|
  {
    match ThreeLines(s)
    case None => None
    case Some((number, timing, text, rest)) =>
      var cue := CueOfLines(number, timing, text);
      if cue.Some? && rest != "" && rest[0] == '\n' then Some((cue.value, rest[1..])) else None
  }

  function ParseSrt(s: string): Option<seq<Cue>>
    decreases |s|
  {
    if s == "" then Some([])
    else
      match ParseCue(s)
      case None => None
      case Some((cue, rest)) =>
        match ParseSrt(rest)
        case None => None
        case Some(cues) => Some([cue] + cues)
  }

  function CueOf(index: nat, s: Snippet): Cue {
    Cue(index, TotalMs(s.start), TotalMs(s.start + s.duration), s.text)
  }

  /** The cues that a snippet list stands for. */
  function CuesOf(snippets: seq<Snippet>): (cues: seq<Cue>)
    ensures |cues| == |snippets|
  {
    seq(|snippets|, i requires 0 <= i < |snippets| => CueOf(i + 1, snippets[i]))
  }

  predicate OneLine(s: Snippet) {
    '\n' !in s.text
  }

  lemma StampsAreOneWord(f: Fields, c: char)
    requires c == ' ' || c == '\n'
    ensures c !in Stamp(f)
  {
    DigitsAvoid(Padded(f.hours, 2), c);
    DigitsAvoid(Padded(f.minutes, 2), c);
    DigitsAvoid(Padded(f.secs, 2), c);
    DigitsAvoid(Padded(f.millis, 3), c);
  }

  lemma TimingReadsBack(left: string, right: string)
    requires ' ' !in left && ParseTimestamp(left).Some? && ParseTimestamp(right).Some?
    ensures ParseTiming(Timing(left, right)) == Some((ParseTimestamp(left).value, ParseTimestamp(right).value))
  {
    assert Timing(left, right) == left + [' '] + ("--> " + right);
    CutIsJoinInverse(Timing(left, right), ' ', left, "--> " + right);
    assert ("--> " + right)[4..] == right;
  }

  lemma TimingRoundTrip(a: nat, b: nat)
    ensures var line := Timing(Stamp(FieldsOf(a)), Stamp(FieldsOf(b)));
      ParseTiming(line) == Some((a, b)) && '\n' !in line
  {
    StampOfTime(a);
    StampOfTime(b);
    StampsAreOneWord(FieldsOf(a), ' ');
    StampsAreOneWord(FieldsOf(a), '\n');
    StampsAreOneWord(FieldsOf(b), '\n');
    TimingReadsBack(Stamp(FieldsOf(a)), Stamp(FieldsOf(b)));
  }

  lemma LinesRoundTrip(a: string, b: string, c: string, rest: string)
    requires '\n' !in a && '\n' !in b && '\n' !in c
    ensures ThreeLines(CueLines(a, b, c) + rest) == Some((a, b, c, rest))
  {
    var rest2 := c + "\n" + rest;
    var rest1 := b + "\n" + rest2;
    var whole := CueLines(a, b, c) + rest;
    assert whole == a + ['\n'] + rest1;
    CutIsJoinInverse(whole, '\n', a, rest1);
    CutIsJoinInverse(rest1, '\n', b, rest2);
    CutIsJoinInverse(rest2, '\n', c, rest);
  }

  lemma CueReadsBack(number: string, timing: string, text: string, rest: string, cue: Cue)
    requires '\n' !in number && '\n' !in timing && '\n' !in text && CueOfLines(number, timing, text) == Some(cue)
    ensures ParseCue(CueLines(number, timing, text) + ("\n" + rest)) == Some((cue, rest))
  {
    LinesRoundTrip(number, timing, text, "\n" + rest);
    assert ("\n" + rest)[1..] == rest;
  }

  lemma ThirdLineIsOneLine(s: string)
    ensures ThreeLines(s).Some? ==> '\n' !in ThreeLines(s).value.2
  {
    var rest := Cut(s, '\n');
    if rest.Some? {
      var rest2 := Cut(rest.value.1, '\n');
      if rest2.Some? {
        var rest3 := Cut(rest2.value.1, '\n');
        if rest3.Some? {
          CutIsJoinInverse(rest2.value.1, '\n', rest3.value.0, rest3.value.1);
        }
      }
    }
  }

  lemma CueRoundTrip(index: nat, s: Snippet, rest: string)
    requires OneLine(s)
    ensures ParseCue(CueText(index, s) + ("\n" + rest)) == Some((CueOf(index, s), rest))
  {
    var a, b := TotalMs(s.start), TotalMs(s.start + s.duration);
    var number, timing := Padded(index, 0), Timing(Stamp(FieldsOf(a)), Stamp(FieldsOf(b)));
    DigitsAvoid(number, '\n');
    PaddedSpells(index, 0);
    TimingRoundTrip(a, b);
    CueReadsBack(number, timing, s.text, rest, CueOf(index, s));
  }

  lemma ParseOneCue(s: string, cue: Cue, rest: string, cues: seq<Cue>)
    ensures ParseCue(s) == Some((cue, rest)) && ParseSrt(rest) == Some(cues) ==> ParseSrt(s) == Some([cue] + cues)
  {
  }

  /** Wherever `text` stands as a block, it reads as `cue`. */
  ghost predicate ReadsAs(text: string, cue: Cue) {
    forall rest :: ParseCue(text + ("\n" + rest)) == Some((cue, rest))
  }

  lemma {:induction false} BlocksReadBack(texts: seq<string>, cues: seq<Cue>)
    requires |texts| == |cues| && forall i | 0 <= i < |texts| :: ReadsAs(texts[i], cues[i])
    ensures ParseSrt(Blocks(texts)) == Some(cues)
  {
    if texts != [] {
      assert ReadsAs(texts[0], cues[0]);
      BlocksReadBack(texts[1..], cues[1..]);
      ParseOneCue(Blocks(texts), cues[0], Blocks(texts[1..]), cues[1..]);
      assert cues == [cues[0]] + cues[1..];
    }
  }

  lemma BlockReadsAs(text: string, index: nat, s: Snippet)
    requires OneLine(s) && text == CueText(index, s)
    ensures ReadsAs(text, CueOf(index, s))
  {
    forall rest
      ensures ParseCue(text + ("\n" + rest)) == Some((CueOf(index, s), rest))
    {
      CueRoundTrip(index, s, rest);
    }
  }

  lemma NthCueReadsAs(snippets: seq<Snippet>, i: nat)
    requires i < |snippets| && OneLine(snippets[i])
    ensures ReadsAs(CueTexts(snippets)[i], CuesOf(snippets)[i])
  {
    var text, cue := CueTexts(snippets)[i], CuesOf(snippets)[i];
    assert cue == CueOf(i + 1, snippets[i]);
    BlockReadsAs(text, i + 1, snippets[i]);
  }

  lemma CuesRoundTrip(snippets: seq<Snippet>)
    requires forall i | 0 <= i < |snippets| :: OneLine(snippets[i])
    ensures ParseSrt(Blocks(CueTexts(snippets))) == Some(CuesOf(snippets))
  {
    forall i | 0 <= i < |snippets|
      ensures ReadsAs(CueTexts(snippets)[i], CuesOf(snippets)[i])
    {
      NthCueReadsAs(snippets, i);
    }
    BlocksReadBack(CueTexts(snippets), CuesOf(snippets));
  }

  lemma {:induction false} ParsedTextsAreOneLine(s: string)
    ensures ParseSrt(s).Some? ==> forall i | 0 <= i < |ParseSrt(s).value| :: '\n' !in ParseSrt(s).value[i].text
    decreases |s|
  {
    if s != "" && ParseCue(s).Some? {
      ThirdLineIsOneLine(s);
      ParsedTextsAreOneLine(ParseCue(s).value.1);
    }
  }

  lemma ReadBackMeansOneLine(srt: string, snippets: seq<Snippet>, i: nat)
    requires i < |snippets|
    ensures ParseSrt(srt) == Some(CuesOf(snippets)) ==> OneLine(snippets[i])
  {
    ParsedTextsAreOneLine(srt);
    assert CuesOf(snippets)[i].text == snippets[i].text;
  }

  /** The file says exactly what the snippets say, numbered from 1 with times in rounded
      milliseconds, if and only if no text contains a line break. */
  lemma SrtRoundTripIffOneLine(snippets: seq<Snippet>, srt: string)
    requires srt == Blocks(CueTexts(snippets))
    ensures ParseSrt(srt) == Some(CuesOf(snippets)) <==> forall i | 0 <= i < |snippets| :: OneLine(snippets[i])
  {
    if forall i | 0 <= i < |snippets| :: OneLine(snippets[i]) {
      CuesRoundTrip(snippets);
    }
    if ParseSrt(srt) == Some(CuesOf(snippets)) {
      forall i | 0 <= i < |snippets|
        ensures OneLine(snippets[i])
      {
        ReadBackMeansOneLine(srt, snippets, i);
      }
    }
  }
}
