/**
 Chapters: cleaning up what the model proposes, and trying at most once per transcript.

 The clean-up starts after JSON decoding. None is an entry that lacks a field or has one
 of the wrong kind; titles are as they are after stripping.
 */
module Chapters {
  import opened Wrappers
  import opened TranscriptCache

  const MAX_CHAPTERS := 32
  const MAX_TITLE := 200
  const SLACK_SECONDS := 5.0

  function Take<T>(xs: seq<T>, n: nat): seq<T> {
    if n < |xs| then xs[..n] else xs
  }

  predicate IsValid(entry: Option<Chapter>) {
    entry.Some? && entry.value.title != "" && 0.0 <= entry.value.start < entry.value.end
  }

  /** An end well past a known duration is pulled back to it. */
  function Clamped(end: real, duration: real): real {
    if duration != 0.0 && end > duration + SLACK_SECONDS then duration else end
  }

  function Cleaned(c: Chapter, duration: real): Chapter {
    Chapter(c.start, Clamped(c.end, duration), Take(c.title, MAX_TITLE))
  }

  /** The valid entries, cleaned. */
  function ValidOnes(raw: seq<Option<Chapter>>, duration: real): seq<Chapter> {
    if raw == [] then []
    else
      var before := ValidOnes(raw[..|raw| - 1], duration);
      var last := raw[|raw| - 1];
      if IsValid(last) then before + [Cleaned(last.value, duration)] else before
  }

  /** Chapter `i` starts later than every chapter before it. */
  predicate IsRecord(chapters: seq<Chapter>, i: nat)
    requires i < |chapters|
  {
    forall j | 0 <= j < i :: chapters[j].start < chapters[i].start
  }

  /** The strict left-to-right records, by start. */
  function Records(chapters: seq<Chapter>): seq<Chapter> {
    if chapters == [] then []
    else
      var n := |chapters| - 1;
      if IsRecord(chapters, n) then Records(chapters[..n]) + [chapters[n]] else Records(chapters[..n])
  }

  predicate InSource(raw: seq<Option<Chapter>>, c: Chapter, duration: real) {
    exists i | 0 <= i < |raw| :: IsValid(raw[i]) && c == Cleaned(raw[i].value, duration)
  }

  /** Chapter `c` is what an entry with these fields comes out as: the entry has a title and
      ends after it starts, not before zero; its title may be cut, and its end pulled back. */
  predicate Renders(entry: Option<Chapter>, c: Chapter, duration: real) {
    && entry.Some?
    && 0.0 <= entry.value.start < entry.value.end && c.start == entry.value.start
    && c.title <= entry.value.title && 1 <= |c.title| <= MAX_TITLE
    && (|c.title| < MAX_TITLE ==> c.title == entry.value.title)
    && (c.end == entry.value.end ||
        (duration != 0.0 && c.end == duration && duration + SLACK_SECONDS < entry.value.end))
  }

  lemma {:induction false} ValidOnesCome(raw: seq<Option<Chapter>>, duration: real, c: Chapter)
    ensures c in ValidOnes(raw, duration) <==> InSource(raw, c, duration)
    decreases |raw|
  {
    if raw != [] {
      var n := |raw| - 1;
      ValidOnesCome(raw[..n], duration, c);
      assert InSource(raw, c, duration) <==>
             InSource(raw[..n], c, duration) || (IsValid(raw[n]) && c == Cleaned(raw[n].value, duration)) by {
        if InSource(raw[..n], c, duration) {
          var i :| 0 <= i < n && IsValid(raw[..n][i]) && c == Cleaned(raw[..n][i].value, duration);
          assert raw[i] == raw[..n][i];
        }
        if InSource(raw, c, duration) {
          var i :| 0 <= i < |raw| && IsValid(raw[i]) && c == Cleaned(raw[i].value, duration);
          if i < n { assert raw[..n][i] == raw[i]; }
        }
      }
    }
  }

  lemma ValidOnesStartLate(raw: seq<Option<Chapter>>, duration: real)
    ensures forall c | c in ValidOnes(raw, duration) :: 0.0 <= c.start
  {
    forall c | c in ValidOnes(raw, duration)
      ensures 0.0 <= c.start
    {
      ValidOnesCome(raw, duration, c);
    }
  }

  /** The two loops of the clean-up. The second keeps a running last start, which comes to
      comparing with every chapter before. */
  method ParseChapters(raw: seq<Option<Chapter>>, duration: real) returns (monotonic: seq<Chapter>)
    ensures monotonic == Records(ValidOnes(Take(raw, MAX_CHAPTERS), duration))
  {
    var taken := Take(raw, MAX_CHAPTERS);
    var chapters := CollectValid(taken, duration);
    ValidOnesStartLate(taken, duration);
    monotonic := KeepRecords(chapters);
  }

  method CollectValid(entries: seq<Option<Chapter>>, duration: real) returns (chapters: seq<Chapter>)
    ensures chapters == ValidOnes(entries, duration)
  {
    chapters := [];
    for k := 0 to |entries|
      invariant chapters == ValidOnes(entries[..k], duration)
    {
      assert entries[..k + 1][..k] == entries[..k];
      if entries[k].None? {
        continue;
      }
      var start, end, title := entries[k].value.start, entries[k].value.end, entries[k].value.title;
      if title == "" {
        continue;
      }
      if start < 0.0 || end <= start {
        continue;
      }
      if duration != 0.0 && end > duration + SLACK_SECONDS {
        end := duration;
      }
      chapters := chapters + [Chapter(start, end, Take(title, MAX_TITLE))];
    }
    assert entries[..|entries|] == entries;
  }

  /** The latest start among the first `k` chapters, or -1 for none. */
  ghost predicate IsLatest(chapters: seq<Chapter>, k: nat, start: real)
    requires k <= |chapters|
  {
    && (forall j | 0 <= j < k :: chapters[j].start <= start)
    && (start == -1.0 || exists j | 0 <= j < k :: chapters[j].start == start)
  }

  lemma RecordIffLater(chapters: seq<Chapter>, k: nat, start: real)
    requires k < |chapters| && IsLatest(chapters, k, start) && 0.0 <= chapters[k].start
    ensures IsRecord(chapters[..k + 1], k) <==> chapters[k].start > start
    ensures IsLatest(chapters, k + 1, if chapters[k].start > start then chapters[k].start else start)
  {
    assert forall j | 0 <= j <= k :: chapters[..k + 1][j] == chapters[j];
  }

  method KeepRecords(chapters: seq<Chapter>) returns (monotonic: seq<Chapter>)
    requires forall c | c in chapters :: 0.0 <= c.start
    ensures monotonic == Records(chapters)
  {
    monotonic := [];
    var lastStart := -1.0;
    for k := 0 to |chapters|
      invariant monotonic == Records(chapters[..k])
      invariant IsLatest(chapters, k, lastStart)
    {
      assert chapters[..k + 1][..k] == chapters[..k];
      assert chapters[k] in chapters;
      RecordIffLater(chapters, k, lastStart);
      if chapters[k].start > lastStart {
        monotonic := monotonic + [chapters[k]];
        lastStart := chapters[k].start;
      }
    }
    assert chapters[..|chapters|] == chapters;
  }

  // ---------- What the result is like ----------

  lemma {:induction false} RecordsRise(chapters: seq<Chapter>)
    ensures |Records(chapters)| <= |chapters|
    ensures forall c | c in Records(chapters) :: c in chapters
    ensures forall i, j | 0 <= i < j < |Records(chapters)| :: Records(chapters)[i].start < Records(chapters)[j].start
    decreases |chapters|
  {
    if chapters != [] {
      var n := |chapters| - 1;
      RecordsRise(chapters[..n]);
      forall c | c in Records(chapters[..n])
        ensures c in chapters
        ensures IsRecord(chapters, n) ==> c.start < chapters[n].start
      {
        assert c in chapters[..n];
        var j :| 0 <= j < n && chapters[..n][j] == c;
        assert chapters[j] == c;
      }
    }
  }

  lemma {:induction false} AtMostAsMany(raw: seq<Option<Chapter>>, duration: real)
    ensures |ValidOnes(raw, duration)| <= |raw|
    decreases |raw|
  {
    if raw != [] { AtMostAsMany(raw[..|raw| - 1], duration); }
  }

  /** The result has at most 32 chapters, each from a valid entry, with starts from zero
      on and strictly increasing, titles of 1 to 200 characters, and no end more than five
      seconds past a known duration. */
  lemma ResultIsClean(raw: seq<Option<Chapter>>, duration: real, result: seq<Chapter>)
    requires result == Records(ValidOnes(Take(raw, MAX_CHAPTERS), duration))
    ensures |result| <= MAX_CHAPTERS
    ensures forall i, j | 0 <= i < j < |result| :: result[i].start < result[j].start
    ensures forall c | c in result ::
              && (exists i | 0 <= i < |raw| && i < MAX_CHAPTERS :: Renders(raw[i], c, duration))
              && 0.0 <= c.start && 1 <= |c.title| <= MAX_TITLE
              && (duration != 0.0 ==> c.end <= duration + SLACK_SECONDS)
  {
    var taken := Take(raw, MAX_CHAPTERS);
    var valid := ValidOnes(taken, duration);
    RecordsRise(valid);
    AtMostAsMany(taken, duration);
    forall c | c in result
      ensures InSource(taken, c, duration)
      ensures exists i | 0 <= i < |raw| && i < MAX_CHAPTERS :: Renders(raw[i], c, duration)
    {
      assert c in valid;
      ValidOnesCome(taken, duration, c);
      var i :| 0 <= i < |taken| && IsValid(taken[i]) && c == Cleaned(taken[i].value, duration);
      assert raw[i] == taken[i] && Renders(raw[i], c, duration);
    }
  }

  lemma {:induction false} RecordsCover(chapters: seq<Chapter>, i: nat)
    requires i < |chapters|
    ensures exists c | c in Records(chapters) :: chapters[i].start <= c.start
    decreases |chapters|, i
  {
    var n := |chapters| - 1;
    var before := chapters[..n];
    if i < n {
      RecordsCover(before, i);
      var c :| c in Records(before) && before[i].start <= c.start;
      assert c in Records(chapters);
    } else if IsRecord(chapters, n) {
      assert chapters[n] in Records(chapters);
    } else {
      var j :| 0 <= j < n && chapters[j].start >= chapters[n].start;
      RecordsCover(before, j);
      var c :| c in Records(before) && before[j].start <= c.start;
      assert c in Records(chapters);
    }
  }

  /** No entry with a title that ends after it starts, not before zero, is lost for nothing:
      the result has a chapter that starts where it does or later. */
  lemma ValidEntriesAreCovered(raw: seq<Option<Chapter>>, duration: real, result: seq<Chapter>, i: nat)
    requires result == Records(ValidOnes(Take(raw, MAX_CHAPTERS), duration))
    requires i < |raw| && i < MAX_CHAPTERS && raw[i].Some?
    requires raw[i].value.title != "" && 0.0 <= raw[i].value.start < raw[i].value.end
    ensures exists c | c in result :: raw[i].value.start <= c.start
  {
    var taken := Take(raw, MAX_CHAPTERS);
    var valid := ValidOnes(taken, duration);
    assert taken[i] == raw[i] && IsValid(taken[i]);
    ValidOnesCome(taken, duration, Cleaned(raw[i].value, duration));
    var k :| 0 <= k < |valid| && valid[k] == Cleaned(raw[i].value, duration);
    RecordsCover(valid, k);
  }

  predicate RecordAt(chapters: seq<Chapter>, c: Chapter, i: nat) {
    i < |chapters| && chapters[i] == c && IsRecord(chapters, i)
  }

  lemma SamePlace(chapters: seq<Chapter>, c: Chapter, i: nat)
    requires i + 1 < |chapters|
    ensures RecordAt(chapters[..|chapters| - 1], c, i) <==> RecordAt(chapters, c, i)
  {
    var before := chapters[..|chapters| - 1];
    assert forall j | 0 <= j <= i :: before[j] == chapters[j];
  }

  /** A chapter is kept exactly when it starts later than all before it: a start that is
      kept has no valid rival at or before its place. */
  lemma {:induction false} KeptIffRecord(chapters: seq<Chapter>, c: Chapter)
    ensures c in Records(chapters) <==> exists i :: RecordAt(chapters, c, i)
    decreases |chapters|
  {
    if chapters != [] {
      var n := |chapters| - 1;
      KeptIffRecord(chapters[..n], c);
      forall i | 0 <= i < n
        ensures RecordAt(chapters[..n], c, i) <==> RecordAt(chapters, c, i)
      {
        SamePlace(chapters, c, i);
      }
      assert RecordAt(chapters, c, n) <==> chapters[n] == c && IsRecord(chapters, n);
    }
  }

  /** The clamp can turn a valid entry around. A cleaned chapter still ends after it starts
      exactly when it was not clamped or starts before the duration. */
  lemma EndAfterStartIff(entry: Chapter, duration: real)
    requires IsValid(Some(entry))
    ensures var c := Cleaned(entry, duration);
      c.start < c.end <==> duration == 0.0 || entry.end <= duration + SLACK_SECONDS || entry.start < duration
  {
  }

  /** A valid entry that comes out ending before it starts. */
  lemma ClampTurnsChapterAround()
    ensures var raw := [Some(Chapter(100.0, 200.0, "Outro"))];
      IsValid(raw[0]) && Records(ValidOnes(Take(raw, MAX_CHAPTERS), 50.0)) == [Chapter(100.0, 50.0, "Outro")]
  {
    var raw := [Some(Chapter(100.0, 200.0, "Outro"))];
    assert raw[..0] == [];
    assert ValidOnes(raw, 50.0) == [Chapter(100.0, 50.0, "Outro")];
    assert [Chapter(100.0, 50.0, "Outro")][..0] == [];
  }

  // ---------- Trying once ----------

  /** What the published metadata yields. The fetch answers None on any failure of its own,
      so raising is left to what the caller cannot rule out, like a cancelled request. */
  datatype Metadata = Published(chapters: seq<Chapter>) | Unpublished | MetadataRaised

  /** What asking the model yields. A model that fails, or a transcript too long to ask
      about, derives no chapters; anything else that goes wrong raises, the daily cost
      cap first of all. */
  datatype Derivation = Derived(chapters: seq<Chapter>) | DerivationRaised

  /** A call came to nothing: neither source gave an answer. */
  predicate Raises(record: CacheRow, metadata: Metadata, derivation: Derivation) {
    record.chapters.None? && (metadata.MetadataRaised? || (metadata.Unpublished? && derivation.DerivationRaised?))
  }

  /** A call on row `k`, read as `record`, answered `r` (None for raising) and took the table
      from `t` to `u`. Published chapters go before derived ones, a stored list before both;
      only a fresh answer is written, and only to the chapter column of the row, if there. */
  predicate Answers(t: Table, u: Table, k: CacheKey, record: CacheRow, metadata: Metadata, derivation: Derivation,
                    r: Option<seq<Chapter>>)
  {
    && (r.None? <==> Raises(record, metadata, derivation))
    && (record.chapters.Some? ==> r == record.chapters)
    && (record.chapters.None? && r.Some? ==>
          r == Some(if metadata.Published? then metadata.chapters else derivation.chapters))
    && u.Keys == t.Keys
    && (forall x | x in t :: u[x] == if x == k && record.chapters.None? && r.Some? then t[x].(chapters := r) else t[x])
  }

  class ChapterStore {
    var table: Table

    constructor (table: Table)
      ensures this.table == table
    {
      this.table := table;
    }

    /** `metadata` and `derivation` are what the two sources would come to. */
    method GetOrCompute(k: CacheKey, record: CacheRow, metadata: Metadata, derivation: Derivation)
      returns (r: Option<seq<Chapter>>)
      modifies this
      ensures Answers(old(table), table, k, record, metadata, derivation, r)
    {
      if record.chapters.Some? {
        return record.chapters;
      }
      match metadata {
        case MetadataRaised => return None;
        case Published(chapters) =>
          table := PutChapters(table, k, Some(chapters));
          return Some(chapters);
        case Unpublished =>
          match derivation {
            case DerivationRaised => return None;
            case Derived(chapters) =>
              table := PutChapters(table, k, Some(chapters));
              return Some(chapters);
          }
      }
    }
  }

  /** Every later call on the row gives the answer of the first, and writes nothing. */
  ghost predicate SettledBy(t: Table, k: CacheKey, later: nat, r: Option<seq<Chapter>>) {
    forall metadata: Metadata, derivation: Derivation, u: Table, again: Option<seq<Chapter>> |
      GetTranscript(t, k, later).Some?
          && Answers(t, u, k, GetTranscript(t, k, later).value, metadata, derivation, again) ::
      again == r && u == t
  }

  lemma StoredAnswerStays(t: Table, t1: Table, k: CacheKey, now: nat, later: nat, metadata: Metadata,
                          derivation: Derivation, r: Option<seq<Chapter>>)
    requires GetTranscript(t, k, now).Some? && r.Some?
    requires Answers(t, t1, k, GetTranscript(t, k, now).value, metadata, derivation, r)
    ensures SettledBy(t1, k, later, r)
  {
    assert t1[k].chapters == r;
  }

  /** One attempt per row, if the attempt comes to an answer, also an empty one: every later
      call repeats the first exactly when the first returned. One that raised, as on the
      daily cost cap, leaves the column NULL and the next call tries again. */
  lemma SettledIffReturned(t: Table, t1: Table, k: CacheKey, now: nat, later: nat, metadata: Metadata,
                           derivation: Derivation, r: Option<seq<Chapter>>)
    requires GetTranscript(t, k, now).Some? && GetTranscript(t1, k, later).Some?
    requires Answers(t, t1, k, GetTranscript(t, k, now).value, metadata, derivation, r)
    ensures SettledBy(t1, k, later, r) <==> r.Some?
    ensures r.None? ==> t1 == t && t1[k].chapters.None?
  {
    if r.Some? {
      StoredAnswerStays(t, t1, k, now, later, metadata, derivation, r);
    } else {
      assert t1 == t;
      var u := PutChapters(t1, k, Some([]));
      assert Answers(t1, u, k, GetTranscript(t1, k, later).value, Unpublished, Derived([]), Some([]));
    }
  }

  /** A call changes nothing but the chapter column of its own row. */
  lemma OnlyTheChapterColumn(t: Table, u: Table, k: CacheKey, record: CacheRow, metadata: Metadata,
                             derivation: Derivation, r: Option<seq<Chapter>>, x: CacheKey)
    requires Answers(t, u, k, record, metadata, derivation, r)
    ensures x in u <==> x in t
    ensures x in t ==> u[x] == if x == k then t[x].(chapters := u[x].chapters) else t[x]
  {
    assert x in u.Keys <==> x in t.Keys;
  }

  /** The whole attempt for a transcript: the model's proposal is cleaned up before it is
      stored, so what the row ends up with is as clean as `ResultIsClean` says. */
  lemma DerivedChaptersAreClean(t: Table, t1: Table, k: CacheKey, record: CacheRow, raw: seq<Option<Chapter>>,
                                duration: real, proposal: seq<Chapter>, r: Option<seq<Chapter>>)
    requires k in t && record.chapters.None?
    requires proposal == Records(ValidOnes(Take(raw, MAX_CHAPTERS), duration))
    requires Answers(t, t1, k, record, Unpublished, Derived(proposal), r)
    ensures t1[k].chapters == Some(proposal) && |proposal| <= MAX_CHAPTERS
    ensures forall i, j | 0 <= i < j < |proposal| :: proposal[i].start < proposal[j].start
  {
    ResultIsClean(raw, duration, proposal);
  }
}
