/**
 The `transcripts` table and the partial writes of the cache layer.

 Each function is the effect of one committed statement. Times are whole
 seconds; snippet and chapter times are reals, in seconds.
 */
module TranscriptCache {
  import opened Wrappers

  datatype Source = YoutubeCaptions | WhisperOpenai | WhisperLocal

  datatype Snippet = Snippet(start: real, duration: real, text: string, speaker: Option<string>)

  datatype Chapter = Chapter(start: real, end: real, title: string)

  datatype CacheKey = CacheKey(video: string, language: string)

  /** One row. `chapters` is None for "never tried", Some([]) for "tried, got nothing". */
  datatype CacheRow = CacheRow(
    source: Source,
    snippets: seq<Snippet>,
    chapters: Option<seq<Chapter>>,
    hasDiarization: bool,
    fetchedAt: nat,
    expiresAt: nat)

  type Table = map<CacheKey, CacheRow>

  /** The default of 30 days, in seconds. */
  const CACHE_TTL_SECONDS: nat := 30 * 86400

  /** A row is served only while its expiry lies strictly in the future. */
  function GetTranscript(t: Table, k: CacheKey, now: nat): Option<CacheRow> {
    if k in t && t[k].expiresAt > now then Some(t[k]) else None
  }

  /** Upsert. On conflict every column is refreshed, except that a stored chapter
      list survives a record that carries none. */
  function PutTranscript(t: Table, k: CacheKey, source: Source, snippets: seq<Snippet>,
                         chapters: Option<seq<Chapter>>, hasDiarization: bool, now: nat): Table
  {
    var kept := if chapters.None? && k in t then t[k].chapters else chapters;
    t[k := CacheRow(source, snippets, kept, hasDiarization, now, now + CACHE_TTL_SECONDS)]
  }

  /** Partial update of the chapter column; a missing row is silently left missing. */
  function PutChapters(t: Table, k: CacheKey, chapters: Option<seq<Chapter>>): Table {
    if k in t then t[k := t[k].(chapters := chapters)] else t
  }

  /** The row count that `PutDiarization` reports. */
  function DiarizationRowcount(t: Table, k: CacheKey): nat {
    if k in t then 1 else 0
  }

  /** Partial update of snippets and flag. Unlike `GetTranscript` it ignores expiry. */
  function PutDiarization(t: Table, k: CacheKey, snippets: seq<Snippet>, hasDiarization: bool): Table {
    if k in t then t[k := t[k].(snippets := snippets, hasDiarization := hasDiarization)] else t
  }

  /** Delete every language row of a video. */
  function Purge(t: Table, video: string): Table {
    map k | k in t && k.video != video :: t[k]
  }

  /** The snippets that were read, each spoken by its label where it has one and as before
      where it has none. */
  ghost predicate Labelled(r: seq<Snippet>, read: seq<Snippet>, labels: seq<Option<string>>) {
    && |r| == |read| == |labels|
    && forall i | 0 <= i < |r| ::
         && r[i].start == read[i].start && r[i].duration == read[i].duration && r[i].text == read[i].text
         && r[i].speaker == if labels[i].Some? then labels[i] else read[i].speaker
  }

  /** What diarization may add to a snippet: a label where a speaker turn overlaps. */
  function Tag(snippets: seq<Snippet>, labels: seq<Option<string>>): (r: seq<Snippet>)
    requires |labels| == |snippets|
    ensures Labelled(r, snippets, labels)
    ensures Words(r) == Words(snippets)
  {
    var r := seq(|snippets|, i requires 0 <= i < |snippets| =>
      if labels[i].Some? then snippets[i].(speaker := labels[i]) else snippets[i]);
    assert forall i | 0 <= i < |snippets| :: Words(r)[i] == Words(snippets)[i];
    r
  }

  /** A snippet list with the speaker column blanked out. */
  function Words(snippets: seq<Snippet>): (r: seq<Snippet>)
    ensures |r| == |snippets|
    ensures forall i | 0 <= i < |r| ::
              && r[i].start == snippets[i].start && r[i].duration == snippets[i].duration
              && r[i].text == snippets[i].text && r[i].speaker.None?
  {
    seq(|snippets|, i requires 0 <= i < |snippets| => snippets[i].(speaker := None))
  }

  /** Does any snippet carry a speaker tag? */
  ghost predicate Tagged(snippets: seq<Snippet>) {
    exists i | 0 <= i < |snippets| :: snippets[i].speaker.Some?
  }
}
