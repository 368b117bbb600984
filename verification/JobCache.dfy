/** The transcript cache under every interleaving of requests and workers. */
module JobCache {
  import opened Wrappers
  import opened TranscriptCache
  import opened JobProtocol
  import opened JobInvariants
  import opened JobTheorems

  datatype WriteKind = FullUpsert | SpeakerTags

  /** What last wrote a row's snippets, and when and from which source the row was last fully
      upserted. */
  datatype Write = Write(kind: WriteKind, upsertedAt: nat, source: Source, snippets: seq<Snippet>)

  /** The cache key that an event fully upserts, if it does. */
  function UpsertKey(s: State, e: Event): Option<CacheKey> {
    match e
    case Transcribed(j, Some(out)) =>
      if j in s.procs then Some(CacheKey(s.procs[j].video, ResultLanguage(s.procs[j], out))) else None
    case PutCaptions(k, _) => Some(k)
    case _ => None
  }

  /** The write that an upsert event makes. */
  function UpsertOf(s: State, e: Event): Write
    requires UpsertKey(s, e).Some?
  {
    match e
    case Transcribed(_, Some(out)) => Write(FullUpsert, s.now, out.source, out.snippets)
    case PutCaptions(_, snippets) => Write(FullUpsert, s.now, YoutubeCaptions, snippets)
  }

  /** The cache key that an event tries to tag, if it does. */
  function TagKey(s: State, e: Event): Option<CacheKey> {
    match e
    case TagCommit(j, Some(_)) =>
      if j in s.procs then Some(CacheKey(s.procs[j].video, s.procs[j].language)) else None
    case _ => None
  }

  /** The last snippet write to `k`, read off the events of the run alone. */
  ghost function LastWrite(es: seq<Event>, k: CacheKey): Option<Write>
    requires IsRun(es)
    decreases |es|
  {
    if es == [] then None
    else
      var before := es[..|es| - 1];
      var s, e := Exec(before), es[|es| - 1];
      var w := LastWrite(before, k);
      assert Enabled(s, e);
      if UpsertKey(s, e) == Some(k) then Some(UpsertOf(s, e))
      else if TagKey(s, e) == Some(k) && w.Some? then
        Some(w.value.(kind := SpeakerTags, snippets := Tag(s.procs[e.job].pc.read, e.labels.value)))
      else if e == PurgeVideo(k.video) then None
      else w
  }

  /** Row `k` stands exactly as a history `w` of writes says it must. */
  ghost predicate RowReflects(c: Table, k: CacheKey, w: Option<Write>) {
    && (k in c <==> w.Some?)
    && (k in c ==>
          && c[k].source == w.value.source && c[k].snippets == w.value.snippets
          && (c[k].hasDiarization <==> w.value.kind == SpeakerTags)
          && (Tagged(c[k].snippets) ==> c[k].hasDiarization)
          && c[k].fetchedAt == w.value.upsertedAt
          && c[k].expiresAt == w.value.upsertedAt + CACHE_TTL_SECONDS)
  }

  lemma OthersLeaveRow(s: State, e: Event, k: CacheKey)
    requires Enabled(s, e) && UpsertKey(s, e) != Some(k) && TagKey(s, e) != Some(k) && e != PurgeVideo(k.video)
    ensures k in Apply(s, e).cache <==> k in s.cache
    ensures k in s.cache ==>
              Apply(s, e).cache[k] == s.cache[k] ||
              (e.StoreChapters? && e.entry == k && Apply(s, e).cache[k] == s.cache[k].(chapters := Some(e.chapters)))
  {
    if EnqueuerEvent(e) {
      EnqueuersLeaveCache(s, e);
    } else if MarkEvent(e) {
      MarksLeaveCache(s, e);
    }
  }

  lemma EnqueuersLeaveCache(s: State, e: Event)
    requires Enabled(s, e) && EnqueuerEvent(e)
    ensures Apply(s, e).cache == s.cache
  {
  }

  lemma MarksLeaveCache(s: State, e: Event)
    requires Enabled(s, e) && MarkEvent(e)
    ensures Apply(s, e).cache == s.cache
  {
  }

  lemma UpsertsRefreshRow(s: State, e: Event, k: CacheKey)
    requires Enabled(s, e) && UpsertKey(s, e) == Some(k)
    ensures RowReflects(Apply(s, e).cache, k, Some(UpsertOf(s, e)))
    ensures Apply(s, e).cache[k].chapters == if k in s.cache then s.cache[k].chapters else None
  {
    assert e.Transcribed? || e.PutCaptions?;
  }

  lemma TagsTouchExistingRow(s: State, e: Event, k: CacheKey)
    requires Enabled(s, e) && TagKey(s, e) == Some(k)
    ensures k in Apply(s, e).cache <==> k in s.cache
    ensures k in s.cache ==>
              && e.TagCommit? && e.job in s.procs && s.procs[e.job].pc.Tagging? && e.labels.Some?
              && |e.labels.value| == |s.procs[e.job].pc.read|
              && Apply(s, e).cache[k] == s.cache[k].(snippets := Tag(s.procs[e.job].pc.read, e.labels.value),
                                                     hasDiarization := true)
  {
  }

  /** A row holds the source of its last full upsert and the snippets that were last written.
      The diarization flag is set exactly when those are the diarization worker's; speaker
      tags never appear without it; and a row's expiry counts from its last full upsert. */
  lemma {:induction false} CacheReflectsWrites(es: seq<Event>, k: CacheKey)
    requires IsRun(es)
    ensures RowReflects(Exec(es).cache, k, LastWrite(es, k))
    decreases |es|
  {
    if es != [] {
      var before := es[..|es| - 1];
      var s, e := Exec(before), es[|es| - 1];
      CacheReflectsWrites(before, k);
      if UpsertKey(s, e) == Some(k) {
        UpsertsRefreshRow(s, e, k);
      } else if TagKey(s, e) == Some(k) {
        TagsTouchExistingRow(s, e, k);
      } else if e != PurgeVideo(k.video) {
        OthersLeaveRow(s, e, k);
      }
    }
  }

  /** A transcript is served exactly while the TTL of its last full upsert runs; tagging
      and chapters never extend it. */
  lemma ServedWithinTtlOnly(es: seq<Event>, k: CacheKey)
    requires IsRun(es)
    ensures GetTranscript(Exec(es).cache, k, Exec(es).now).Some? <==>
              LastWrite(es, k).Some? && Exec(es).now < LastWrite(es, k).value.upsertedAt + CACHE_TTL_SECONDS
  {
    CacheReflectsWrites(es, k);
  }

  ghost predicate ChaptersTried(s: State, k: CacheKey) {
    k in s.cache && s.cache[k].chapters.Some?
  }

  lemma ChaptersSurviveStep(s: State, e: Event, k: CacheKey)
    requires Enabled(s, e) && ChaptersTried(s, k) && e != PurgeVideo(k.video)
    ensures ChaptersTried(Apply(s, e), k)
    ensures !(e.StoreChapters? && e.entry == k) ==> Apply(s, e).cache[k].chapters == s.cache[k].chapters
  {
    if UpsertKey(s, e) == Some(k) {
      UpsertsRefreshRow(s, e, k);
    } else if TagKey(s, e) == Some(k) {
      TagsTouchExistingRow(s, e, k);
    } else {
      OthersLeaveRow(s, e, k);
    }
  }

  /** Once chapters were tried, only a purge of the video forgets it: not a refresh of
      the transcript, not a diarization, not time. */
  lemma {:induction false} ChaptersForgottenOnlyByPurge(es: seq<Event>, i: nat, n: nat, k: CacheKey)
    requires IsRun(es) && i <= n <= |es| && ChaptersTried(StateAt(es, i), k)
    requires forall m | i <= m < n :: es[m] != PurgeVideo(k.video)
    ensures ChaptersTried(StateAt(es, n), k)
    decreases n
  {
    if i < n {
      ChaptersForgottenOnlyByPurge(es, i, n - 1, k);
      PlainStep(es, n - 1);
      ChaptersSurviveStep(StateAt(es, n - 1), es[n - 1], k);
    }
  }

  /** The last chapter list stored on an existing row `k` since its last purge, read off the
      events of the run. */
  ghost function LastChapters(es: seq<Event>, k: CacheKey): Option<seq<Chapter>>
    requires IsRun(es)
    decreases |es|
  {
    if es == [] then None
    else
      var before := es[..|es| - 1];
      var s, e := Exec(before), es[|es| - 1];
      if e.StoreChapters? && e.entry == k && k in s.cache then Some(e.chapters)
      else if e == PurgeVideo(k.video) then None
      else LastChapters(before, k)
  }

  /** What a row's chapter column holds; NULL also when there is no row. */
  function ChaptersOf(c: Table, k: CacheKey): Option<seq<Chapter>> {
    if k in c then c[k].chapters else None
  }

  lemma OthersLeaveChapters(s: State, e: Event, k: CacheKey)
    requires Enabled(s, e) && e != PurgeVideo(k.video) && !(e.StoreChapters? && e.entry == k)
    ensures ChaptersOf(Apply(s, e).cache, k) == ChaptersOf(s.cache, k)
  {
    if UpsertKey(s, e) == Some(k) {
      UpsertsRefreshRow(s, e, k);
    } else if TagKey(s, e) == Some(k) {
      TagsTouchExistingRow(s, e, k);
    } else {
      OthersLeaveRow(s, e, k);
    }
  }

  /** In every run the chapter column is the last list stored on the row since the last
      purge: refreshes and diarizations of the row do not count. */
  lemma {:induction false} ColumnIsLastChapters(es: seq<Event>, k: CacheKey)
    requires IsRun(es)
    ensures ChaptersOf(Exec(es).cache, k) == LastChapters(es, k)
    decreases |es|
  {
    if es != [] {
      var before := es[..|es| - 1];
      ColumnIsLastChapters(before, k);
      if es[|es| - 1] != PurgeVideo(k.video) && !(es[|es| - 1].StoreChapters? && es[|es| - 1].entry == k) {
        OthersLeaveChapters(Exec(before), es[|es| - 1], k);
      }
    }
  }

  // ---------- Tags and the words they annotate ----------

  /** A diarization commit leaves the words it loaded, so it keeps the row's words exactly
      when the row still holds the words that were loaded. */
  lemma CommitKeepsWordsIffUnchanged(s: State, j: JobId, labels: seq<Option<string>>, k: CacheKey)
    requires Enabled(s, TagCommit(j, Some(labels))) && k == CacheKey(s.procs[j].video, s.procs[j].language)
    requires k in s.cache
    ensures var t := Apply(s, TagCommit(j, Some(labels)));
      && k in t.cache
      && Words(t.cache[k].snippets) == Words(s.procs[j].pc.read)
      && (Words(t.cache[k].snippets) == Words(s.cache[k].snippets) <==>
          Words(s.cache[k].snippets) == Words(s.procs[j].pc.read))
  {
    TagsTouchExistingRow(s, TagCommit(j, Some(labels)), k);
  }

  /** The commit checks only that a row exists. A refresh that lands between load and
      commit is overwritten by the older words, whatever both transcripts say. */
  lemma RefreshDuringDiarizationIsLost(s: State, j: JobId, labels: seq<Option<string>>, refreshed: seq<Snippet>)
    requires Inv(s) && j in s.procs && s.procs[j].pc.Tagging? && |labels| == |s.procs[j].pc.read|
    requires !Tagged(refreshed) && Words(refreshed) != Words(s.procs[j].pc.read)
    ensures var k := CacheKey(s.procs[j].video, s.procs[j].language);
      var e1, e2 := PutCaptions(k, refreshed), TagCommit(j, Some(labels));
      && Enabled(s, e1) && Enabled(Apply(s, e1), e2)
      && Apply(s, e1).cache[k].snippets == refreshed
      && Words(Apply(Apply(s, e1), e2).cache[k].snippets) != Words(refreshed)
      && Apply(Apply(s, e1), e2).cache[k].hasDiarization
  {
    var k := CacheKey(s.procs[j].video, s.procs[j].language);
    var t := Apply(s, PutCaptions(k, refreshed));
    TagsTouchExistingRow(t, TagCommit(j, Some(labels)), k);
  }

  /** Event number `m` leaves row `k` alone and is not a step of `j`. */
  ghost predicate Undisturbed(es: seq<Event>, m: nat, j: JobId, k: CacheKey)
    requires IsRun(es) && m < |es|
  {
    && es[m].Actor() != Some(j)
    && UpsertKey(StateAt(es, m), es[m]) != Some(k)
    && TagKey(StateAt(es, m), es[m]) != Some(k)
    && es[m] != PurgeVideo(k.video)
  }

  /** The snippets that job `j` holds for tagging are still those of row `k`. */
  ghost predicate HoldsRow(s: State, j: JobId, k: CacheKey) {
    && j in s.procs && s.procs[j].pc.Tagging?
    && k == CacheKey(s.procs[j].video, s.procs[j].language)
    && k in s.cache && s.cache[k].snippets == s.procs[j].pc.read
  }

  lemma LoadHoldsRow(s: State, e: Event, j: JobId)
    requires Enabled(s, e) && e.LoadTranscript? && e.job == j
    requires j in Apply(s, e).procs && Apply(s, e).procs[j].pc.Tagging?
    ensures HoldsRow(Apply(s, e), j, CacheKey(s.procs[j].video, s.procs[j].language))
  {
  }

  lemma StepKeepsHeld(s: State, e: Event, j: JobId, k: CacheKey)
    requires Enabled(s, e) && HoldsRow(s, j, k) && e.Actor() != Some(j)
    requires UpsertKey(s, e) != Some(k) && TagKey(s, e) != Some(k) && e != PurgeVideo(k.video)
    ensures HoldsRow(Apply(s, e), j, k)
  {
    BystandersKeep(s, e, j);
    OthersLeaveRow(s, e, k);
  }

  lemma {:induction false} RowStaysHeld(es: seq<Event>, i: nat, n: nat, j: JobId, k: CacheKey)
    requires IsRun(es) && i <= n <= |es| && HoldsRow(StateAt(es, i), j, k)
    requires forall m | i <= m < n :: Undisturbed(es, m, j, k)
    ensures HoldsRow(StateAt(es, n), j, k)
    decreases n
  {
    if i < n {
      RowStaysHeld(es, i, n - 1, j, k);
      PlainStep(es, n - 1);
      assert Undisturbed(es, n - 1, j, k);
      StepKeepsHeld(StateAt(es, n - 1), es[n - 1], j, k);
    }
  }

  /** Without a refresh, purge or other tagging of the row between load (event `i`) and
      commit (event `n`), diarization leaves every word of the row in place. */
  lemma UndisturbedTaggingKeepsWords(es: seq<Event>, i: nat, n: nat, j: JobId, k: CacheKey)
    requires IsRun(es) && i < n < |es|
    requires es[i].LoadTranscript? && es[i].job == j && j in StateAt(es, i).procs
    requires k == CacheKey(StateAt(es, i).procs[j].video, StateAt(es, i).procs[j].language)
    requires j in StateAt(es, i + 1).procs && StateAt(es, i + 1).procs[j].pc.Tagging?
    requires es[n].TagCommit? && es[n].job == j && es[n].labels.Some?
    requires forall m | i < m < n :: Undisturbed(es, m, j, k)
    ensures k in StateAt(es, n).cache && k in StateAt(es, n + 1).cache
    ensures Words(StateAt(es, n + 1).cache[k].snippets) == Words(StateAt(es, n).cache[k].snippets)
    ensures StateAt(es, n + 1).cache[k].hasDiarization
  {
    PlainStep(es, i);
    LoadHoldsRow(StateAt(es, i), es[i], j);
    RowStaysHeld(es, i + 1, n, j, k);
    PlainStep(es, n);
    TagsTouchExistingRow(StateAt(es, n), es[n], k);
  }

  // ---------- Whose labels a row holds ----------

  /** What diarization sees of `k` in state number `i` of a run. */
  ghost function Seen(es: seq<Event>, i: nat, k: CacheKey): Option<CacheRow>
    requires IsRun(es) && i <= |es|
  {
    GetTranscript(StateAt(es, i).cache, k, StateAt(es, i).now)
  }

  /** Event `i` is a load that let job `j` go on with the snippets `read`. */
  ghost predicate Loaded(es: seq<Event>, i: nat, j: JobId, k: CacheKey, read: seq<Snippet>) {
    && IsRun(es) && i < |es| && es[i] == LoadTranscript(j, true)
    && Seen(es, i, k).Some? && Seen(es, i, k).value.source != YoutubeCaptions
    && Seen(es, i, k).value.snippets == read
  }

  /** Event `n` is a commit of these labels on these snippets, and it landed. */
  ghost predicate Landed(es: seq<Event>, n: nat, j: JobId, k: CacheKey, read: seq<Snippet>,
                         labels: seq<Option<string>>)
  {
    && IsRun(es) && n < |es| && es[n] == TagCommit(j, Some(labels))
    && k in StateAt(es, n).cache && k in StateAt(es, n + 1).cache
    && Labelled(StateAt(es, n + 1).cache[k].snippets, read, labels)
    && StateAt(es, n + 1).cache[k].hasDiarization
  }

  lemma LoadHandsOver(s: State, e: Event, j: JobId)
    requires Enabled(s, e) && e.Actor() == Some(j)
    requires j in Apply(s, e).procs && Apply(s, e).procs[j].pc.Tagging?
    ensures e == LoadTranscript(j, true) && j in s.procs
    ensures var k := CacheKey(s.procs[j].video, s.procs[j].language);
      && Apply(s, e).procs[j] == s.procs[j].(pc := Apply(s, e).procs[j].pc)
      && GetTranscript(s.cache, k, s.now).Some?
      && GetTranscript(s.cache, k, s.now).value.source != YoutubeCaptions
      && GetTranscript(s.cache, k, s.now).value.snippets == Apply(s, e).procs[j].pc.read
  {
  }

  /** A job that is tagging holds what its own load saw. */
  lemma {:induction false} TaggingHoldsItsLoad(es: seq<Event>, n: nat, j: JobId) returns (i: nat)
    requires IsRun(es) && n <= |es| && j in StateAt(es, n).procs && StateAt(es, n).procs[j].pc.Tagging?
    ensures var p := StateAt(es, n).procs[j];
      i < n && Loaded(es, i, j, CacheKey(p.video, p.language), p.pc.read)
    decreases n
  {
    i := n - 1;
    PlainStep(es, i);
    var s, e := StateAt(es, i), es[i];
    if e.Actor() == Some(j) {
      LoadHandsOver(s, e, j);
    } else {
      if j !in s.procs { OnlyMintAddsProcs(s, e, j); }
      BystandersKeep(s, e, j);
      i := TaggingHoldsItsLoad(es, n - 1, j);
    }
  }

  /** In every run a diarization's commit on an existing row leaves there the labels it
      commits, on the snippets that the same job's load saw earlier: each snippet is spoken by
      its label, or as before where it has none. */
  lemma CommitStoresLabels(es: seq<Event>, n: nat, j: JobId, labels: seq<Option<string>>, k: CacheKey)
    returns (i: nat, read: seq<Snippet>)
    requires IsRun(es) && n < |es| && es[n] == TagCommit(j, Some(labels)) && j in StateAt(es, n).procs
    requires k == CacheKey(StateAt(es, n).procs[j].video, StateAt(es, n).procs[j].language)
    requires k in StateAt(es, n).cache
    ensures i < n && Loaded(es, i, j, k, read) && Landed(es, n, j, k, read, labels)
  {
    PlainStep(es, n);
    read := StateAt(es, n).procs[j].pc.read;
    TagsTouchExistingRow(StateAt(es, n), es[n], k);
    i := TaggingHoldsItsLoad(es, n, j);
  }
}
