/** Runs from empty stores that reach what the theorems allow: the bounds are exact, and
    the failures they leave open happen. */
module JobWitnesses {
  import opened Wrappers
  import opened TranscriptCache
  import opened JobProtocol
  import opened JobInvariants
  import opened JobTheorems
  import opened JobCache

  lemma LastApart(a: seq<Event>, b: seq<Event>)
    requires b != []
    ensures a + b == a + b[..|b| - 1] + [b[|b| - 1]]
  {
  }

  lemma {:induction false} RunThen(a: seq<Event>, b: seq<Event>)
    requires IsRun(a) && Reaches(Exec(a), b)
    ensures IsRun(a + b) && Exec(a + b) == After(Exec(a), b)
    decreases |b|
  {
    if b == [] {
      assert a + b == a;
    } else {
      var n := |b| - 1;
      RunThen(a, b[..n]);
      ReachesOneMore(INIT, a + b[..n], b[n]);
      LastApart(a, b);
    }
  }

  /** One more event of a run; `t` is the state it leads to. */
  lemma RunOne(es: seq<Event>, e: Event) returns (t: State)
    requires IsRun(es) && Enabled(Exec(es), e)
    ensures IsRun(es + [e]) && Exec(es + [e]) == t == Apply(Exec(es), e)
  {
    ReachesOneMore(INIT, es, e);
    t := Exec(es + [e]);
  }

  lemma LossesOne(es: seq<Event>, e: Event, k: LockKey)
    requires IsRun(es) && Enabled(Exec(es), e) && IsRun(es + [e])
    ensures Losses(es + [e], k) == Losses(es, k) + if LossOf(Exec(es), e, k) then 1 else 0
  {
    assert (es + [e])[..|es + [e]| - 1] == es;
  }

  lemma {:induction false} LossFreeAddsNone(a: seq<Event>, b: seq<Event>, k: LockKey)
    requires IsRun(a) && Reaches(Exec(a), b) && LossFree(Exec(a), b, k)
    ensures IsRun(a + b) && Losses(a + b, k) == Losses(a, k)
    decreases |b|
  {
    RunThen(a, b);
    if b == [] {
      assert a + b == a;
    } else {
      var n := |b| - 1;
      LossFreeAddsNone(a, b[..n], k);
      RunThen(a, b[..n]);
      LossesOne(a + b[..n], b[n], k);
      LastApart(a, b);
    }
  }

  // ---------- Losses, one job in flight for each ----------

  /** `k` is the only lock, just taken, and `n + 1` jobs of it are in flight. */
  ghost predicate Crowded(es: seq<Event>, n: nat, k: LockKey) {
    && IsRun(es)
    && var s := Exec(es);
       && Losses(es, k) == n && |InFlightAt(s, k)| == n + 1
       && k in s.locks && s.locks.Keys == {k} && s.locks[k].expiresAt == s.now + LOCK_TTL_SECONDS
  }

  /** Wait for the lock's TTL and let it expire. */
  lemma ExpireLock(es: seq<Event>, n: nat, k: LockKey) returns (fs: seq<Event>)
    requires Crowded(es, n, k)
    ensures IsRun(fs) && Losses(fs, k) == n + 1
    ensures Exec(fs).locks == map[] && InFlightAt(Exec(fs), k) == InFlightAt(Exec(es), k)
  {
    var tick := Tick(LOCK_TTL_SECONDS);
    var t := RunOne(es, tick);
    LossesOne(es, tick, k);
    fs := es + [tick];
    var u := RunOne(fs, Expire(k));
    LossesOne(fs, Expire(k), k);
    fs := fs + [Expire(k)];
    assert u.locks == map[];
  }

  /** A newcomer takes the free lock and inserts its row beside the others. */
  lemma AddNewcomer(es: seq<Event>, k: LockKey) returns (fs: seq<Event>, n: JobId)
    requires IsRun(es) && k !in Exec(es).locks
    ensures n !in Exec(es).procs && n !in Exec(es).rows
    ensures IsRun(fs) && Losses(fs, k) == Losses(es, k) && Exec(fs) == NewcomerState(Exec(es), k, n, "en")
  {
    RunKeepsInv(es);
    n := FreshId(Exec(es).procs.Keys);
    assert n !in Exec(es).procs && n !in Exec(es).rows;
    NewcomerRuns(Exec(es), k, n, "en");
    RunThen(es, NewcomerEvents(n, k, "en"));
    LossFreeAddsNone(es, NewcomerEvents(n, k, "en"), k);
    fs := es + NewcomerEvents(n, k, "en");
  }

  lemma CrowdGrows(s: State, k: LockKey, n: JobId)
    requires s.locks == map[] && n !in s.procs && n !in s.rows
    ensures var t := NewcomerState(s, k, n, "en");
      && |InFlightAt(t, k)| == |InFlightAt(s, k)| + 1
      && t.locks == map[k := Lock(n, s.now + LOCK_TTL_SECONDS)] && t.now == s.now
  {
    NewcomerJoins(s, k, n, "en");
    assert n !in InFlightAt(s, k);
  }

  /** The bound `InFlightBoundedByLosses` is exact: for every key and every number of losses
      some run has that many losses and one more job in flight. */
  lemma {:induction false} LossBoundIsReached(n: nat, k: LockKey) returns (es: seq<Event>)
    ensures IsRun(es) && Losses(es, k) == n && |InFlightAt(Exec(es), k)| == n + 1
    ensures Crowded(es, n, k)
  {
    var before: seq<Event> := [];
    if n == 0 {
      assert InFlightAt(INIT, k) == {};
    } else {
      before := LossBoundIsReached(n - 1, k);
      before := ExpireLock(before, n - 1, k);
    }
    var j;
    es, j := AddNewcomer(before, k);
    CrowdGrows(Exec(before), k, j);
  }

  // ---------- A steal from a live enqueuer ----------

  /** Two enqueuers; the second finds the lock taken and, twice, no row behind it. */
  function StealingEvents(k: LockKey): seq<Event> {
    var t := TypeFor(k.op);
    [Mint(0, k.video, t, "en", false), Mint(1, k.video, t, "en", false),
     SetNx(0), SetNx(1), Lookup(1, None), Lookup(1, None)]
  }

  /** The first about to insert its row, the second about to steal. */
  function BeforeSteal(k: LockKey): State {
    INIT.(locks := map[k := Lock(0, LOCK_TTL_SECONDS)],
          procs := map[0 := NewcomerProc(k, "en", InsertRow), 1 := NewcomerProc(k, "en", StealLock)])
  }

  lemma BothWant(k: LockKey) returns (es: seq<Event>)
    ensures es == StealingEvents(k)[..4] && IsRun(es)
    ensures Exec(es) == BeforeSteal(k).(procs := map[0 := NewcomerProc(k, "en", InsertRow),
                                                     1 := NewcomerProc(k, "en", FirstLookup)])
  {
    es := StealingEvents(k);
    var s1 := RunOne([], es[0]);
    var s2 := RunOne([] + [es[0]], es[1]);
    var s3 := RunOne([] + [es[0]] + [es[1]], es[2]);
    var s4 := RunOne([] + [es[0]] + [es[1]] + [es[2]], es[3]);
    assert s2.procs == map[0 := NewcomerProc(k, "en", TryLock), 1 := NewcomerProc(k, "en", TryLock)];
    es := [] + [es[0]] + [es[1]] + [es[2]] + [es[3]];
    assert s4.procs == map[0 := NewcomerProc(k, "en", InsertRow), 1 := NewcomerProc(k, "en", FirstLookup)];
    assert s4.locks == map[k := Lock(0, LOCK_TTL_SECONDS)];
  }

  lemma NothingFound(k: LockKey) returns (es: seq<Event>)
    ensures es == StealingEvents(k) && IsRun(es) && Exec(es) == BeforeSteal(k)
  {
    es := BothWant(k);
    var s5 := RunOne(es, Lookup(1, None));
    es := es + [Lookup(1, None)];
    assert s5.procs == map[0 := NewcomerProc(k, "en", InsertRow), 1 := NewcomerProc(k, "en", SecondLookup)];
    var s6 := RunOne(es, Lookup(1, None));
    es := es + [Lookup(1, None)];
    assert s6.procs == BeforeSteal(k).procs;
  }

  /** Job 0 has lost its lock and is about to insert its row; job 1 is further on. */
  function Robbed(k: LockKey, locks: map<LockKey, Lock>, rows: map<JobId, Row>, thief: Pc): State {
    State(0, locks, rows, map[0 := NewcomerProc(k, "en", InsertRow), 1 := NewcomerProc(k, "en", thief)], map[], {0})
  }

  function FreshRow(k: LockKey): Row {
    Row(k.video, TypeFor(k.op), "en", false, Queued, 0, None, None, None)
  }

  lemma StealStep(k: LockKey)
    ensures Enabled(BeforeSteal(k), Steal(1)) && LossOf(BeforeSteal(k), Steal(1), k)
    ensures Apply(BeforeSteal(k), Steal(1)) == Robbed(k, map[], map[], RetryLock)
  {
    var t := Apply(BeforeSteal(k), Steal(1));
    assert t.locks == map[];
    assert t.procs == Robbed(k, map[], map[], RetryLock).procs;
  }

  lemma RetryStep(k: LockKey)
    ensures Enabled(Robbed(k, map[], map[], RetryLock), SetNx(1))
    ensures Apply(Robbed(k, map[], map[], RetryLock), SetNx(1))
         == Robbed(k, map[k := Lock(1, LOCK_TTL_SECONDS)], map[], InsertRow)
  {
    var t := Apply(Robbed(k, map[], map[], RetryLock), SetNx(1));
    assert t.procs == Robbed(k, map[], map[], InsertRow).procs;
  }

  lemma ThiefInserts(k: LockKey, locks: map<LockKey, Lock>)
    ensures Enabled(Robbed(k, locks, map[], InsertRow), Insert(1))
    ensures Apply(Robbed(k, locks, map[], InsertRow), Insert(1)) == Robbed(k, locks, map[1 := FreshRow(k)], PushTask)
  {
    var t := Apply(Robbed(k, locks, map[], InsertRow), Insert(1));
    assert t.procs == Robbed(k, locks, map[], PushTask).procs;
  }

  lemma VictimInserts(k: LockKey, locks: map<LockKey, Lock>)
    ensures var s := Robbed(k, locks, map[1 := FreshRow(k)], PushTask);
      Enabled(s, Insert(0)) && {0, 1} <= InFlightAt(Apply(s, Insert(0)), k)
  {
  }

  lemma BothInsert(es: seq<Event>, k: LockKey) returns (fs: seq<Event>)
    requires IsRun(es) && Exec(es) == BeforeSteal(k)
    ensures fs == es + [Steal(1)] + [SetNx(1)] + [Insert(1)] + [Insert(0)]
    ensures IsRun(fs) && {0, 1} <= InFlightAt(Exec(fs), k)
  {
    var locks := map[k := Lock(1, LOCK_TTL_SECONDS)];
    StealStep(k);
    RetryStep(k);
    TwoMore(es, Steal(1), SetNx(1));
    ThiefInserts(k, locks);
    VictimInserts(k, locks);
    fs := es + [Steal(1)] + [SetNx(1)];
    TwoMore(fs, Insert(1), Insert(0));
    fs := fs + [Insert(1)] + [Insert(0)];
  }

  /** A steal does not only remove orphaned locks: this one hits an enqueuer that has yet to
      commit its row, and with no lock ever expiring both jobs end up in flight. */
  lemma StealHitsLiveEnqueuer(k: LockKey) returns (es: seq<Event>)
    ensures IsRun(es) && |es| == 10 && es[6] == Steal(1) && forall i | 0 <= i < |es| :: !es[i].Expire?
    ensures LossOf(StateAt(es, 6), es[6], k) && At(StateAt(es, 6), StateAt(es, 6).locks[k].owner, InsertRow)
    ensures {0, 1} <= InFlightAt(Exec(es), k)
  {
    var before := NothingFound(k);
    es := BothInsert(before, k);
    StealStep(k);
    StateOfPrefix(before, es, 6);
  }

  lemma StateOfPrefix(a: seq<Event>, b: seq<Event>, n: nat)
    requires IsRun(b) && a <= b && n == |a|
    ensures IsRun(a) && StateAt(b, n) == Exec(a)
  {
    PrefixReaches(INIT, b, n);
    assert b[..n] == a;
  }

  // ---------- A refresh lost to a diarization ----------

  /** A job of `k` enqueued, pushed and started, from a state in which its lock is free. */
  function StartedState(s: State, k: LockKey, n: JobId, language: string): State {
    var t := WithProc(s, n, NewcomerProc(k, language, if k.op == WhisperOp then Transcribing else LoadingTranscript));
    t.(locks := t.locks[k := Lock(n, s.now + LOCK_TTL_SECONDS)],
       rows := t.rows[n := Row(k.video, TypeFor(k.op), language, false, Running, s.now, Some(s.now), None, None)])
  }

  lemma PushStep(s: State, k: LockKey, n: JobId, language: string)
    ensures var t := NewcomerState(s, k, n, language);
      Enabled(t, Push(n, true)) && Apply(t, Push(n, true)) == WithProc(t, n, NewcomerProc(k, language, AwaitWorker))
  {
  }

  lemma MarkRunningStep(s: State, k: LockKey, n: JobId, language: string)
    ensures var t := WithProc(NewcomerState(s, k, n, language), n, NewcomerProc(k, language, AwaitWorker));
      Enabled(t, MarkRunning(n)) && Apply(t, MarkRunning(n)) == StartedState(s, k, n, language)
  {
    var t := WithProc(NewcomerState(s, k, n, language), n, NewcomerProc(k, language, AwaitWorker));
    assert Apply(t, MarkRunning(n)).procs == StartedState(s, k, n, language).procs;
    assert Apply(t, MarkRunning(n)).rows == StartedState(s, k, n, language).rows;
  }

  /** From queued to started. */
  lemma PushAndStart(es: seq<Event>, s: State, k: LockKey, n: JobId, language: string)
    requires IsRun(es) && Exec(es) == NewcomerState(s, k, n, language)
    ensures IsRun(es + [Push(n, true)] + [MarkRunning(n)])
    ensures Exec(es + [Push(n, true)] + [MarkRunning(n)]) == StartedState(s, k, n, language)
  {
    PushStep(s, k, n, language);
    MarkRunningStep(s, k, n, language);
    TwoMore(es, Push(n, true), MarkRunning(n));
  }

  lemma Start(es: seq<Event>, k: LockKey, n: JobId, language: string) returns (fs: seq<Event>)
    requires IsRun(es) && k !in Exec(es).locks && n !in Exec(es).procs
    ensures es <= fs && IsRun(fs) && Exec(fs) == StartedState(Exec(es), k, n, language)
  {
    NewcomerRuns(Exec(es), k, n, language);
    RunThen(es, NewcomerEvents(n, k, language));
    PushAndStart(es + NewcomerEvents(n, k, language), Exec(es), k, n, language);
    fs := es + NewcomerEvents(n, k, language) + [Push(n, true)] + [MarkRunning(n)];
  }

  lemma TwoMore(es: seq<Event>, e1: Event, e2: Event)
    requires IsRun(es) && Enabled(Exec(es), e1) && Enabled(Apply(Exec(es), e1), e2)
    ensures IsRun(es + [e1] + [e2]) && Exec(es + [e1] + [e2]) == Apply(Apply(Exec(es), e1), e2)
  {
    var t := RunOne(es, e1);
    var u := RunOne(es + [e1], e2);
  }

  /** A whisper job stores a transcript. */
  lemma StoreTranscript(video: string, language: string, read: seq<Snippet>) returns (es: seq<Event>)
    requires language != "" && !Tagged(read)
    ensures IsRun(es) && Exec(es).procs.Keys == {0} && LockKey(DiarizeOp, video) !in Exec(es).locks
    ensures Exec(es).now == 0
    ensures GetTranscript(Exec(es).cache, CacheKey(video, language), 0)
         == Some(CacheRow(WhisperLocal, read, None, false, 0, CACHE_TTL_SECONDS))
  {
    var k := LockKey(WhisperOp, video);
    es := Start([], k, 0, language);
    var out := Transcription(language, WhisperLocal, read);
    var t := RunOne(es, Transcribed(0, Some(out)));
    es := es + [Transcribed(0, Some(out))];
  }

  /** A diarization job loads it and holds its snippets for tagging. */
  lemma LoadStored(es: seq<Event>, video: string, language: string, read: seq<Snippet>) returns (fs: seq<Event>)
    requires IsRun(es) && 1 !in Exec(es).procs && LockKey(DiarizeOp, video) !in Exec(es).locks
    requires Exec(es).now == 0
    requires GetTranscript(Exec(es).cache, CacheKey(video, language), 0)
          == Some(CacheRow(WhisperLocal, read, None, false, 0, CACHE_TTL_SECONDS))
    ensures es <= fs && IsRun(fs) && At(Exec(fs), 1, Tagging(read))
    ensures Exec(fs).procs[1].video == video && Exec(fs).procs[1].language == language
  {
    var k := LockKey(DiarizeOp, video);
    fs := Start(es, k, 1, language);
    var t := RunOne(fs, LoadTranscript(1, true));
    fs := fs + [LoadTranscript(1, true)];
  }

  /** The lost refresh is reachable, for every video and language, whatever both transcripts
      say and however the snippets are labelled. */
  lemma RefreshIsLostInSomeRun(video: string, language: string, read: seq<Snippet>, refreshed: seq<Snippet>,
                               labels: seq<Option<string>>)
    returns (es: seq<Event>)
    requires language != "" && !Tagged(read) && !Tagged(refreshed) && |labels| == |read|
    requires Words(refreshed) != Words(read)
    ensures |es| >= 2 && IsRun(es) && es[|es| - 2] == PutCaptions(CacheKey(video, language), refreshed)
    ensures CacheKey(video, language) in Exec(es).cache
    ensures Words(Exec(es).cache[CacheKey(video, language)].snippets) == Words(read)
    ensures Exec(es).cache[CacheKey(video, language)].hasDiarization
  {
    var k := CacheKey(video, language);
    var stored := StoreTranscript(video, language, read);
    var loaded := LoadStored(stored, video, language, read);
    RunKeepsInv(loaded);
    RefreshDuringDiarizationIsLost(Exec(loaded), 1, labels, refreshed);
    var t := RunOne(loaded, PutCaptions(k, refreshed));
    es := loaded + [PutCaptions(k, refreshed)];
    var u := RunOne(es, TagCommit(1, Some(labels)));
    CommitKeepsWordsIffUnchanged(t, 1, labels, k);
    es := es + [TagCommit(1, Some(labels))];
  }
}
