/** What a run can say about one job: its lock tenure, its row's life, its results. */
module JobHistory {
  import opened Wrappers
  import opened TranscriptCache
  import opened JobProtocol
  import opened JobInvariants
  import opened JobTheorems

  // ---------- Facts that survive to the end of a run ----------

  lemma {:induction false} ProcsPersistLong(es: seq<Event>, i: nat, n: nat, j: JobId)
    requires IsRun(es) && i <= n <= |es| && j in StateAt(es, i).procs
    ensures j in StateAt(es, n).procs
    ensures KeyOf(StateAt(es, n).procs[j]) == KeyOf(StateAt(es, i).procs[j])
    ensures !BeforeLock(StateAt(es, i).procs[j].pc) ==> !BeforeLock(StateAt(es, n).procs[j].pc)
    decreases n
  {
    if i < n {
      ProcsPersistLong(es, i, n - 1, j);
      PlainStep(es, n - 1);
      ProcsPersist(StateAt(es, n - 1), es[n - 1], j);
    }
  }

  lemma InsertsOnce(s: State, j: JobId)
    requires Inv(s) && Enabled(s, Insert(j))
    ensures j !in s.rows && j in Apply(s, Insert(j)).rows
  {
    assert LedgerOk(s, j);
  }

  lemma NotInsertedAgain(es: seq<Event>, n: nat, j: JobId)
    requires IsRun(es) && n < |es| && j in StateAt(es, n).rows
    ensures es[n] != Insert(j)
  {
    StateStep(es, n);
    if es[n] == Insert(j) { InsertsOnce(StateAt(es, n), j); }
  }

  /** No step of any process removes a row or changes what it asks for. */
  lemma {:induction false} RowsPersistLong(es: seq<Event>, i: nat, n: nat, j: JobId)
    requires IsRun(es) && i <= n <= |es| && j in StateAt(es, i).rows
    ensures j in StateAt(es, n).rows
    ensures SameSubject(StateAt(es, n).rows[j], StateAt(es, i).rows[j])
    decreases n
  {
    if i < n {
      RowsPersistLong(es, i, n - 1, j);
      PlainStep(es, n - 1);
      NotInsertedAgain(es, n - 1, j);
      RowsPersist(StateAt(es, n - 1), es[n - 1], j);
    }
  }

  // ---------- Lock fencing ----------

  lemma StepNeverRegains(s: State, e: Event, j: JobId, k: LockKey)
    requires Enabled(s, e) && j in s.procs && !BeforeLock(s.procs[j].pc) && !Owns(s, j, k)
    ensures !Owns(Apply(s, e), j, k)
  {
    LockChanges(s, e, k);
  }

  lemma NextStateNeverRegains(es: seq<Event>, n: nat, j: JobId, k: LockKey)
    requires IsRun(es) && n < |es|
    requires j in StateAt(es, n).procs && !BeforeLock(StateAt(es, n).procs[j].pc) && !Owns(StateAt(es, n), j, k)
    ensures !Owns(StateAt(es, n + 1), j, k)
  {
    PlainStep(es, n);
    StepNeverRegains(StateAt(es, n), es[n], j, k);
  }

  /** Once past its lock and without it, a job never holds it again. */
  lemma {:induction false} NeverRegained(es: seq<Event>, m: nat, n: nat, j: JobId, k: LockKey)
    requires IsRun(es) && m <= n <= |es|
    requires j in StateAt(es, m).procs && !BeforeLock(StateAt(es, m).procs[j].pc) && !Owns(StateAt(es, m), j, k)
    ensures !Owns(StateAt(es, n), j, k)
    decreases n
  {
    if m < n {
      NeverRegained(es, m, n - 1, j, k);
      ProcsPersistLong(es, m, n - 1, j);
      NextStateNeverRegains(es, n - 1, j, k);
    }
  }

  /** A job holds its lock for one contiguous stretch of the run at most. */
  lemma OneTenure(es: seq<Event>, i: nat, m: nat, n: nat, j: JobId, k: LockKey)
    requires IsRun(es) && i <= m <= n <= |es|
    requires Owns(StateAt(es, i), j, k) && Owns(StateAt(es, n), j, k)
    ensures Owns(StateAt(es, m), j, k)
  {
    PrefixReaches(INIT, es, i);
    RunKeepsInv(es[..i]);
    assert LockOk(StateAt(es, i), k);
    if !Owns(StateAt(es, m), j, k) {
      ProcsPersistLong(es, i, m, j);
      NeverRegained(es, m, n, j, k);
    }
  }

  /** A late release, by a job that no longer holds the lock, leaves every lock alone. */
  lemma LateReleaseIsHarmless(s: State, j: JobId, ok: bool)
    requires Inv(s) && Enabled(s, Release(j, ok)) && !Owns(s, j, KeyOf(s.procs[j]))
    ensures Apply(s, Release(j, ok)).locks == s.locks
  {
  }

  /** Two jobs share a Redis key only if they share video and operation: no video id can
      imitate another operation's key. */
  lemma RenderedKeysTellApart(a: LockKey, b: LockKey)
    ensures RenderKey(a) == RenderKey(b) <==> a == b
    ensures RenderKey(LockKey(WhisperOp, a.video)) == "lock:whisper:" + a.video
    ensures RenderKey(LockKey(DiarizeOp, a.video)) == "lock:diarize:" + a.video
  {
    assert RenderKey(a)[5..12] == OpName(a.op) && RenderKey(a)[13..] == a.video;
    assert RenderKey(b)[5..12] == OpName(b.op) && RenderKey(b)[13..] == b.video;
    assert OpName(WhisperOp)[0] != OpName(DiarizeOp)[0];
  }

  ghost function RowsAt(s: State, k: LockKey): map<JobId, Row> {
    map j | j in s.rows && RowKey(s.rows[j]) == k :: s.rows[j]
  }

  /** Is the event a step of a process working on `k`, or the expiry of `k`? */
  predicate Concerns(s: State, e: Event, k: LockKey) {
    || e == Expire(k)
    || (e.Actor().Some? && e.Actor().value in s.procs && KeyOf(s.procs[e.Actor().value]) == k)
  }

  lemma RowStaysInItsKey(s: State, e: Event, k: LockKey, j: JobId)
    requires s.rows.Keys <= s.procs.Keys && Enabled(s, e) && !Concerns(s, e, k)
    requires j in s.procs ==> LedgerOk(s, j)
    ensures j in RowsAt(Apply(s, e), k) <==> j in RowsAt(s, k)
    ensures j in RowsAt(s, k) ==> Apply(s, e).rows[j] == s.rows[j]
  {
    if e.Actor() != Some(j) {
      BystandersKeep(s, e, j);
    } else if j in s.procs {
      ActorLedgerOk(s, e, j);
      ProcsPersist(s, e, j);
    } else {
      assert e.Mint?;
    }
  }

  lemma LockStaysInItsKey(s: State, e: Event, k: LockKey)
    requires Enabled(s, e) && !Concerns(s, e, k)
    requires k in s.locks ==> LockOk(s, k)
    ensures k in Apply(s, e).locks <==> k in s.locks
    ensures k in s.locks ==> Apply(s, e).locks[k] == s.locks[k]
  {
    LockChanges(s, e, k);
  }

  lemma RowsStayInTheirKey(s: State, e: Event, k: LockKey)
    requires s.rows.Keys <= s.procs.Keys && Enabled(s, e) && !Concerns(s, e, k)
    requires forall j | j in s.procs :: LedgerOk(s, j)
    ensures RowsAt(Apply(s, e), k) == RowsAt(s, k)
  {
    var before, after := RowsAt(s, k), RowsAt(Apply(s, e), k);
    forall j
      ensures j in after <==> j in before
      ensures j in before ==> after[j] == before[j]
    {
      RowStaysInItsKey(s, e, k, j);
    }
    SameMap(before, after);
  }

  lemma SameMap(a: map<JobId, Row>, b: map<JobId, Row>)
    requires forall j :: j in b <==> j in a
    requires forall j | j in a :: b[j] == a[j]
    ensures b == a
  {
  }

  /** No step for one video and operation touches the lock or the rows of another. */
  lemma StepsStayInTheirKey(s: State, e: Event, k: LockKey)
    requires Inv(s) && Enabled(s, e) && !Concerns(s, e, k)
    ensures k in Apply(s, e).locks <==> k in s.locks
    ensures k in s.locks ==> Apply(s, e).locks[k] == s.locks[k]
    ensures RowsAt(Apply(s, e), k) == RowsAt(s, k)
  {
    LockStaysInItsKey(s, e, k);
    RowsStayInTheirKey(s, e, k);
  }

  /** A lock that is lost to its clock was taken exactly its TTL earlier. */
  lemma {:induction false} LockStampedAtAcquisition(es: seq<Event>, k: LockKey) returns (m: nat)
    requires IsRun(es) && k in Exec(es).locks
    ensures m < |es| && es[m] == SetNx(Exec(es).locks[k].owner)
    ensures Exec(es).locks[k].expiresAt == StateAt(es, m).now + LOCK_TTL_SECONDS
    decreases |es|
  {
    var n := |es| - 1;
    StateStep(es, n);
    LockChanges(StateAt(es, n), es[n], k);
    if k in StateAt(es, n).locks {
      m := LockStampedAtAcquisition(es[..n], k);
      PrefixState(es, n, m);
    } else {
      m := n;
    }
  }

  /** An expiry happens one full TTL after the victim's own acquisition, so a job that
      releases within the TTL never loses its lock to the clock. */
  lemma ExpiryTakesAFullTtl(es: seq<Event>, i: nat)
    requires IsRun(es) && i < |es| && es[i].Expire?
    ensures es[i].key in StateAt(es, i).locks
    ensures exists m | 0 <= m < i ::
              && es[m] == SetNx(StateAt(es, i).locks[es[i].key].owner)
              && StateAt(es, i).now == StateAt(es, m).now + LOCK_TTL_SECONDS
  {
    StateStep(es, i);
    PrefixReaches(INIT, es, i);
    var m := LockStampedAtAcquisition(es[..i], es[i].key);
    PrefixState(es, i, m);
    assert LockOk(StateAt(es, i), es[i].key);
    assert es[m] == es[..i][m];
  }

  // ---------- The life of a ledger row ----------

  function StatusOf(s: State, j: JobId): Option<Status> {
    if j in s.rows then Some(s.rows[j].status) else None
  }

  /** The legal moves of a row, with the call that makes each. */
  predicate LegalMove(e: Event, j: JobId, a: Option<Status>, b: Option<Status>, error: Option<Cause>) {
    || (a == None && b == Some(Queued) && e == Insert(j))
    || (a == Some(Queued) && b == Some(Running) && e == MarkRunning(j))
    || (a == Some(Queued) && b == Some(Failed) && e == MarkFailed(j) && error == Some(PushRaised))
    || (a == Some(Running) && b == Some(Complete) && e == MarkComplete(j))
    || (a == Some(Running) && b == Some(Failed) && e == MarkFailed(j)
        && error != Some(PushRaised) && error != Some(WebhookRaised))
    || (a == Some(Complete) && b == Some(Failed) && e == MarkFailed(j) && error == Some(WebhookRaised))
  }

  function ErrorOf(s: State, j: JobId): Option<Cause> {
    if j in s.rows then s.rows[j].error else None
  }

  /** A row changes status only along the legal moves, although the mark helpers
      themselves check nothing. */
  lemma StatusMovesLegally(s: State, e: Event, j: JobId)
    requires Inv(s) && Enabled(s, e)
    ensures StatusOf(s, j) == StatusOf(Apply(s, e), j)
         || LegalMove(e, j, StatusOf(s, j), StatusOf(Apply(s, e), j), ErrorOf(Apply(s, e), j))
  {
    if e.Actor() == Some(j) {
      if !e.Mint? {
        assert LedgerOk(s, j);
        if StatusOf(s, j) != StatusOf(Apply(s, e), j) { ActorMovesLegally(s, e, j); }
      }
    } else {
      BystandersKeep(s, e, j);
    }
  }

  lemma MarkMovesLegally(s: State, e: Event, j: JobId)
    requires Enabled(s, e) && MarkEvent(e) && e.job == j && LedgerOk(s, j)
    requires StatusOf(s, j) != StatusOf(Apply(s, e), j)
    ensures LegalMove(e, j, StatusOf(s, j), StatusOf(Apply(s, e), j), ErrorOf(Apply(s, e), j))
  {
  }

  lemma InsertMovesLegally(s: State, j: JobId)
    requires Enabled(s, Insert(j)) && LedgerOk(s, j)
    ensures var t := Apply(s, Insert(j)); LegalMove(Insert(j), j, StatusOf(s, j), StatusOf(t, j), ErrorOf(t, j))
  {
  }

  lemma ActorMovesLegally(s: State, e: Event, j: JobId)
    requires Enabled(s, e) && e.Actor() == Some(j) && j in s.procs && LedgerOk(s, j)
    requires StatusOf(s, j) != StatusOf(Apply(s, e), j)
    ensures LegalMove(e, j, StatusOf(s, j), StatusOf(Apply(s, e), j), ErrorOf(Apply(s, e), j))
  {
    if e.Insert? {
      InsertMovesLegally(s, j);
    } else if MarkEvent(e) {
      MarkMovesLegally(s, e, j);
    } else if WorkEvent(e) {
      WorkFrame(s, e);
    } else {
      EnqueuerFrame(s, e);
    }
  }

  /** The row has come to an end; it may still change from complete to failed. */
  predicate Ended(s: State, j: JobId) {
    StatusOf(s, j) == Some(Complete) || StatusOf(s, j) == Some(Failed)
  }

  lemma EndsMoveToFailed(e: Event, j: JobId, a: Option<Status>, b: Option<Status>, error: Option<Cause>)
    requires LegalMove(e, j, a, b, error) && (a == Some(Complete) || a == Some(Failed))
    ensures b == Some(Failed)
  {
  }

  lemma StepKeepsEnded(s: State, e: Event, j: JobId)
    requires Inv(s) && Enabled(s, e) && Ended(s, j)
    ensures Ended(Apply(s, e), j)
  {
    StatusMovesLegally(s, e, j);
    var a, b := StatusOf(s, j), StatusOf(Apply(s, e), j);
    if a != b { EndsMoveToFailed(e, j, a, b, ErrorOf(Apply(s, e), j)); }
  }

  lemma NextStateKeepsEnded(es: seq<Event>, n: nat, j: JobId)
    requires IsRun(es) && n < |es| && Ended(StateAt(es, n), j)
    ensures Ended(StateAt(es, n + 1), j)
  {
    StateStep(es, n);
    StepKeepsEnded(StateAt(es, n), es[n], j);
  }

  lemma {:induction false} EndedStaysEnded(es: seq<Event>, m: nat, n: nat, j: JobId)
    requires IsRun(es) && m <= n <= |es| && Ended(StateAt(es, m), j)
    ensures Ended(StateAt(es, n), j)
    decreases n
  {
    if m < n {
      EndedStaysEnded(es, m, n - 1, j);
      NextStateKeepsEnded(es, n - 1, j);
    }
  }

  /** The second lookup of a process about to steal: it found nothing. */
  lemma {:induction false} LookedBeforeStealing(es: seq<Event>, i: nat, j: JobId) returns (n: nat)
    requires IsRun(es) && i <= |es| && At(StateAt(es, i), j, StealLock)
    ensures n < i && es[n] == Lookup(j, None) && At(StateAt(es, n), j, SecondLookup)
    ensures KeyOf(StateAt(es, n).procs[j]) == KeyOf(StateAt(es, i).procs[j])
    ensures LookupAnswer(StateAt(es, n), KeyOf(StateAt(es, i).procs[j]), None)
    decreases i
  {
    assert i > 0 by {
      assert es[..0] == [];
    }
    var s, e := StateAt(es, i - 1), es[i - 1];
    PlainStep(es, i - 1);
    if e.Actor() == Some(j) {
      WhoIsPending(s, e, j, StealLock);
      n := i - 1;
      SecondLookupLeads(s, j);
    } else {
      BystandersKeep(s, e, j);
      n := LookedBeforeStealing(es, i - 1, j);
    }
  }

  lemma SecondLookupLeads(s: State, j: JobId)
    requires Enabled(s, Lookup(j, None)) && At(Apply(s, Lookup(j, None)), j, StealLock)
    ensures At(s, j, SecondLookup) && KeyOf(Apply(s, Lookup(j, None)).procs[j]) == KeyOf(s.procs[j])
  {
  }

  /** A steal that hits an unfinished job hits one that had no committed row when the thief
      looked for the second time: the victim committed it, or not even that, in between. */
  lemma StealVictimHadNoRow(es: seq<Event>, i: nat, k: LockKey) returns (n: nat)
    requires IsRun(es) && i < |es| && es[i].Steal? && LossOf(StateAt(es, i), es[i], k)
    requires Unfinished(StateAt(es, i), StateAt(es, i).locks[k].owner)
    ensures n < i && es[n] == Lookup(es[i].job, None) && At(StateAt(es, n), es[i].job, SecondLookup)
    ensures StateAt(es, i).locks[k].owner !in StateAt(es, n).rows
  {
    var o := StateAt(es, i).locks[k].owner;
    StateStep(es, i);
    n := LookedBeforeStealing(es, i, es[i].job);
    if o in StateAt(es, n).rows {
      VictimHadNotEnded(es, n, i, k, o);
    }
  }

  lemma FoundUnlessEnded(s: State, o: JobId)
    requires Inv(s) && o in s.rows && !Ended(s, o)
    ensures !LookupAnswer(s, KeyOf(s.procs[o]), None)
  {
    assert LedgerOk(s, o);
  }

  lemma UnfinishedHasNotEnded(s: State, o: JobId)
    requires Inv(s) && o in s.procs && Unfinished(s, o)
    ensures !Ended(s, o)
  {
    assert LedgerOk(s, o);
  }

  lemma VictimHadNotEnded(es: seq<Event>, n: nat, i: nat, k: LockKey, o: JobId)
    requires IsRun(es) && n <= i < |es| && o in StateAt(es, n).rows
    requires k in StateAt(es, i).locks && StateAt(es, i).locks[k].owner == o && Unfinished(StateAt(es, i), o)
    ensures !LookupAnswer(StateAt(es, n), k, None)
  {
    StateStep(es, i);
    StateStep(es, n);
    assert LockOk(StateAt(es, i), k);
    ProcsPersistLong(es, n, i, o);
    UnfinishedHasNotEnded(StateAt(es, i), o);
    if Ended(StateAt(es, n), o) {
      EndedStaysEnded(es, n, i, o);
    }
    FoundUnlessEnded(StateAt(es, n), o);
  }

  /** The statuses a row has gone through, repeats dropped. */
  ghost function StatusPath(es: seq<Event>, j: JobId): seq<Status>
    requires IsRun(es)
    decreases |es|
  {
    if es == [] then []
    else
      var before := es[..|es| - 1];
      var now := StatusOf(Exec(es), j);
      if now.Some? && now != StatusOf(Exec(before), j) then StatusPath(before, j) + [now.value]
      else StatusPath(before, j)
  }

  predicate LifeCycle(path: seq<Status>) {
    || path == []
    || path == [Queued]
    || path == [Queued, Failed]
    || path == [Queued, Running]
    || path == [Queued, Running, Failed]
    || path == [Queued, Running, Complete]
    || path == [Queued, Running, Complete, Failed]
  }

  /** A path that is a life cycle and ends in the given status. */
  predicate EndsIn(path: seq<Status>, status: Option<Status>) {
    LifeCycle(path) && status == if path == [] then None else Some(path[|path| - 1])
  }

  lemma LegalMoveExtends(path: seq<Status>, e: Event, j: JobId, a: Option<Status>, b: Option<Status>,
      error: Option<Cause>)
    requires EndsIn(path, a) && LegalMove(e, j, a, b, error)
    ensures b.Some? && b != a && EndsIn(path + [b.value], b)
  {
    assert path == [] ==> path + [b.value] == [Queued];
  }

  lemma MoveOrStay(es: seq<Event>, j: JobId)
    requires IsRun(es) && es != []
    ensures var a, b := StatusOf(Exec(es[..|es| - 1]), j), StatusOf(Exec(es), j);
      a == b || LegalMove(es[|es| - 1], j, a, b, ErrorOf(Exec(es), j))
  {
    var before := es[..|es| - 1];
    if StatusOf(Exec(before), j) != StatusOf(Exec(es), j) {
      RunKeepsInv(before);
      StatusMovesLegally(Exec(before), es[|es| - 1], j);
    }
  }

  /** Over any run every row follows one of the seven life cycles and ends where the
      ledger says. */
  lemma {:induction false} RowsFollowLifeCycle(es: seq<Event>, j: JobId)
    requires IsRun(es)
    ensures EndsIn(StatusPath(es, j), StatusOf(Exec(es), j))
    decreases |es|
  {
    if es != [] {
      var before, e := es[..|es| - 1], es[|es| - 1];
      var a, b := StatusOf(Exec(before), j), StatusOf(Exec(es), j);
      RowsFollowLifeCycle(before, j);
      MoveOrStay(es, j);
      if a != b {
        LegalMoveExtends(StatusPath(before, j), e, j, a, b, ErrorOf(Exec(es), j));
      }
    }
  }

  // ---------- Ledger and cache agree ----------

  /** Event `i` stored the transcript of whisper job `j`, under the result's language. */
  ghost predicate Upserted(es: seq<Event>, i: nat, j: JobId)
    requires IsRun(es) && i < |es|
  {
    && es[i].Transcribed? && es[i].job == j && es[i].result.Some?
    && j in StateAt(es, i).procs
    && var out := es[i].result.value;
       var k := CacheKey(StateAt(es, i).procs[j].video, ResultLanguage(StateAt(es, i).procs[j], out));
       k in StateAt(es, i + 1).cache && StateAt(es, i + 1).cache[k].snippets == out.snippets
       && StateAt(es, i + 1).cache[k].source == out.source
  }

  /** Event `i` wrote speaker tags into an existing row for diarization job `j`. */
  ghost predicate TaggedRow(es: seq<Event>, i: nat, j: JobId)
    requires IsRun(es) && i < |es|
  {
    && es[i].TagCommit? && es[i].job == j && es[i].labels.Some?
    && j in StateAt(es, i).procs
    && var k := CacheKey(StateAt(es, i).procs[j].video, StateAt(es, i).procs[j].language);
       k in StateAt(es, i).cache && k in StateAt(es, i + 1).cache && StateAt(es, i + 1).cache[k].hasDiarization
  }

  ghost predicate ResultStored(es: seq<Event>, j: JobId)
    requires IsRun(es)
  {
    exists i | 0 <= i < |es| :: Upserted(es, i, j) || TaggedRow(es, i, j)
  }

  lemma UpsertStays(es: seq<Event>, n: nat, i: nat, j: JobId)
    requires IsRun(es) && i < n <= |es| && IsRun(es[..n]) && Upserted(es[..n], i, j)
    ensures Upserted(es, i, j)
  {
    PrefixState(es, n, i);
    PrefixState(es, n, i + 1);
  }

  lemma TagsStay(es: seq<Event>, n: nat, i: nat, j: JobId)
    requires IsRun(es) && i < n <= |es| && IsRun(es[..n]) && TaggedRow(es[..n], i, j)
    ensures TaggedRow(es, i, j)
  {
    PrefixState(es, n, i);
    PrefixState(es, n, i + 1);
  }

  lemma StoredStaysStored(es: seq<Event>, n: nat, j: JobId)
    requires IsRun(es) && n <= |es| && IsRun(es[..n]) && ResultStored(es[..n], j)
    ensures ResultStored(es, j)
  {
    var i :| 0 <= i < n && (Upserted(es[..n], i, j) || TaggedRow(es[..n], i, j));
    if Upserted(es[..n], i, j) { UpsertStays(es, n, i, j); } else { TagsStay(es, n, i, j); }
  }

  /** Only the two committing steps lead to the point before `mark_complete`. */
  lemma WhoStartsCompleting(s: State, e: Event, j: JobId)
    requires Enabled(s, e) && e.Actor() == Some(j) && At(Apply(s, e), j, Completing)
    ensures j in s.procs
    ensures (e.Transcribed? && e.result.Some?)
         || (e.TagCommit? && e.labels.Some? && CacheKey(s.procs[j].video, s.procs[j].language) in s.cache)
  {
  }

  lemma CompletingMeansStored(es: seq<Event>, j: JobId)
    requires IsRun(es) && |es| > 0 && At(Exec(es), j, Completing)
    requires es[|es| - 1].Actor() == Some(j)
    ensures Upserted(es, |es| - 1, j) || TaggedRow(es, |es| - 1, j)
  {
    var n := |es| - 1;
    PlainStep(es, n);
    assert es[..n + 1] == es;
    WhoStartsCompleting(StateAt(es, n), es[n], j);
  }

  /** A row is complete, or about to be marked so, only after its result was committed. */
  lemma {:induction false} CompleteOnlyAfterStored(es: seq<Event>, j: JobId)
    requires IsRun(es)
    requires At(Exec(es), j, Completing) || StatusOf(Exec(es), j) == Some(Complete)
    ensures ResultStored(es, j)
    decreases |es|
  {
    var n := |es| - 1;
    var before := es[..n];
    StateStep(es, n);
    var s := Exec(before);
    if es[n].Actor() != Some(j) {
      BystandersKeep(s, es[n], j);
    }
    if At(s, j, Completing) || StatusOf(s, j) == Some(Complete) {
      CompleteOnlyAfterStored(before, j);
      StoredStaysStored(es, n, j);
    } else if At(Exec(es), j, Completing) {
      CompletingMeansStored(es, j);
    } else {
      StatusMovesLegally(s, es[n], j);
      assert false;
    }
  }

  lemma WriterHasItsType(es: seq<Event>, i: nat, j: JobId)
    requires IsRun(es) && i < |es| && (Upserted(es, i, j) || TaggedRow(es, i, j))
    ensures j in StateAt(es, i).rows
    ensures StateAt(es, i).rows[j].jobType == if Upserted(es, i, j) then Whisper else Enrichment
  {
    PlainStep(es, i);
    RunKeepsInv(es[..i]);
    assert LedgerOk(StateAt(es, i), j);
  }

  /** A complete whisper row had its transcript stored, and a complete diarization row
      had its tags land in an existing transcript. */
  lemma CompleteMeansItsOwnWrite(es: seq<Event>, j: JobId)
    requires IsRun(es) && StatusOf(Exec(es), j) == Some(Complete)
    ensures Exec(es).rows[j].jobType == Whisper ==> exists i | 0 <= i < |es| :: Upserted(es, i, j)
    ensures Exec(es).rows[j].jobType == Enrichment ==> exists i | 0 <= i < |es| :: TaggedRow(es, i, j)
  {
    CompleteOnlyAfterStored(es, j);
    var i :| 0 <= i < |es| && (Upserted(es, i, j) || TaggedRow(es, i, j));
    WriterHasItsType(es, i, j);
    assert es[..|es|] == es;
    RowsPersistLong(es, i, |es|, j);
  }

  // ---------- Job ids handed to clients ----------

  /** The id a request answers with: its own once pushed, or the one it was refused for. */
  function AnsweredWith(s: State, j: JobId): Option<JobId> {
    if j !in s.procs then None
    else if s.procs[j].pc.Refused? then Some(s.procs[j].pc.existing)
    else if s.procs[j].pc == AwaitWorker then Some(j)
    else None
  }

  /** An id ever handed out names a row for the requested video and type, for good. */
  lemma AnsweredIdsStayGood(es: seq<Event>, i: nat, n: nat, j: JobId)
    requires IsRun(es) && i <= n <= |es| && AnsweredWith(StateAt(es, i), j).Some?
    ensures var x := AnsweredWith(StateAt(es, i), j).value; var p := StateAt(es, i).procs[j];
      x in StateAt(es, n).rows && StateAt(es, n).rows[x].video == p.video && StateAt(es, n).rows[x].jobType == p.jobType
  {
    PrefixReaches(INIT, es, i);
    RunKeepsInv(es[..i]);
    var s := StateAt(es, i);
    assert LedgerOk(s, j) && RefusalOk(s, j);
    RowsPersistLong(es, i, n, AnsweredWith(s, j).value);
  }

  ghost predicate InsertedOnce(es: seq<Event>, j: JobId, present: bool) {
    && (present <==> exists i | 0 <= i < |es| :: es[i] == Insert(j))
    && (forall a, b | 0 <= a < |es| && 0 <= b < |es| && es[a] == Insert(j) && es[b] == Insert(j) :: a == b)
  }

  lemma OneMoreEvent(es: seq<Event>, j: JobId, present: bool)
    requires es != [] && InsertedOnce(es[..|es| - 1], j, present)
    requires es[|es| - 1] == Insert(j) ==> !present
    ensures InsertedOnce(es, j, present || es[|es| - 1] == Insert(j))
  {
    assert forall i | 0 <= i < |es| - 1 :: es[..|es| - 1][i] == es[i];
  }

  /** A row appears only by the insert of its own job, and only once. */
  lemma {:induction false} OneInsertPerRow(es: seq<Event>, j: JobId)
    requires IsRun(es)
    ensures j in Exec(es).rows <==> exists i | 0 <= i < |es| :: es[i] == Insert(j)
    ensures forall a, b | 0 <= a < |es| && 0 <= b < |es| && es[a] == Insert(j) && es[b] == Insert(j) :: a == b
    decreases |es|
  {
    if es != [] {
      var n := |es| - 1;
      var before := es[..n];
      OneInsertPerRow(before, j);
      RunKeepsInv(before);
      var s := Exec(before);
      if es[n] == Insert(j) {
        InsertsOnce(s, j);
      } else {
        InsertsAlone(s, es[n], j);
      }
      OneMoreEvent(es, j, j in s.rows);
    }
  }

  lemma InsertsAlone(s: State, e: Event, j: JobId)
    requires Enabled(s, e) && e != Insert(j)
    ensures j in Apply(s, e).rows <==> j in s.rows
  {
    if e.Actor() != Some(j) {
      BystandersKeep(s, e, j);
    } else if MarkEvent(e) {
      MarkFrame(s, e);
    } else if !e.Mint? {
      if WorkEvent(e) { WorkFrame(s, e); } else { EnqueuerFrame(s, e); }
    }
  }
}
