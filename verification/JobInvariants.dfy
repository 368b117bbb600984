/** What every reachable state of the job pipeline satisfies. */
module JobInvariants {
  import opened Wrappers
  import opened JobProtocol

  /** Program points from which the lock has never been held. */
  predicate BeforeLock(pc: Pc) {
    match pc
    case TryLock => true
    case FirstLookup => true
    case SecondLookup => true
    case StealLock => true
    case RetryLock => true
    case Refused(_) => true
    case Conflict => true
    case _ => false
  }

  /** The job still has work that its lock is meant to protect: its row is about
      to be inserted, or is queued or running. */
  predicate Unfinished(s: State, j: JobId) {
    At(s, j, InsertRow) || InFlight(s, j)
  }

  /** A row is stamped in order, and its error column says how it failed. */
  predicate RowOk(r: Row, now: nat) {
    && r.createdAt <= now
    && (r.startedAt.Some? ==> r.createdAt <= r.startedAt.value <= now)
    && (r.finishedAt.Some? ==> r.createdAt <= r.finishedAt.value <= now)
    && (r.startedAt.Some? && r.finishedAt.Some? ==> r.startedAt.value <= r.finishedAt.value)
    && match r.status
       case Queued => r.startedAt.None? && r.finishedAt.None? && r.error.None?
       case Running => r.startedAt.Some? && r.finishedAt.None? && r.error.None?
       case Complete => r.startedAt.Some? && r.finishedAt.Some? && r.error.None?
       case Failed => r.finishedAt.Some? && r.error.Some? && (r.error.value == PushRaised <==> r.startedAt.None?)
  }

  predicate StatusIs(s: State, j: JobId, st: Status) {
    j in s.rows && s.rows[j].status == st
  }

  /** The row that each program point implies. */
  predicate PcMatchesRow(s: State, j: JobId, pc: Pc, t: JobType) {
    match pc
    case PushTask => StatusIs(s, j, Queued)
    case AwaitWorker => StatusIs(s, j, Queued)
    case Transcribing => StatusIs(s, j, Running) && t == Whisper
    case LoadingTranscript => StatusIs(s, j, Running) && t == Enrichment
    case Tagging(_) => StatusIs(s, j, Running) && t == Enrichment
    case Completing => StatusIs(s, j, Running)
    case Notifying => StatusIs(s, j, Complete) && t == Whisper
    case Failing(cause) =>
      (match cause
       case PushRaised => StatusIs(s, j, Queued)
       case WebhookRaised => StatusIs(s, j, Complete) && t == Whisper
       case _ => StatusIs(s, j, Running))
    case Releasing => StatusIs(s, j, Complete) || StatusIs(s, j, Failed)
    case Finished => StatusIs(s, j, Complete) || StatusIs(s, j, Failed)
    case Crashed => true
    case _ => j !in s.rows  // not inserted yet, or never going to be
  }

  /** The row records what the job was minted for. */
  predicate RowIsAbout(r: Row, p: Proc) {
    r.video == p.video && r.jobType == p.jobType && r.language == p.language && r.callback == p.callback
  }

  /** The row is about what the process is about, and stands where the process stands. */
  predicate LedgerOk(s: State, j: JobId)
    requires j in s.procs
  {
    var p := s.procs[j];
    && (j in s.rows ==> RowIsAbout(s.rows[j], p) && RowOk(s.rows[j], s.now))
    && PcMatchesRow(s, j, p.pc, p.jobType)
  }

  /** Unfinished jobs hold their lock or lost it; nobody loses a lock it never had. */
  predicate OwnershipOk(s: State, j: JobId)
    requires j in s.procs
  {
    && (Unfinished(s, j) ==> Owns(s, j, KeyOf(s.procs[j])) || j in s.lost)
    && (BeforeLock(s.procs[j].pc) ==> j !in s.lost)
  }

  /** A refused request was pointed at a row for its own video and type. */
  predicate RefusalOk(s: State, j: JobId)
    requires j in s.procs
  {
    var p := s.procs[j];
    p.pc.Refused? ==> p.pc.existing in s.rows && RowKey(s.rows[p.pc.existing]) == KeyOf(p)
  }

  predicate LockOk(s: State, k: LockKey)
    requires k in s.locks
  {
    var l := s.locks[k];
    && l.owner in s.procs && KeyOf(s.procs[l.owner]) == k
    && !BeforeLock(s.procs[l.owner].pc)
    && s.now <= l.expiresAt <= s.now + LOCK_TTL_SECONDS
  }

  ghost predicate Inv(s: State) {
    && s.rows.Keys <= s.procs.Keys
    && s.lost <= s.procs.Keys
    && (forall j | j in s.procs :: LedgerOk(s, j))
    && (forall j | j in s.procs :: OwnershipOk(s, j))
    && (forall j | j in s.procs :: RefusalOk(s, j))
    && (forall k | k in s.locks :: LockOk(s, k))
  }

  // ---------- Frames: what an event leaves alone ----------

  predicate EnqueuerEvent(e: Event) {
    e.SetNx? || e.Lookup? || e.Steal? || e.Insert? || e.Push?
  }

  predicate MarkEvent(e: Event) {
    e.MarkRunning? || e.MarkComplete? || e.MarkFailed?
  }

  predicate WorkEvent(e: Event) {
    e.Transcribed? || e.LoadTranscript? || e.TagCommit? || e.Notify? || e.Release? || e.Crash?
  }

  predicate PcMovedOnlyAt(s: State, t: State, j: JobId) {
    j in s.procs && j in t.procs && t.procs == s.procs[j := s.procs[j].(pc := t.procs[j].pc)]
  }

  predicate RowMovedOnlyAt(s: State, t: State, j: JobId) {
    t.rows == s.rows || (j in t.rows && t.rows == s.rows[j := t.rows[j]])
  }

  lemma EnqueuerFrame(s: State, e: Event)
    requires Enabled(s, e) && EnqueuerEvent(e)
    ensures PcMovedOnlyAt(s, Apply(s, e), e.job) && RowMovedOnlyAt(s, Apply(s, e), e.job)
    ensures !e.Insert? ==> Apply(s, e).rows == s.rows
  {
  }

  lemma MarkFrame(s: State, e: Event)
    requires Enabled(s, e) && MarkEvent(e)
    ensures PcMovedOnlyAt(s, Apply(s, e), e.job) && RowMovedOnlyAt(s, Apply(s, e), e.job)
    ensures e.job in Apply(s, e).rows <==> e.job in s.rows
  {
  }

  lemma WorkFrame(s: State, e: Event)
    requires Enabled(s, e) && WorkEvent(e)
    ensures PcMovedOnlyAt(s, Apply(s, e), e.job) && Apply(s, e).rows == s.rows
  {
  }

  lemma EnvironmentFrame(s: State, e: Event)
    requires Enabled(s, e) && e.Actor() == None
    ensures Apply(s, e).procs == s.procs && Apply(s, e).rows == s.rows
  {
  }

  /** Minting apart, an event changes the program counter and the row of its actor only. */
  lemma StepFrame(s: State, e: Event)
    requires Enabled(s, e) && !e.Mint?
    ensures e.Actor() == None ==> Apply(s, e).procs == s.procs && Apply(s, e).rows == s.rows
    ensures e.Actor().Some? ==> PcMovedOnlyAt(s, Apply(s, e), e.job) && RowMovedOnlyAt(s, Apply(s, e), e.job)
  {
    if EnqueuerEvent(e) {
      EnqueuerFrame(s, e);
    } else if MarkEvent(e) {
      MarkFrame(s, e);
    } else if WorkEvent(e) {
      WorkFrame(s, e);
    } else {
      EnvironmentFrame(s, e);
    }
  }

  /** Processes other than the actor keep their program counter and their row. */
  lemma BystandersKeep(s: State, e: Event, j: JobId)
    requires Enabled(s, e) && e.Actor() != Some(j)
    ensures j in s.procs <==> j in Apply(s, e).procs
    ensures j in s.procs ==> Apply(s, e).procs[j] == s.procs[j]
    ensures j in s.rows <==> j in Apply(s, e).rows
    ensures j in s.rows ==> Apply(s, e).rows[j] == s.rows[j]
  {
    if !e.Mint? { StepFrame(s, e); }
  }

  /** Two rows ask for the same work. */
  predicate SameSubject(a: Row, b: Row) {
    a.video == b.video && a.jobType == b.jobType && a.language == b.language && a.callback == b.callback
  }

  lemma MarksKeepRowsSubject(s: State, e: Event)
    requires Enabled(s, e) && MarkEvent(e) && e.job in s.rows
    ensures e.job in Apply(s, e).rows && SameSubject(Apply(s, e).rows[e.job], s.rows[e.job])
  {
  }

  /** Rows are never removed, and never change what they are about. */
  lemma RowsPersist(s: State, e: Event, j: JobId)
    requires Enabled(s, e) && j in s.rows
    requires e == Insert(j) ==> LedgerOk(s, j)
    ensures j in Apply(s, e).rows && SameSubject(Apply(s, e).rows[j], s.rows[j])
  {
    if e.Actor() != Some(j) {
      BystandersKeep(s, e, j);
    } else if MarkEvent(e) {
      MarksKeepRowsSubject(s, e);
    } else if WorkEvent(e) {
      WorkFrame(s, e);
    } else if EnqueuerEvent(e) {
      EnqueuerFrame(s, e);
    }
  }

  /** A lock changes hands in three ways: taken when free, released by its owner,
      or removed from an owner that then counts as a loser. */
  lemma LockChanges(s: State, e: Event, k: LockKey)
    requires Enabled(s, e)
    ensures var t := Apply(s, e);
      || (k in s.locks && k in t.locks && t.locks[k] == s.locks[k])
      || (k !in s.locks && k !in t.locks)
      || (k !in s.locks && k in t.locks && e == SetNx(t.locks[k].owner) && KeyOf(s.procs[e.job]) == k
          && t.locks[k].expiresAt == s.now + LOCK_TTL_SECONDS && t.now == s.now)
      || (k in s.locks && k !in t.locks && e == Release(s.locks[k].owner, true))
      || (k in s.locks && k !in t.locks && s.locks[k].owner in t.lost
          && (e == Expire(k) || (e.Steal? && KeyOf(s.procs[e.job]) == k)))
  {
  }

  /** What a job was minted for never changes. */
  lemma ProcsKeepTheirPurpose(s: State, e: Event, j: JobId)
    requires Enabled(s, e) && j in s.procs
    ensures j in Apply(s, e).procs
    ensures Apply(s, e).procs[j] == s.procs[j].(pc := Apply(s, e).procs[j].pc)
  {
    if !e.Mint? { StepFrame(s, e); }
  }

  lemma EnqueuerNeverReturns(s: State, e: Event, j: JobId)
    requires Enabled(s, e) && EnqueuerEvent(e) && e.job == j
    ensures j in s.procs && j in Apply(s, e).procs
    ensures !BeforeLock(s.procs[j].pc) ==> !BeforeLock(Apply(s, e).procs[j].pc)
    ensures BeforeLock(s.procs[j].pc) && !BeforeLock(Apply(s, e).procs[j].pc) ==>
              e == SetNx(j) && KeyOf(s.procs[j]) !in s.locks
  {
  }

  lemma MarksComeAfterLock(s: State, e: Event, j: JobId)
    requires Enabled(s, e) && MarkEvent(e) && e.job == j
    ensures j in s.procs && !BeforeLock(s.procs[j].pc)
    ensures j in Apply(s, e).procs && !BeforeLock(Apply(s, e).procs[j].pc)
  {
  }

  lemma WorkComesAfterLock(s: State, e: Event, j: JobId)
    requires Enabled(s, e) && WorkEvent(e) && e.job == j
    ensures j in s.procs && (!e.Crash? ==> !BeforeLock(s.procs[j].pc))
    ensures j in Apply(s, e).procs && !BeforeLock(Apply(s, e).procs[j].pc)
  {
  }

  /** A process gets past its lock by taking it when free (or by crashing), and never
      returns to a program point before it. */
  lemma ActorNeverReturns(s: State, e: Event, j: JobId)
    requires Enabled(s, e) && e.Actor() == Some(j) && j in s.procs
    ensures j in Apply(s, e).procs
    ensures !BeforeLock(s.procs[j].pc) ==> !BeforeLock(Apply(s, e).procs[j].pc)
    ensures BeforeLock(s.procs[j].pc) && !BeforeLock(Apply(s, e).procs[j].pc) ==>
              e == Crash(j) || (e == SetNx(j) && KeyOf(s.procs[j]) !in s.locks)
  {
    if EnqueuerEvent(e) {
      EnqueuerNeverReturns(s, e, j);
    } else if MarkEvent(e) {
      MarksComeAfterLock(s, e, j);
    } else if WorkEvent(e) {
      WorkComesAfterLock(s, e, j);
    }
  }

  lemma ProcsPersist(s: State, e: Event, j: JobId)
    requires Enabled(s, e) && j in s.procs
    ensures j in Apply(s, e).procs
    ensures KeyOf(Apply(s, e).procs[j]) == KeyOf(s.procs[j])
    ensures Apply(s, e).procs[j] == s.procs[j].(pc := Apply(s, e).procs[j].pc)
    ensures !BeforeLock(s.procs[j].pc) ==> !BeforeLock(Apply(s, e).procs[j].pc)
    ensures BeforeLock(s.procs[j].pc) && !BeforeLock(Apply(s, e).procs[j].pc) ==>
              e == Crash(j) || (e == SetNx(j) && KeyOf(s.procs[j]) !in s.locks)
  {
    ProcsKeepTheirPurpose(s, e, j);
    if e.Actor() == Some(j) {
      ActorNeverReturns(s, e, j);
    } else {
      BystandersKeep(s, e, j);
    }
  }

  lemma ClockAdvances(s: State, e: Event)
    requires Enabled(s, e)
    ensures s.now <= Apply(s, e).now
    ensures !e.Tick? ==> s.now == Apply(s, e).now
  {
  }

  /** Only the owner of a lock can become a loser. */
  lemma LostGrows(s: State, e: Event)
    requires Enabled(s, e)
    ensures s.lost <= Apply(s, e).lost
    ensures forall j | j in Apply(s, e).lost - s.lost :: exists k | k in s.locks :: s.locks[k].owner == j
  {
  }

  lemma LosersHadLocks(s: State, e: Event, j: JobId)
    requires Enabled(s, e)
    requires forall k | k in s.locks :: LockOk(s, k)
    requires j in Apply(s, e).lost && j !in s.lost
    ensures j in s.procs && !BeforeLock(s.procs[j].pc)
  {
    LostGrows(s, e);
    var k :| k in s.locks && s.locks[k].owner == j;
    assert LockOk(s, k);
  }

  lemma InsertRowOk(s: State, j: JobId)
    requires Enabled(s, Insert(j))
    ensures var t := Apply(s, Insert(j)); RowOk(t.rows[j], t.now) && RowIsAbout(t.rows[j], s.procs[j])
  {
  }

  lemma MarkRowOk(s: State, e: Event)
    requires Enabled(s, e) && MarkEvent(e) && e.job in s.rows && LedgerOk(s, e.job)
    ensures var t := Apply(s, e);
      e.job in t.rows && RowOk(t.rows[e.job], t.now) && RowIsAbout(t.rows[e.job], s.procs[e.job])
  {
  }

  lemma ActorRowOk(s: State, e: Event, j: JobId)
    requires Enabled(s, e) && e.Actor() == Some(j) && j in s.procs && LedgerOk(s, j)
    requires j in Apply(s, e).rows
    ensures RowOk(Apply(s, e).rows[j], Apply(s, e).now)
    ensures RowIsAbout(Apply(s, e).rows[j], s.procs[j])
  {
    if e.Insert? {
      InsertRowOk(s, j);
    } else if MarkEvent(e) {
      MarkFrame(s, e);
      MarkRowOk(s, e);
    } else {
      ClockAdvances(s, e);
      if WorkEvent(e) { WorkFrame(s, e); } else { EnqueuerFrame(s, e); }
    }
  }

  lemma EnqueuerPcOk(s: State, e: Event, j: JobId)
    requires Enabled(s, e) && EnqueuerEvent(e) && e.job == j && j in s.procs
    requires PcMatchesRow(s, j, s.procs[j].pc, s.procs[j].jobType)
    ensures PcMatchesRow(Apply(s, e), j, Apply(s, e).procs[j].pc, s.procs[j].jobType)
  {
  }

  lemma MarkPcOk(s: State, e: Event, j: JobId)
    requires Enabled(s, e) && MarkEvent(e) && e.job == j && j in s.procs
    requires PcMatchesRow(s, j, s.procs[j].pc, s.procs[j].jobType)
    ensures PcMatchesRow(Apply(s, e), j, Apply(s, e).procs[j].pc, s.procs[j].jobType)
  {
  }

  lemma OutcomePcOk(s: State, e: Event, j: JobId)
    requires Enabled(s, e) && (e.Transcribed? || e.LoadTranscript? || e.TagCommit?) && e.job == j && j in s.procs
    requires PcMatchesRow(s, j, s.procs[j].pc, s.procs[j].jobType)
    ensures PcMatchesRow(Apply(s, e), j, Apply(s, e).procs[j].pc, s.procs[j].jobType)
  {
    WorkFrame(s, e);
  }

  lemma ClosingPcOk(s: State, e: Event, j: JobId)
    requires Enabled(s, e) && (e.Notify? || e.Release? || e.Crash?) && e.job == j && j in s.procs
    requires PcMatchesRow(s, j, s.procs[j].pc, s.procs[j].jobType)
    ensures PcMatchesRow(Apply(s, e), j, Apply(s, e).procs[j].pc, s.procs[j].jobType)
  {
    WorkFrame(s, e);
  }

  lemma ActorPcOk(s: State, e: Event, j: JobId)
    requires Enabled(s, e) && e.Actor() == Some(j) && j in s.procs
    requires PcMatchesRow(s, j, s.procs[j].pc, s.procs[j].jobType)
    ensures PcMatchesRow(Apply(s, e), j, Apply(s, e).procs[j].pc, s.procs[j].jobType)
  {
    if EnqueuerEvent(e) {
      EnqueuerPcOk(s, e, j);
    } else if MarkEvent(e) {
      MarkPcOk(s, e, j);
    } else if e.Notify? || e.Release? || e.Crash? {
      ClosingPcOk(s, e, j);
    } else {
      OutcomePcOk(s, e, j);
    }
  }

  lemma ActorLedgerOk(s: State, e: Event, j: JobId)
    requires Enabled(s, e) && e.Actor() == Some(j) && j in s.procs && LedgerOk(s, j)
    ensures j in Apply(s, e).procs && LedgerOk(Apply(s, e), j)
  {
    ProcsPersist(s, e, j);
    ActorPcOk(s, e, j);
    if j in Apply(s, e).rows { ActorRowOk(s, e, j); }
  }

  lemma EnqueuerUnfinished(s: State, e: Event, j: JobId)
    requires Enabled(s, e) && EnqueuerEvent(e) && e.job == j && j in s.procs && LedgerOk(s, j)
    requires Unfinished(Apply(s, e), j)
    ensures Unfinished(s, j) || (e == SetNx(j) && Owns(Apply(s, e), j, KeyOf(s.procs[j])))
  {
  }

  lemma MarkUnfinished(s: State, e: Event, j: JobId)
    requires Enabled(s, e) && MarkEvent(e) && e.job == j && j in s.procs && LedgerOk(s, j)
    requires Unfinished(Apply(s, e), j)
    ensures Unfinished(s, j)
  {
  }

  lemma WorkUnfinished(s: State, e: Event, j: JobId)
    requires Enabled(s, e) && WorkEvent(e) && e.job == j && j in s.procs && LedgerOk(s, j)
    requires Unfinished(Apply(s, e), j)
    ensures Unfinished(s, j) && !e.Release?
  {
    WorkFrame(s, e);
  }

  lemma ActorUnfinished(s: State, e: Event, j: JobId)
    requires Enabled(s, e) && e.Actor() == Some(j) && j in s.procs && LedgerOk(s, j)
    requires Unfinished(Apply(s, e), j)
    ensures Unfinished(s, j) || (e == SetNx(j) && Owns(Apply(s, e), j, KeyOf(s.procs[j])))
    ensures !e.Release?
  {
    if EnqueuerEvent(e) {
      EnqueuerUnfinished(s, e, j);
    } else if MarkEvent(e) {
      MarkUnfinished(s, e, j);
    } else {
      WorkUnfinished(s, e, j);
    }
  }

  lemma OwnershipStaysOk(s: State, e: Event, j: JobId)
    requires Enabled(s, e) && j in s.procs && LedgerOk(s, j) && OwnershipOk(s, j)
    requires forall k | k in s.locks :: LockOk(s, k)
    ensures j in Apply(s, e).procs && OwnershipOk(Apply(s, e), j)
  {
    var t := Apply(s, e);
    var k := KeyOf(s.procs[j]);
    ProcsPersist(s, e, j);
    LostGrows(s, e);
    if Unfinished(t, j) {
      if e.Actor() == Some(j) {
        ActorUnfinished(s, e, j);
      } else {
        BystandersKeep(s, e, j);
      }
      LockChanges(s, e, k);
    }
    if BeforeLock(t.procs[j].pc) && j in t.lost {
      LosersHadLocks(s, e, j);
    }
  }

  lemma EnqueuerRefusal(s: State, e: Event, j: JobId)
    requires Enabled(s, e) && EnqueuerEvent(e) && e.job == j && j in s.procs
    requires j in Apply(s, e).procs && Apply(s, e).procs[j].pc.Refused?
    ensures e.Lookup? && e.found == Some(Apply(s, e).procs[j].pc.existing)
  {
  }

  /** A refusal comes from a lookup that found a row of the same key. */
  lemma RefusedByLookup(s: State, e: Event, j: JobId)
    requires Enabled(s, e) && e.Actor() == Some(j) && j in s.procs && RefusalOk(s, j)
    requires j in Apply(s, e).procs && Apply(s, e).procs[j].pc.Refused?
    ensures var x := Apply(s, e).procs[j].pc.existing; x in s.rows && RowKey(s.rows[x]) == KeyOf(s.procs[j])
  {
    if EnqueuerEvent(e) {
      EnqueuerRefusal(s, e, j);
    } else if MarkEvent(e) {
      MarksComeAfterLock(s, e, j);
    } else if WorkEvent(e) {
      WorkComesAfterLock(s, e, j);
    }
  }

  /** Row `r` is the process's rival: for the same video and type, queued or running. */
  predicate Rival(r: Row, p: Proc) {
    r.video == p.video && r.jobType == p.jobType && (r.status == Queued || r.status == Running)
  }

  /** A lookup finds a rival's row, none newer, and nothing only if there is no rival. */
  lemma LookupFindsNewest(s: State, j: JobId, found: Option<JobId>)
    requires Enabled(s, Lookup(j, found))
    ensures found.Some? ==> found.value in s.rows && Rival(s.rows[found.value], s.procs[j])
    ensures forall y | y in s.rows && Rival(s.rows[y], s.procs[j]) ::
              found.Some? && s.rows[y].createdAt <= s.rows[found.value].createdAt
  {
    forall y | y in s.rows
      ensures Rival(s.rows[y], s.procs[j]) <==> InFlight(s, y) && RowKey(s.rows[y]) == KeyOf(s.procs[j])
    {
      assert LockOpOf(s.rows[y].jobType) == LockOpOf(s.procs[j].jobType) <==> s.rows[y].jobType == s.procs[j].jobType;
    }
  }

  lemma RefusalStaysOk(s: State, e: Event, j: JobId)
    requires Enabled(s, e) && j in s.procs && RefusalOk(s, j)
    requires forall i | i in s.procs :: LedgerOk(s, i)
    ensures j in Apply(s, e).procs && RefusalOk(Apply(s, e), j)
  {
    var t := Apply(s, e);
    ProcsPersist(s, e, j);
    if t.procs[j].pc.Refused? {
      var x := t.procs[j].pc.existing;
      if e.Actor() == Some(j) { RefusedByLookup(s, e, j); } else { BystandersKeep(s, e, j); }
      RowsPersist(s, e, x);
    }
  }

  lemma LockStaysOk(s: State, e: Event, k: LockKey)
    requires Enabled(s, e) && k in Apply(s, e).locks
    requires k in s.locks ==> LockOk(s, k)
    ensures LockOk(Apply(s, e), k)
  {
    LockChanges(s, e, k);
    ClockAdvances(s, e);
    var o := Apply(s, e).locks[k].owner;
    ProcsPersist(s, e, o);
    if k !in s.locks {
      assert Apply(s, e).procs[o].pc == InsertRow;
    }
  }

  lemma LedgerStaysOk(s: State, e: Event, j: JobId)
    requires Enabled(s, e) && j in s.procs && LedgerOk(s, j)
    ensures j in Apply(s, e).procs && LedgerOk(Apply(s, e), j)
  {
    if e.Actor() == Some(j) {
      ActorLedgerOk(s, e, j);
    } else {
      BystandersKeep(s, e, j);
      ClockAdvances(s, e);
    }
  }

  /** A freshly minted job has no row, no lock and nothing to lose. */
  lemma MintedOk(s: State, e: Event)
    requires Inv(s) && Enabled(s, e) && e.Mint?
    ensures LedgerOk(Apply(s, e), e.job) && OwnershipOk(Apply(s, e), e.job) && RefusalOk(Apply(s, e), e.job)
  {
  }

  lemma DomainsStayClosed(s: State, e: Event)
    requires Inv(s) && Enabled(s, e)
    ensures Apply(s, e).rows.Keys <= Apply(s, e).procs.Keys
    ensures Apply(s, e).lost <= Apply(s, e).procs.Keys
  {
    LostGrows(s, e);
    forall j | j in Apply(s, e).lost
      ensures j in Apply(s, e).procs
    {
      if j !in s.lost { LosersHadLocks(s, e, j); }
      ProcsPersist(s, e, j);
    }
  }

  lemma OnlyMintAddsProcs(s: State, e: Event, j: JobId)
    requires Enabled(s, e) && j in Apply(s, e).procs && j !in s.procs
    ensures e.Mint? && e.job == j
  {
    if !e.Mint? { StepFrame(s, e); }
  }

  /** Every event keeps the invariant. */
  lemma StepKeepsInv(s: State, e: Event)
    requires Inv(s) && Enabled(s, e)
    ensures Inv(Apply(s, e))
  {
    var t := Apply(s, e);
    forall j | j in t.procs
      ensures LedgerOk(t, j) && OwnershipOk(t, j) && RefusalOk(t, j)
    {
      if j in s.procs {
        LedgerStaysOk(s, e, j);
        OwnershipStaysOk(s, e, j);
        RefusalStaysOk(s, e, j);
      } else {
        OnlyMintAddsProcs(s, e, j);
        MintedOk(s, e);
      }
    }
    forall k | k in t.locks
      ensures LockOk(t, k)
    {
      LockStaysOk(s, e, k);
    }
    DomainsStayClosed(s, e);
  }

  lemma {:induction false} ReachesKeepsInv(s: State, es: seq<Event>)
    requires Inv(s) && Reaches(s, es)
    ensures Inv(After(s, es))
    decreases |es|
  {
    if es != [] {
      ReachesKeepsInv(s, es[..|es| - 1]);
      StepKeepsInv(After(s, es[..|es| - 1]), es[|es| - 1]);
    }
  }

  /** Every state of every run satisfies the invariant. */
  lemma RunKeepsInv(es: seq<Event>)
    requires IsRun(es)
    ensures Inv(Exec(es))
  {
    ReachesKeepsInv(INIT, es);
  }
}
