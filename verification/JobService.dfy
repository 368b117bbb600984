/**
 The job pipeline as the program runs it: straight-line code over two shared stores,
 with other processes free to act at every await point.

 Each call to Redis or the database is one method that records its event in `trace`.
 `Valid` says that the trace is a run of the state machine and that the stores are its
 final state, so a method that keeps `Valid` has been shown to follow the machine, and
 everything proved about runs applies to it.
 */
module JobService {
  import opened Wrappers
  import opened TranscriptCache
  import opened JobProtocol
  import opened JobInvariants
  import opened JobTheorems
  import opened JobHistory
  import opened JobCache

  datatype EnqueueResult =
    | Enqueued(id: JobId)
    | InProgress(existing: JobId)
    | LockConflict
    | EnqueueFailed(id: JobId)

  datatype ClaimResult = Claimed | Held(existing: JobId) | Contended

  datatype WaitResult = Ready(row: CacheRow) | JobFailed(error: Option<Cause>) | TimedOut

  datatype Force = NoForce | ForceWhisper | ForceRefresh

  datatype FetchResult =
    | Cached(row: CacheRow)
    | Captioned(row: CacheRow)
    | Transcript(row: CacheRow)
    | JobAccepted(id: JobId)
    | WhisperFailed(error: Option<Cause>)
    | UpstreamRaised
    | TooLong
    | RateLimited
    | InvalidWait
    | InProgressConflict
    | EnqueueRaised(id: JobId)

  /** Captions as the adapter returns them, under the language it found. */
  datatype Captions = Captions(language: string, snippets: seq<Snippet>)

  /** What the captions adapter does: find some, find none, or raise. */
  datatype CaptionsOutcome = NoCaptions | Found(captions: Captions) | AdapterRaised

  predicate Untagged(c: CaptionsOutcome) {
    c.Found? ==> forall i | 0 <= i < |c.captions.snippets| :: c.captions.snippets[i].speaker.None?
  }

  const MAX_WAIT_SECONDS := 25

  /** Step `i` of a chain of states. */
  ghost predicate Linked(states: seq<State>, es: seq<Event>, i: nat)
    requires i < |es| && |states| == |es| + 1
  {
    Enabled(states[i], es[i]) && states[i + 1] == Apply(states[i], es[i])
  }

  /** `states` are the states that the events `es` lead through, from empty stores. */
  ghost predicate Chain(states: seq<State>, es: seq<Event>) {
    && |states| == |es| + 1
    && states[0] == INIT
    && forall i: nat | i < |es| :: Linked(states, es, i)
  }

  /** A chain is a run, and ends where the run ends. */
  lemma {:induction false} ChainIsRun(states: seq<State>, es: seq<Event>)
    requires Chain(states, es)
    ensures IsRun(es) && Exec(es) == states[|es|]
    decreases |es|
  {
    if es != [] {
      var n := |es| - 1;
      assert Linked(states, es, n);
      var states', es' := states[..n + 1], es[..n];
      forall i: nat | i < n
        ensures Linked(states', es', i)
      {
        assert Linked(states, es, i);
      }
      ChainIsRun(states', es');
    }
  }

  lemma ChainGrows(states: seq<State>, es: seq<Event>, e: Event)
    requires Chain(states, es) && Enabled(states[|es|], e)
    ensures Chain(states + [Apply(states[|es|], e)], es + [e])
  {
    var states', es' := states + [Apply(states[|es|], e)], es + [e];
    forall i: nat | i < |es'|
      ensures Linked(states', es', i)
    {
      if i < |es| { assert Linked(states, es, i); }
    }
  }

  /** Trace `b` continues trace `a` without a step of job `j`. */
  ghost predicate ContinuesWithout(a: seq<Event>, b: seq<Event>, j: JobId) {
    a <= b && forall i | |a| <= i < |b| :: b[i].Actor() != Some(j)
  }

  lemma {:induction false} OthersKeepJob(a: seq<Event>, b: seq<Event>, j: JobId)
    requires IsRun(a) && IsRun(b) && ContinuesWithout(a, b, j) && j in Exec(a).procs
    ensures j in Exec(b).procs && Exec(b).procs[j] == Exec(a).procs[j]
    ensures j in Exec(b).rows <==> j in Exec(a).rows
    ensures j in Exec(a).rows ==> Exec(b).rows[j] == Exec(a).rows[j]
    decreases |b|
  {
    if |b| == |a| {
      assert a == b;
    } else {
      var n := |b| - 1;
      var c := b[..n];
      assert a <= c;
      OthersKeepJob(a, c, j);
      BystandersKeep(Exec(c), b[n], j);
    }
  }

  lemma RowsOutlive(a: seq<Event>, b: seq<Event>, j: JobId)
    requires IsRun(a) && IsRun(b) && a <= b && j in Exec(a).rows
    ensures j in Exec(b).rows && SameSubject(Exec(b).rows[j], Exec(a).rows[j])
  {
    assert b[..|a|] == a && b[..|b|] == b;
    RowsPersistLong(b, |a|, |b|, j);
  }

  lemma InLongerTrace(a: seq<Event>, b: seq<Event>, e: Event)
    requires a <= b && e in a
    ensures e in b
  {
    var i :| 0 <= i < |a| && a[i] == e;
    assert b[i] == e;
  }

  /** In state number `i` of a run job `j` has neither failed nor completed with a transcript
      to serve under `k`. */
  ghost predicate Unanswered(es: seq<Event>, i: nat, j: JobId, k: CacheKey) {
    && IsRun(es) && i <= |es| && j in StateAt(es, i).rows
    && StateAt(es, i).rows[j].status != Failed
    && (StateAt(es, i).rows[j].status == Complete ==> Seen(es, i, k).None?)
  }

  /** So it was after each of the sleeps from number `from` to `to`. */
  ghost predicate SleptInVain(es: seq<Event>, sleeps: seq<nat>, from: nat, to: nat, j: JobId, k: CacheKey) {
    to <= |sleeps| && forall x: nat | from <= x < to :: Unanswered(es, sleeps[x], j, k)
  }

  lemma SleptInVainLater(a: seq<Event>, b: seq<Event>, sleeps: seq<nat>, more: seq<nat>, from: nat, to: nat,
                         j: JobId, k: CacheKey)
    requires IsRun(b) && a <= b && sleeps <= more && SleptInVain(a, sleeps, from, to, j, k)
    ensures SleptInVain(b, more, from, to, j, k)
  {
    forall x: nat | from <= x < to
      ensures Unanswered(b, more[x], j, k)
    {
      assert Unanswered(a, sleeps[x], j, k);
      assert b[..|a|] == a;
      PrefixState(b, |a|, sleeps[x]);
    }
  }

  /** Answers that a request can give without having tried to enqueue a job. */
  predicate NeedsNoJob(r: FetchResult) {
    r.Cached? || r.Captioned? || r.UpstreamRaised? || r.TooLong? || r.RateLimited? || r.InvalidWait?
  }

  lemma LoadedLater(a: seq<Event>, b: seq<Event>, i: nat, j: JobId, k: CacheKey, read: seq<Snippet>)
    requires IsRun(b) && a <= b && Loaded(a, i, j, k, read)
    ensures Loaded(b, i, j, k, read)
  {
    PrefixKeepsState(a, b, i);
  }

  lemma LandedLater(a: seq<Event>, b: seq<Event>, n: nat, j: JobId, k: CacheKey, read: seq<Snippet>,
                    labels: seq<Option<string>>)
    requires IsRun(b) && a <= b && Landed(a, n, j, k, read, labels)
    ensures Landed(b, n, j, k, read, labels)
  {
    PrefixKeepsState(a, b, n);
    PrefixKeepsState(a, b, n + 1);
  }

  /** Event `i` loaded snippets for job `j`, and a later event `n` committed what `diarize`
      makes of them: right after it the row's speakers are those labels, over the words and
      the other speakers that were loaded, and the flag is set. */
  ghost predicate TagsLanded(es: seq<Event>, i: nat, n: nat, j: JobId, k: CacheKey,
                             diarize: seq<Snippet> -> Option<seq<Option<string>>>)
  {
    exists read ::
      && i < n && Loaded(es, i, j, k, read)
      && diarize(read).Some? && Landed(es, n, j, k, read, diarize(read).value)
  }

  /** Such a load and commit happened from event number `from` on. */
  ghost predicate Diarized(es: seq<Event>, from: nat, j: JobId, k: CacheKey,
                           diarize: seq<Snippet> -> Option<seq<Option<string>>>)
  {
    exists i: nat, n: nat :: from <= i && TagsLanded(es, i, n, j, k, diarize)
  }

  lemma DiarizedLater(a: seq<Event>, b: seq<Event>, from: nat, earlier: nat, j: JobId, k: CacheKey,
                      diarize: seq<Snippet> -> Option<seq<Option<string>>>)
    requires IsRun(b) && a <= b && earlier <= from && Diarized(a, from, j, k, diarize)
    ensures Diarized(b, earlier, j, k, diarize)
  {
    var i: nat, n: nat :| from <= i && TagsLanded(a, i, n, j, k, diarize);
    var read :| i < n && Loaded(a, i, j, k, read)
                && diarize(read).Some? && Landed(a, n, j, k, read, diarize(read).value);
    LoadedLater(a, b, i, j, k, read);
    LandedLater(a, b, n, j, k, read, diarize(read).value);
    assert TagsLanded(b, i, n, j, k, diarize);
  }

  lemma LoadThenCommit(a: seq<Event>, b: seq<Event>, i: nat, n: nat, j: JobId, k: CacheKey, read: seq<Snippet>,
                       diarize: seq<Snippet> -> Option<seq<Option<string>>>)
    requires IsRun(b) && a <= b && Loaded(a, i, j, k, read) && |a| <= n
    requires diarize(read).Some? && Landed(b, n, j, k, read, diarize(read).value)
    ensures Diarized(b, i, j, k, diarize)
  {
    LoadedLater(a, b, i, j, k, read);
    assert TagsLanded(b, i, n, j, k, diarize);
  }

  /** How a diarization ended, and what event of the run it owes that to. */
  ghost predicate Settled(es: seq<Event>, from: nat, j: JobId, k: CacheKey, available: bool,
                          diarize: seq<Snippet> -> Option<seq<Option<string>>>, failure: Option<Cause>)
  {
    match failure
    case None => available && Diarized(es, from, j, k, diarize)
    case Some(cause) => Explained(es, from, k, available, diarize, cause)
  }

  lemma SettledLater(a: seq<Event>, b: seq<Event>, from: nat, earlier: nat, j: JobId, k: CacheKey, available: bool,
                     diarize: seq<Snippet> -> Option<seq<Option<string>>>, failure: Option<Cause>)
    requires IsRun(b) && a <= b && earlier <= from && Settled(a, from, j, k, available, diarize, failure)
    ensures Settled(b, earlier, j, k, available, diarize, failure)
  {
    match failure {
      case None => DiarizedLater(a, b, from, earlier, j, k, diarize);
      case Some(cause) => ExplainedLater(a, b, from, earlier, k, available, diarize, cause);
    }
  }

  /** How the commit of `read`'s labels went, from event number `from` on. */
  ghost predicate Committed(es: seq<Event>, from: nat, j: JobId, k: CacheKey, read: seq<Snippet>, available: bool,
                            diarize: seq<Snippet> -> Option<seq<Option<string>>>, failure: Option<Cause>)
  {
    match diarize(read)
    case None => failure == Some(WorkRaised)
    case Some(labels) =>
      if failure.None? then exists n: nat :: from <= n && Landed(es, n, j, k, read, labels)
      else failure.value == RowGone && Explained(es, from, k, available, diarize, RowGone)
  }

  /** Event `i` loaded `read` for job `j`, which is all there is to say if `diarize` raises. */
  ghost predicate LoadedFor(es: seq<Event>, i: nat, j: JobId, k: CacheKey, read: seq<Snippet>, available: bool,
                            diarize: seq<Snippet> -> Option<seq<Option<string>>>)
  {
    && available && Loaded(es, i, j, k, read)
    && (diarize(read).None? ==> Explained(es, i, k, available, diarize, WorkRaised))
  }

  lemma LoadAndCommitSettle(a: seq<Event>, b: seq<Event>, i: nat, j: JobId, k: CacheKey, read: seq<Snippet>,
                            available: bool, diarize: seq<Snippet> -> Option<seq<Option<string>>>,
                            failure: Option<Cause>)
    requires IsRun(b) && a <= b && LoadedFor(a, i, j, k, read, available, diarize)
    requires Committed(b, |a|, j, k, read, available, diarize, failure)
    ensures Settled(b, i, j, k, available, diarize, failure)
  {
    if failure.None? {
      var n: nat :| |a| <= n && Landed(b, n, j, k, read, diarize(read).value);
      LoadThenCommit(a, b, i, n, j, k, read, diarize);
    } else if diarize(read).None? {
      ExplainedLater(a, b, i, i, k, available, diarize, WorkRaised);
    } else {
      ExplainedLater(b, b, |a|, i, k, available, diarize, RowGone);
    }
  }

  /** What one thread of control did itself: the ids it minted, the state number of the run
      after each half-second sleep, the videos it purged and the captions it stored. */
  datatype Doings = Doings(minted: set<JobId>, sleeps: seq<nat>, purged: seq<string>, captioned: seq<CacheKey>)

  /** One more id was minted, and it is a new one; nothing else was done. */
  ghost predicate Minted(before: Doings, after: Doings, j: JobId) {
    j !in before.minted && after == before.(minted := before.minted + {j})
  }

  /** Where a job id's process stands once its enqueuer has answered `r`. */
  function PcAfter(r: EnqueueResult): Pc {
    match r
    case Enqueued(_) => AwaitWorker
    case InProgress(x) => Refused(x)
    case LockConflict => Conflict
    case EnqueueFailed(_) => Finished
  }

  /** Answer `r` is that of the job minted as `j`: its process got where the answer says, and
      it has a row exactly when the answer names it. */
  ghost predicate AnswerOf(s: State, j: JobId, r: EnqueueResult, asked: Proc) {
    && j in s.procs && s.procs[j] == asked.(pc := PcAfter(r))
    && (r.Enqueued? || r.EnqueueFailed? ==> r.id == j)
    && (j in s.rows <==> r.Enqueued? || r.EnqueueFailed?)
  }

  /** State number `i` of a run gives the reason why a diarization of `k` fails. */
  ghost predicate Explains(es: seq<Event>, i: nat, k: CacheKey, available: bool,
                           diarize: seq<Snippet> -> Option<seq<Option<string>>>, cause: Cause)
    requires IsRun(es) && i <= |es|
  {
    match cause
    case NotCached => Seen(es, i, k).None?
    case CaptionsSource => Seen(es, i, k).Some? && Seen(es, i, k).value.source == YoutubeCaptions
    case PipelineUnavailable =>
      Seen(es, i, k).Some? && Seen(es, i, k).value.source != YoutubeCaptions && !available
    case WorkRaised =>
      Seen(es, i, k).Some? && Seen(es, i, k).value.source != YoutubeCaptions
          && diarize(Seen(es, i, k).value.snippets).None?
    case RowGone => k !in StateAt(es, i).cache
    case _ => false
  }

  /** Some state from number `from` on does. */
  ghost predicate Explained(es: seq<Event>, from: nat, k: CacheKey, available: bool,
                            diarize: seq<Snippet> -> Option<seq<Option<string>>>, cause: Cause)
  {
    IsRun(es) && exists i: nat :: from <= i <= |es| && Explains(es, i, k, available, diarize, cause)
  }

  lemma ExplainedLater(a: seq<Event>, b: seq<Event>, from: nat, earlier: nat, k: CacheKey, available: bool,
                       diarize: seq<Snippet> -> Option<seq<Option<string>>>, cause: Cause)
    requires IsRun(b) && a <= b && earlier <= from && Explained(a, from, k, available, diarize, cause)
    ensures Explained(b, earlier, k, available, diarize, cause)
  {
    var i: nat :| from <= i <= |a| && Explains(a, i, k, available, diarize, cause);
    assert b[..|a|] == a;
    PrefixState(b, |a|, i);
    assert Explains(b, i, k, available, diarize, cause);
  }

  /** What the first two tiers do themselves: purge on a refresh, and store the captions that
      they answer with. */
  function TierDoings(before: Doings, video: string, force: Force, r: Option<FetchResult>, captions: CaptionsOutcome)
    : Doings
  {
    before.(purged := before.purged + (if force == ForceRefresh then [video] else []),
            captioned := before.captioned +
                         if r.Some? && r.value.Captioned? && captions.Found?
                         then [CacheKey(video, captions.captions.language)] else [])
  }

  /** A request may answer `r` in state `s` for the job `j` that it minted. */
  ghost predicate FetchAnswer(s: State, j: JobId, r: FetchResult, asked: Proc) {
    match r
    case JobAccepted(id) =>
      if id == j then j in s.rows && RowIsAbout(s.rows[j], asked)
      else && j in s.procs && s.procs[j] == asked.(pc := Refused(id))
           && InFlight(s, id) && RowKey(s.rows[id]) == KeyOf(asked)
    case Transcript(row) =>
      && j in s.rows && RowIsAbout(s.rows[j], asked) && s.rows[j].status == Complete
      && GetTranscript(s.cache, CacheKey(asked.video, asked.language), s.now) == Some(row)
    case WhisperFailed(error) =>
      j in s.rows && RowIsAbout(s.rows[j], asked) && s.rows[j].status == Failed && s.rows[j].error == error
    case InProgressConflict => j in s.procs && s.procs[j] == asked.(pc := Conflict)
    case EnqueueRaised(id) =>
      && id == j && j in s.procs && s.procs[j] == asked.(pc := Finished)
      && j in s.rows && s.rows[j].status == Failed && s.rows[j].error == Some(PushRaised)
    case _ => false
  }

  /** How long a request slept before answer `r` about job `j`: not at all if it had no row of
      its own to wait for, to the end if its job was still unanswered, else until it was. */
  ghost predicate WaitedFor(es: seq<Event>, before: seq<nat>, after: seq<nat>, r: FetchResult, j: JobId,
                            k: CacheKey, waitSeconds: nat)
  {
    var n, m := |before|, |after|;
    if r.Transcript? || r.WhisperFailed? then
      before <= after && n < m <= n + 2 * waitSeconds && SleptInVain(es, after, n, m - 1, j, k)
    else if r == JobAccepted(j) then
      before <= after && m == n + 2 * waitSeconds && SleptInVain(es, after, n, m, j, k)
    else
      after == before
  }

  /** Answer `r` comes from one job minted since `before`: given for it, waited for, and after
      a steal when it says that a lock has no job behind it. */
  ghost predicate JobAnswered(s: State, es: seq<Event>, before: Doings, after: Doings, r: FetchResult, asked: Proc,
                              waitSeconds: nat, pushOk: bool)
  {
    exists j ::
      && Minted(before, after.(sleeps := before.sleeps), j)
      && FetchAnswer(s, j, r, asked)
      && WaitedFor(es, before.sleeps, after.sleeps, r, j, CacheKey(asked.video, asked.language), waitSeconds)
      && (r.InProgressConflict? ==> Steal(j) in es)
      && (r == JobAccepted(j) || r.Transcript? || r.WhisperFailed? ==> pushOk)
  }

  class Service {
    var clock: nat
    var redis: map<LockKey, Lock>
    var jobs: map<JobId, Row>
    var transcripts: Table
    var serial: nat
    ghost var mine: Doings  // what this thread of control did, others' steps excluded
    ghost var trace: seq<Event>
    ghost var states: seq<State>
    ghost var view: State  // the state that the stores and the program points add up to

    ghost predicate Valid()
      reads this
    {
      && Chain(states, trace)
      && view == states[|trace|]
      && view.now == clock
      && view.locks == redis
      && view.rows == jobs
      && view.cache == transcripts
      && mine.minted <= view.procs.Keys
      && forall j | j in view.procs :: j < serial
    }

    constructor ()
      ensures Valid() && trace == [] && redis == map[] && jobs == map[] && transcripts == map[]
    {
      clock, redis, jobs, transcripts, serial := 0, map[], map[], map[], 0;
      mine, trace, states, view := Doings({}, [], [], []), [], [INIT], INIT;
    }

    /** Append an event whose effect on the stores has just been carried out. */
    ghost method Record(e: Event)
      requires Chain(states, trace) && view == states[|trace|] && Enabled(view, e)
      modifies this`trace, this`states, this`view
      ensures Chain(states, trace) && view == states[|trace|]
      ensures trace == old(trace) + [e] && view == Apply(old(view), e)
    {
      ChainGrows(states, trace, e);
      view := Apply(view, e);
      trace, states := trace + [e], states + [view];
    }

    // ---------- Await points ----------

    /** Any number of steps of other processes, the clock and the locks' TTLs. The body
        does nothing: a caller may rely on the contract alone. */
    method Interfere(ghost j: JobId)
      requires Valid()
      modifies this
      ensures Valid() && mine == old(mine) && ContinuesWithout(old(trace), trace, j)
    {
    }

    /** An await inside job `j`'s code: others run, but its row and its place are kept. */
    method Await(ghost j: JobId)
      requires Valid() && j in view.procs
      modifies this
      ensures Valid() && mine == old(mine) && old(trace) <= trace
      ensures j in view.procs && view.procs[j] == old(view).procs[j]
      ensures j in jobs <==> j in old(jobs)
      ensures j in jobs ==> jobs[j] == old(jobs)[j]
    {
      ghost var before := trace;
      ChainIsRun(states, trace);
      Interfere(j);
      ChainIsRun(states, trace);
      OthersKeepJob(before, trace, j);
    }

    /** An await of a request that is no longer tied to a job's process. */
    method Interlude()
      requires Valid()
      modifies this
      ensures Valid() && mine == old(mine) && old(trace) <= trace
    {
    }

    /** Like `Interlude`; rows that exist stay, and keep what they ask for. */
    method AwaitAnyone()
      requires Valid()
      modifies this
      ensures Valid() && mine == old(mine) && old(trace) <= trace
      ensures forall j | j in old(jobs) :: j in jobs && SameSubject(jobs[j], old(jobs)[j])
    {
      ghost var before := trace;
      ChainIsRun(states, trace);
      Interlude();
      ChainIsRun(states, trace);
      forall j | j in old(jobs)
        ensures j in jobs && SameSubject(jobs[j], old(jobs)[j])
      {
        RowsOutlive(before, trace, j);
      }
    }

    /** Half a second of sleep, and the session's stale view of the rows expired. */
    method Sleep()
      requires Valid()
      modifies this
      ensures Valid() && old(trace) <= trace
      ensures mine == old(mine).(sleeps := old(mine).sleeps + [|trace|])
      ensures forall j | j in old(jobs) :: j in jobs && SameSubject(jobs[j], old(jobs)[j])
    {
      AwaitAnyone();
      mine := mine.(sleeps := mine.sleeps + [|trace|]);
    }

    // ---------- Redis ----------

    method NewJobId(video: string, jobType: JobType, language: string, callback: bool) returns (j: JobId)
      requires Valid()
      modifies this`serial, this`mine, this`trace, this`states, this`view
      ensures Valid() && trace == old(trace) + [Mint(j, video, jobType, language, callback)]
      ensures Minted(old(mine), mine, j)
      ensures j !in old(view).procs
      ensures j in view.procs && view.procs[j] == Proc(video, jobType, language, callback, TryLock)
    {
      j := serial;
      serial := serial + 1;
      mine := mine.(minted := mine.minted + {j});
      Record(Mint(j, video, jobType, language, callback));
    }

    /** SET NX EX. */
    method AcquireLock(video: string, op: LockOp, value: JobId) returns (acquired: bool)
      requires Valid() && (At(view, value, TryLock) || At(view, value, RetryLock))
      requires KeyOf(view.procs[value]) == LockKey(op, video)
      modifies this`redis, this`trace, this`states, this`view
      ensures Valid() && trace == old(trace) + [SetNx(value)]
      ensures acquired <==> LockKey(op, video) !in old(redis)
      ensures redis == if acquired
                       then old(redis)[LockKey(op, video) := Lock(value, clock + LOCK_TTL_SECONDS)]
                       else old(redis)
      ensures value in view.procs
      ensures view.procs[value] == old(view).procs[value].(
                pc := if acquired then InsertRow else if old(At(view, value, TryLock)) then FirstLookup else Conflict)
    {
      var k := LockKey(op, video);
      acquired := k !in redis;
      if acquired {
        redis := redis[k := Lock(value, clock + LOCK_TTL_SECONDS)];
      }
      Record(SetNx(value));
    }

    /** The compare-and-delete script; `ok` is false when the call itself raises. */
    method ReleaseLock(video: string, op: LockOp, value: JobId, ok: bool) returns (released: nat)
      requires Valid() && At(view, value, Releasing)
      requires KeyOf(view.procs[value]) == LockKey(op, video)
      modifies this`redis, this`trace, this`states, this`view
      ensures Valid() && trace == old(trace) + [Release(value, ok)]
      ensures var k := LockKey(op, video);
        released == if ok && k in old(redis) && old(redis)[k].owner == value then 1 else 0
      ensures redis == if released == 1 then old(redis) - {LockKey(op, video)} else old(redis)
      ensures value in view.procs && view.procs[value] == old(view).procs[value].(pc := Finished)
      ensures ok ==> !Owns(view, value, LockKey(op, video))
    {
      var k := LockKey(op, video);
      released := 0;
      if ok && k in redis && redis[k].owner == value {
        redis := redis - {k};
        released := 1;
      }
      Record(Release(value, ok));
    }

    /** Unconditional delete of a lock thought to be orphaned. */
    method StealStaleLock(video: string, op: LockOp, thief: JobId)
      requires Valid() && At(view, thief, StealLock) && KeyOf(view.procs[thief]) == LockKey(op, video)
      modifies this`redis, this`trace, this`states, this`view
      ensures Valid() && trace == old(trace) + [Steal(thief)]
      ensures redis == old(redis) - {LockKey(op, video)}
      ensures thief in view.procs && view.procs[thief] == old(view).procs[thief].(pc := RetryLock)
    {
      redis := redis - {LockKey(op, video)};
      Record(Steal(thief));
    }

    // ---------- The jobs ledger ----------

    /** The query: a row of that video and type that is queued or running, none newer. */
    static method NewestInFlight(rows: map<JobId, Row>, video: string, jobType: JobType) returns (found: Option<JobId>)
      ensures found.Some? ==>
                && found.value in rows && rows[found.value].video == video && rows[found.value].jobType == jobType
                && (rows[found.value].status == Queued || rows[found.value].status == Running)
      ensures forall y | y in rows && rows[y].video == video && rows[y].jobType == jobType
                         && (rows[y].status == Queued || rows[y].status == Running) ::
                found.Some? && rows[y].createdAt <= rows[found.value].createdAt
    {
      found := None;
      var todo := rows.Keys;
      while todo != {}
        invariant todo <= rows.Keys
        invariant found.Some? ==>
                    && found.value in rows.Keys - todo
                    && InFlightStatus(rows[found.value].status)
                    && rows[found.value].video == video && rows[found.value].jobType == jobType
        invariant forall y | y in rows.Keys - todo && InFlightStatus(rows[y].status)
                             && rows[y].video == video && rows[y].jobType == jobType ::
                    found.Some? && rows[y].createdAt <= rows[found.value].createdAt
        decreases todo
      {
        var y :| y in todo;
        todo := todo - {y};
        if InFlightStatus(rows[y].status) && rows[y].video == video && rows[y].jobType == jobType
           && (found.None? || rows[found.value].createdAt < rows[y].createdAt) {
          found := Some(y);
        }
      }
    }

    /** The newest queued or running row of a video and type, for the enqueuer `j`. */
    method FindInProgressJob(video: string, jobType: JobType, j: JobId) returns (found: Option<JobId>)
      requires Valid() && (At(view, j, FirstLookup) || At(view, j, SecondLookup))
      requires KeyOf(view.procs[j]) == LockKey(LockOpOf(jobType), video)
      modifies this`trace, this`states, this`view
      ensures Valid() && trace == old(trace) + [Lookup(j, found)]
      ensures LookupAnswer(view, LockKey(LockOpOf(jobType), video), found)
      ensures forall y | y in jobs && jobs[y].video == video && jobs[y].jobType == jobType
                         && (jobs[y].status == Queued || jobs[y].status == Running) ::
                found.Some? && found.value in jobs && jobs[y].createdAt <= jobs[found.value].createdAt
      ensures found.Some? ==>
                && found.value in jobs && jobs[found.value].video == video && jobs[found.value].jobType == jobType
                && InFlightStatus(jobs[found.value].status)
      ensures j in view.procs
      ensures view.procs[j] == old(view).procs[j].(
                pc := if found.Some? then Refused(found.value)
                      else if old(At(view, j, FirstLookup)) then SecondLookup else StealLock)
    {
      found := NewestInFlight(jobs, video, jobType);
      assert LookupAnswer(view, LockKey(LockOpOf(jobType), video), found);
      Record(Lookup(j, found));
    }

    /** Add and commit the row. */
    method InsertJob(j: JobId, video: string, jobType: JobType, language: string, callback: bool)
      requires Valid() && At(view, j, InsertRow)
      requires view.procs[j] == Proc(video, jobType, language, callback, InsertRow)
      modifies this`jobs, this`trace, this`states, this`view
      ensures Valid() && trace == old(trace) + [Insert(j)]
      ensures jobs == old(jobs)[j := Row(video, jobType, language, callback, Queued, clock, None, None, None)]
      ensures j in view.procs && view.procs[j] == old(view).procs[j].(pc := PushTask)
    {
      jobs := jobs[j := Row(video, jobType, language, callback, Queued, clock, None, None, None)];
      Record(Insert(j));
    }

    /** Hand the job to the queue; `ok` is false when that raises. */
    method PushToQueue(j: JobId, ok: bool)
      requires Valid() && At(view, j, PushTask)
      modifies this`trace, this`states, this`view
      ensures Valid() && trace == old(trace) + [Push(j, ok)]
      ensures j in view.procs
      ensures view.procs[j] == old(view).procs[j].(pc := if ok then AwaitWorker else Failing(PushRaised))
    {
      Record(Push(j, ok));
    }

    method MarkJobRunning(j: JobId)
      requires Valid() && At(view, j, AwaitWorker) && j in jobs
      modifies this`jobs, this`trace, this`states, this`view
      ensures Valid() && trace == old(trace) + [MarkRunning(j)]
      ensures j in old(jobs) && jobs == old(jobs)[j := old(jobs)[j].(status := Running, startedAt := Some(clock))]
      ensures j in view.procs
      ensures view.procs[j] == old(view).procs[j].(
                pc := if old(view).procs[j].jobType == Whisper then Transcribing else LoadingTranscript)
    {
      jobs := jobs[j := jobs[j].(status := Running, startedAt := Some(clock))];
      Record(MarkRunning(j));
    }

    method MarkJobComplete(j: JobId)
      requires Valid() && At(view, j, Completing)
      modifies this`jobs, this`trace, this`states, this`view
      ensures Valid() && trace == old(trace) + [MarkComplete(j)]
      ensures jobs == if j !in old(jobs) then old(jobs)
                      else old(jobs)[j := old(jobs)[j].(status := Complete, finishedAt := Some(clock), error := None)]
      ensures j in view.procs
      ensures view.procs[j] == old(view).procs[j].(
                pc := if old(view).procs[j].jobType == Whisper then Notifying else Releasing)
    {
      if j in jobs {
        jobs := jobs[j := jobs[j].(status := Complete, finishedAt := Some(clock), error := None)];
      }
      Record(MarkComplete(j));
    }

    method MarkJobFailed(j: JobId, error: Cause)
      requires Valid() && At(view, j, Failing(error))
      modifies this`jobs, this`trace, this`states, this`view
      ensures Valid() && trace == old(trace) + [MarkFailed(j)]
      ensures jobs == if j !in old(jobs) then old(jobs)
                      else old(jobs)[j := old(jobs)[j].(
                             status := Failed, finishedAt := Some(clock), error := Some(error))]
      ensures j in view.procs && view.procs[j] == old(view).procs[j].(pc := Releasing)
    {
      if j in jobs {
        jobs := jobs[j := jobs[j].(status := Failed, finishedAt := Some(clock), error := Some(error))];
      }
      Record(MarkFailed(j));
    }

    /** Any failure path: wait for the database, then fail the row. */
    method FailJob(j: JobId, error: Cause)
      requires Valid() && At(view, j, Failing(error)) && j in jobs
      modifies this
      ensures Valid() && mine == old(mine) && old(trace) <= trace
      ensures j in view.procs && view.procs[j] == old(view).procs[j].(pc := Releasing)
      ensures j in jobs
      ensures jobs[j] == old(jobs)[j].(status := Failed, finishedAt := jobs[j].finishedAt, error := Some(error))
    {
      Await(j);
      MarkJobFailed(j, error);
    }

    /** The last act of every job: wait for Redis, then give the lock back. */
    method LetGo(j: JobId, video: string, op: LockOp, ok: bool)
      requires Valid() && At(view, j, Releasing) && KeyOf(view.procs[j]) == LockKey(op, video)
      modifies this
      ensures Valid() && mine == old(mine) && old(trace) <= trace
      ensures j in view.procs && view.procs[j] == old(view).procs[j].(pc := Finished)
      ensures j in jobs <==> j in old(jobs)
      ensures j in jobs ==> jobs[j] == old(jobs)[j]
      ensures Release(j, ok) in trace
      ensures ok ==> !Owns(view, j, LockKey(op, video))
    {
      Await(j);
      var _ := ReleaseLock(video, op, j, ok);
    }

    // ---------- Enqueueing ----------

    /** Remove the lock for which no job was found, and try once more. */
    method StealAndRetry(j: JobId, video: string, op: LockOp) returns (acquired: bool)
      requires Valid() && At(view, j, StealLock) && KeyOf(view.procs[j]) == LockKey(op, video)
      modifies this
      ensures Valid() && mine == old(mine) && old(trace) <= trace && j in view.procs
      ensures view.procs[j] == old(view).procs[j].(pc := if acquired then InsertRow else Conflict)
      ensures Steal(j) in trace
      ensures LockKey(op, video) in redis
      ensures acquired ==> redis[LockKey(op, video)] == Lock(j, clock + LOCK_TTL_SECONDS)
    {
      Await(j);
      StealStaleLock(video, op, j);
      ghost var stolen := trace;
      Await(j);
      acquired := AcquireLock(video, op, j);
      InLongerTrace(stolen, trace, Steal(j));
    }

    /** Two lookups for the job behind a taken lock, with others in between. */
    method LookTwice(j: JobId, video: string, jobType: JobType) returns (found: Option<JobId>)
      requires Valid() && At(view, j, FirstLookup) && KeyOf(view.procs[j]) == LockKey(LockOpOf(jobType), video)
      modifies this
      ensures Valid() && mine == old(mine) && old(trace) <= trace && j in view.procs
      ensures view.procs[j] == old(view).procs[j].(pc := if found.Some? then Refused(found.value) else StealLock)
      ensures found.Some? ==>
                && found.value in jobs && jobs[found.value].video == video && jobs[found.value].jobType == jobType
                && InFlightStatus(jobs[found.value].status)
    {
      found := FindInProgressJob(video, jobType, j);
      if found.None? {
        Await(j);
        found := FindInProgressJob(video, jobType, j);
      }
    }

    /** The lock is taken: look twice for the job that holds it, 50 ms apart, and if there
        is none treat the lock as orphaned, steal it and try once more. */
    method RecoverLock(j: JobId, video: string, jobType: JobType) returns (r: ClaimResult)
      requires Valid() && At(view, j, FirstLookup) && KeyOf(view.procs[j]) == LockKey(LockOpOf(jobType), video)
      modifies this
      ensures Valid() && mine == old(mine) && old(trace) <= trace && j in view.procs
      ensures view.procs[j] == old(view).procs[j].(
                pc := match r case Claimed => InsertRow case Held(x) => Refused(x) case Contended => Conflict)
      ensures r.Held? ==>
                && r.existing in jobs && jobs[r.existing].video == video && jobs[r.existing].jobType == jobType
                && InFlightStatus(jobs[r.existing].status)
      ensures !r.Held? ==> Steal(j) in trace && LockKey(LockOpOf(jobType), video) in redis
      ensures r.Claimed? ==> redis[LockKey(LockOpOf(jobType), video)] == Lock(j, clock + LOCK_TTL_SECONDS)
    {
      var existing := LookTwice(j, video, jobType);
      if existing.Some? {
        return Held(existing.value);
      }
      var acquired := StealAndRetry(j, video, LockOpOf(jobType));
      return if acquired then Claimed else Contended;
    }

    /** Take the lock, or find out why not. */
    method ClaimLock(j: JobId, video: string, jobType: JobType) returns (r: ClaimResult)
      requires Valid() && At(view, j, TryLock) && KeyOf(view.procs[j]) == LockKey(LockOpOf(jobType), video)
      modifies this
      ensures Valid() && mine == old(mine) && old(trace) <= trace && j in view.procs
      ensures view.procs[j] == old(view).procs[j].(
                pc := match r case Claimed => InsertRow case Held(x) => Refused(x) case Contended => Conflict)
      ensures r.Held? ==>
                && r.existing in jobs && jobs[r.existing].video == video && jobs[r.existing].jobType == jobType
                && InFlightStatus(jobs[r.existing].status)
      ensures r.Claimed? ==>
                && LockKey(LockOpOf(jobType), video) in redis
                && redis[LockKey(LockOpOf(jobType), video)] == Lock(j, clock + LOCK_TTL_SECONDS)
      ensures r.Contended? ==> Steal(j) in trace
    {
      var acquired := AcquireLock(video, LockOpOf(jobType), j);
      if acquired {
        return Claimed;
      }
      Await(j);
      r := RecoverLock(j, video, jobType);
    }

    /** Insert the row and push the job; undo both the row and the lock if the push raises. */
    method PublishJob(j: JobId, video: string, jobType: JobType, language: string, callback: bool, pushOk: bool,
        releaseOk: bool)
      requires Valid() && At(view, j, InsertRow)
      requires view.procs[j] == Proc(video, jobType, language, callback, InsertRow)
      modifies this
      ensures Valid() && mine == old(mine) && old(trace) <= trace
      ensures j in jobs && jobs[j].video == video && jobs[j].jobType == jobType
      ensures jobs[j].language == language && jobs[j].callback == callback
      ensures j in view.procs && view.procs[j] == old(view).procs[j].(pc := if pushOk then AwaitWorker else Finished)
      ensures jobs[j].status == if pushOk then Queued else Failed
      ensures !pushOk ==> jobs[j].error == Some(PushRaised) && Release(j, releaseOk) in trace
      ensures !pushOk && releaseOk ==> !Owns(view, j, LockKey(LockOpOf(jobType), video))
    {
      InsertJob(j, video, jobType, language, callback);
      Await(j);
      PushToQueue(j, pushOk);
      if !pushOk {
        FailJob(j, PushRaised);
        LetGo(j, video, LockOpOf(jobType), releaseOk);
      }
    }

    /** A job that was refused, or has not got past its lock, has no row. */
    lemma NoRowYet(j: JobId)
      requires Valid() && j in view.procs && BeforeLock(view.procs[j].pc)
      ensures j !in jobs
    {
      ChainIsRun(states, trace);
      RunKeepsInv(trace);
      assert LedgerOk(view, j);
    }

    /** Enqueue a job of a registered type: take the lock, or point at the job that holds
        it, or steal a lock that no job can be found for. `pushOk` and `releaseOk` are the
        outcomes of the queue push and of the lock release after a failed push. Each answer
        is given only where the new job's process has got to the matching end, which takes
        the lookups and the steal that lead there. */
    method EnqueueJob(video: string, jobType: JobType, language: string, callback: bool, pushOk: bool, releaseOk: bool)
      returns (r: EnqueueResult)
      requires Valid()
      modifies this
      ensures Valid() && old(trace) <= trace
      ensures r.Enqueued? ==>
                && pushOk && r.id !in old(view).procs
                && r.id in jobs && jobs[r.id].video == video && jobs[r.id].jobType == jobType
                && jobs[r.id].language == language && jobs[r.id].callback == callback
                && jobs[r.id].status == Queued
      ensures r.InProgress? ==>
                && r.existing in jobs && jobs[r.existing].video == video && jobs[r.existing].jobType == jobType
                && InFlightStatus(jobs[r.existing].status)
      ensures exists j :: Minted(old(mine), mine, j)
                          && AnswerOf(view, j, r, Proc(video, jobType, language, callback, TryLock))
                          && (r.LockConflict? ==> Steal(j) in trace)
      ensures r.EnqueueFailed? ==>
                && !pushOk && r.id in jobs && jobs[r.id].status == Failed && jobs[r.id].error == Some(PushRaised)
                && jobs[r.id].video == video && jobs[r.id].jobType == jobType
                && Release(r.id, releaseOk) in trace
                && (releaseOk ==> !Owns(view, r.id, LockKey(LockOpOf(jobType), video)))
    {
      var j := NewJobId(video, jobType, language, callback);
      assert Minted(old(mine), mine, j);
      Await(j);
      var claim := ClaimLock(j, video, jobType);
      if claim.Held? {
        NoRowYet(j);
        return InProgress(claim.existing);
      } else if claim.Contended? {
        NoRowYet(j);
        return LockConflict;
      }
      Await(j);
      PublishJob(j, video, jobType, language, callback, pushOk, releaseOk);
      return if pushOk then Enqueued(j) else EnqueueFailed(j);
    }

    // ---------- The whisper worker ----------

    /** Load the row a task was queued for. */
    method GetJob(j: JobId) returns (job: Option<Row>)
      requires Valid()
      ensures job == if j in jobs then Some(jobs[j]) else None
      ensures j in view.procs && job.Some? ==> RowIsAbout(job.value, view.procs[j])
      ensures At(view, j, AwaitWorker) ==> job.Some?
    {
      ChainIsRun(states, trace);
      RunKeepsInv(trace);
      assert j in view.procs ==> LedgerOk(view, j);
      job := if j in jobs then Some(jobs[j]) else None;
    }

    /** Store and commit a finished transcription, or note the exception that came first. */
    method StoreTranscription(j: JobId, video: string, language: string, result: Option<Transcription>)
      requires Valid() && At(view, j, Transcribing) && (result.Some? ==> !Tagged(result.value.snippets))
      requires view.procs[j].video == video && view.procs[j].language == language
      modifies this`transcripts, this`trace, this`states, this`view
      ensures Valid() && trace == old(trace) + [Transcribed(j, result)]
      ensures j in view.procs
      ensures view.procs[j] == old(view).procs[j].(pc := if result.Some? then Completing else Failing(WorkRaised))
      ensures transcripts ==
              if result.None? then old(transcripts)
              else PutTranscript(old(transcripts),
                                 CacheKey(video,
                                          if result.value.language != "" then result.value.language else language),
                                 result.value.source, result.value.snippets, None, false, clock)
    {
      if result.Some? {
        var out := result.value;
        var k := CacheKey(video, if out.language != "" then out.language else language);
        transcripts := PutTranscript(transcripts, k, out.source, out.snippets, None, false, clock);
      }
      Record(Transcribed(j, result));
    }

    /** Schedule the completion webhook; `ok` is false when that raises. */
    method NotifyCompletion(j: JobId, ok: bool)
      requires Valid() && At(view, j, Notifying) && (!ok ==> view.procs[j].callback)
      modifies this`trace, this`states, this`view
      ensures Valid() && trace == old(trace) + [Notify(j, ok)]
      ensures j in view.procs
      ensures view.procs[j] == old(view).procs[j].(pc := if ok then Releasing else Failing(WebhookRaised))
    {
      Record(Notify(j, ok));
    }

    /** Load the row and mark it running. */
    method StartJob(j: JobId) returns (video: string, language: string, callback: bool)
      requires Valid() && At(view, j, AwaitWorker)
      modifies this
      ensures Valid() && mine == old(mine) && old(trace) <= trace
      ensures j in view.procs
      ensures view.procs[j] == old(view).procs[j].(
                pc := if old(view).procs[j].jobType == Whisper then Transcribing else LoadingTranscript)
      ensures view.procs[j].video == video && view.procs[j].language == language && view.procs[j].callback == callback
      ensures j in jobs && jobs[j].video == video && jobs[j].status == Running
    {
      Await(j);
      var job := GetJob(j);
      video, language, callback := job.value.video, job.value.language, job.value.callback;
      Await(j);
      MarkJobRunning(j);
    }

    /** Mark the row complete, then schedule the webhook; a raising webhook fails the row. */
    method FinishWhisper(j: JobId, callback: bool, notifyOk: bool)
      requires Valid() && At(view, j, Completing) && view.procs[j].jobType == Whisper
      requires view.procs[j].callback == callback && j in jobs
      modifies this
      ensures Valid() && mine == old(mine) && old(trace) <= trace
      ensures j in view.procs && view.procs[j] == old(view).procs[j].(pc := Releasing)
      ensures j in jobs && jobs[j].video == old(jobs)[j].video
      ensures jobs[j].status == if callback && !notifyOk then Failed else Complete
      ensures jobs[j].status == Failed ==> jobs[j].error == Some(WebhookRaised)
    {
      MarkJobComplete(j);
      Await(j);
      NotifyCompletion(j, !callback || notifyOk);
      if callback && !notifyOk {
        FailJob(j, WebhookRaised);
      }
    }

    /** The whisper task. The row ends complete exactly when the transcript was stored and
        the webhook, if one was asked for, was scheduled; whatever happens, a release that
        goes through leaves the job without the lock. */
    method RunWhisperJob(j: JobId, result: Option<Transcription>, notifyOk: bool, releaseOk: bool)
      requires Valid() && At(view, j, AwaitWorker) && view.procs[j].jobType == Whisper
      requires result.Some? ==> !Tagged(result.value.snippets)
      modifies this
      ensures Valid() && mine == old(mine) && old(trace) <= trace && At(view, j, Finished) && j in jobs
      ensures jobs[j].status == Complete <==> result.Some? && (old(view).procs[j].callback ==> notifyOk)
      ensures jobs[j].status != Complete ==> jobs[j].status == Failed
      ensures jobs[j].status == Failed ==> jobs[j].error == Some(if result.None? then WorkRaised else WebhookRaised)
      ensures Transcribed(j, result) in trace && Release(j, releaseOk) in trace
      ensures releaseOk ==> !Owns(view, j, LockKey(WhisperOp, jobs[j].video))
    {
      var video, language, callback := StartJob(j);
      Await(j);
      StoreTranscription(j, video, language, result);
      ghost var stored := trace;
      if result.Some? {
        Await(j);
        FinishWhisper(j, callback, notifyOk);
      } else {
        FailJob(j, WorkRaised);
      }
      LetGo(j, video, WhisperOp, releaseOk);
      InLongerTrace(stored, trace, Transcribed(j, result));
    }

    // ---------- The diarization worker ----------

    /** Read the cached transcript and decide whether it may be diarized. */
    method LoadForDiarization(j: JobId, video: string, language: string, available: bool)
      returns (r: Option<CacheRow>, refusal: Cause)
      requires Valid() && At(view, j, LoadingTranscript)
      requires view.procs[j].video == video && view.procs[j].language == language
      modifies this`trace, this`states, this`view
      ensures Valid() && trace == old(trace) + [LoadTranscript(j, available)]
      ensures var got := GetTranscript(transcripts, CacheKey(video, language), clock);
        && (r.Some? <==> got.Some? && got.value.source != YoutubeCaptions && available)
        && (r.Some? ==> r == got)
        && (r.None? ==> refusal == if got.None? then NotCached
                                   else if got.value.source == YoutubeCaptions then CaptionsSource
                                   else PipelineUnavailable)
      ensures j in view.procs
      ensures view.procs[j] == old(view).procs[j].(
                pc := if r.Some? then Tagging(r.value.snippets) else Failing(refusal))
    {
      r, refusal := None, NotCached;
      var record := GetTranscript(transcripts, CacheKey(video, language), clock);
      if record.None? {
        refusal := NotCached;
      } else if record.value.source == YoutubeCaptions {
        refusal := CaptionsSource;
      } else if !available {
        refusal := PipelineUnavailable;
      } else {
        r := record;
      }
      Record(LoadTranscript(j, available));
    }

    /** Write the tags and commit; the row count tells whether the row was still there. */
    method CommitTags(j: JobId, video: string, language: string, read: seq<Snippet>,
        labels: Option<seq<Option<string>>>)
      returns (failure: Option<Cause>)
      requires Valid() && At(view, j, Tagging(read))
      requires view.procs[j].video == video && view.procs[j].language == language
      requires labels.Some? ==> |labels.value| == |read|
      modifies this`transcripts, this`trace, this`states, this`view
      ensures Valid() && trace == old(trace) + [TagCommit(j, labels)]
      ensures var k := CacheKey(video, language);
        && failure == (if labels.None? then Some(WorkRaised)
                       else if k !in old(transcripts) then Some(RowGone)
                       else None)
        && transcripts == if failure.Some? then old(transcripts)
                          else PutDiarization(old(transcripts), k, Tag(read, labels.value), true)
      ensures j in view.procs
      ensures view.procs[j] == old(view).procs[j].(pc := if failure.Some? then Failing(failure.value) else Completing)
    {
      var k := CacheKey(video, language);
      if labels.None? {
        failure := Some(WorkRaised);
      } else {
        var rowcount := DiarizationRowcount(transcripts, k);
        if rowcount == 0 {
          failure := Some(RowGone);
        } else {
          transcripts := PutDiarization(transcripts, k, Tag(read, labels.value), true);
          failure := None;
        }
      }
      Record(TagCommit(j, labels));
    }

    /** The last state of the trace is the present one. */
    lemma PresentState()
      requires Valid()
      ensures IsRun(trace) && StateAt(trace, |trace|) == view
    {
      ChainIsRun(states, trace);
      assert trace[..|trace|] == trace;
    }

    /** Load, with the reason for every failure that the load decides. */
    method LoadWithReason(j: JobId, video: string, language: string, available: bool,
                          ghost diarize: seq<Snippet> -> Option<seq<Option<string>>>)
      returns (r: Option<CacheRow>, refusal: Cause)
      requires Valid() && At(view, j, LoadingTranscript)
      requires view.procs[j].video == video && view.procs[j].language == language
      modifies this`trace, this`states, this`view
      ensures Valid() && trace == old(trace) + [LoadTranscript(j, available)]
      ensures var k := CacheKey(video, language);
        if r.None? then Settled(trace, |old(trace)|, j, k, available, diarize, Some(refusal))
        else LoadedFor(trace, |old(trace)|, j, k, r.value.snippets, available, diarize)
      ensures j in view.procs
      ensures view.procs[j] == old(view).procs[j].(
                pc := if r.Some? then Tagging(r.value.snippets) else Failing(refusal))
    {
      ghost var k, start := CacheKey(video, language), trace;
      PresentState();
      r, refusal := LoadForDiarization(j, video, language, available);
      PresentState();
      PrefixKeepsState(start, trace, |start|);
      if r.None? {
        assert Explains(start, |start|, k, available, diarize, refusal);
        ExplainedLater(start, trace, |start|, |start|, k, available, diarize, refusal);
      } else if diarize(r.value.snippets).None? {
        assert Explains(start, |start|, k, available, diarize, WorkRaised);
        ExplainedLater(start, trace, |start|, |start|, k, available, diarize, WorkRaised);
      }
    }

    /** Commit, with the reason when the row turns out to be gone. */
    method CommitWithReason(j: JobId, video: string, language: string, read: seq<Snippet>,
                            labels: Option<seq<Option<string>>>, available: bool,
                            ghost diarize: seq<Snippet> -> Option<seq<Option<string>>>)
      returns (failure: Option<Cause>)
      requires Valid() && At(view, j, Tagging(read))
      requires view.procs[j].video == video && view.procs[j].language == language
      requires labels.Some? ==> |labels.value| == |read|
      modifies this`transcripts, this`trace, this`states, this`view
      ensures Valid() && trace == old(trace) + [TagCommit(j, labels)]
      ensures labels.None? ==> failure == Some(WorkRaised)
      ensures failure.None? ==>
                labels.Some? && Landed(trace, |old(trace)|, j, CacheKey(video, language), read, labels.value)
      ensures labels.Some? && failure.Some? ==>
                && failure.value == RowGone
                && Explained(trace, |old(trace)|, CacheKey(video, language), available, diarize, RowGone)
      ensures j in view.procs
      ensures view.procs[j] == old(view).procs[j].(pc := if failure.Some? then Failing(failure.value) else Completing)
    {
      ghost var k, start := CacheKey(video, language), trace;
      PresentState();
      failure := CommitTags(j, video, language, read, labels);
      PresentState();
      PrefixKeepsState(start, trace, |start|);
      if labels.Some? && failure.Some? {
        assert Explains(start, |start|, k, available, diarize, RowGone);
        ExplainedLater(start, trace, |start|, |start|, k, available, diarize, RowGone);
      }
    }

    /** Run the pipeline on the loaded snippets, while others act, and commit its labels. */
    method DiarizeAndCommit(j: JobId, video: string, language: string, read: seq<Snippet>, available: bool,
                            diarize: seq<Snippet> -> Option<seq<Option<string>>>)
      returns (failure: Option<Cause>)
      requires Valid() && At(view, j, Tagging(read))
      requires view.procs[j].video == video && view.procs[j].language == language
      requires forall ss :: diarize(ss).Some? ==> |diarize(ss).value| == |ss|
      modifies this
      ensures Valid() && mine == old(mine) && old(trace) <= trace && j in view.procs
      ensures view.procs[j] == old(view).procs[j].(pc := if failure.Some? then Failing(failure.value) else Completing)
      ensures j in jobs <==> j in old(jobs)
      ensures j in jobs ==> jobs[j] == old(jobs)[j]
      ensures TagCommit(j, diarize(read)) in trace
      ensures Committed(trace, |old(trace)|, j, CacheKey(video, language), read, available, diarize, failure)
    {
      ghost var start := |trace|;
      Await(j);
      ghost var waited := |trace|;
      var labels := diarize(read);
      failure := CommitWithReason(j, video, language, read, labels, available, diarize);
      PresentState();
      if labels.Some? && failure.Some? {
        ExplainedLater(trace, trace, waited, start, CacheKey(video, language), available, diarize, RowGone);
      }
    }

    /** The rest of it, for the snippets that event number `i` loaded. */
    method DiarizeLoaded(j: JobId, video: string, language: string, read: seq<Snippet>, available: bool,
                         diarize: seq<Snippet> -> Option<seq<Option<string>>>, ghost i: nat)
      returns (failure: Option<Cause>)
      requires Valid() && At(view, j, Tagging(read))
      requires view.procs[j].video == video && view.procs[j].language == language
      requires forall ss :: diarize(ss).Some? ==> |diarize(ss).value| == |ss|
      requires LoadedFor(trace, i, j, CacheKey(video, language), read, available, diarize)
      modifies this
      ensures Valid() && mine == old(mine) && old(trace) <= trace && j in view.procs
      ensures view.procs[j] == old(view).procs[j].(pc := if failure.Some? then Failing(failure.value) else Completing)
      ensures j in jobs <==> j in old(jobs)
      ensures j in jobs ==> jobs[j] == old(jobs)[j]
      ensures Settled(trace, i, j, CacheKey(video, language), available, diarize, failure)
    {
      ghost var loaded := trace;
      failure := DiarizeAndCommit(j, video, language, read, available, diarize);
      PresentState();
      LoadAndCommitSettle(loaded, trace, i, j, CacheKey(video, language), read, available, diarize, failure);
    }

    /** Load, diarize and write back: the part of the work between its two status changes. */
    method TagTranscript(j: JobId, video: string, language: string, available: bool,
                         diarize: seq<Snippet> -> Option<seq<Option<string>>>)
      returns (failure: Option<Cause>)
      requires Valid() && At(view, j, LoadingTranscript)
      requires view.procs[j].video == video && view.procs[j].language == language
      requires forall ss :: diarize(ss).Some? ==> |diarize(ss).value| == |ss|
      modifies this
      ensures Valid() && mine == old(mine) && old(trace) <= trace && j in view.procs
      ensures view.procs[j] == old(view).procs[j].(pc := if failure.Some? then Failing(failure.value) else Completing)
      ensures j in jobs <==> j in old(jobs)
      ensures j in jobs ==> jobs[j] == old(jobs)[j]
      ensures Settled(trace, |old(trace)|, j, CacheKey(video, language), available, diarize, failure)
    {
      ghost var start := |trace|;
      var record, refusal := LoadWithReason(j, video, language, available, diarize);
      if record.None? {
        failure := Some(refusal);
      } else {
        failure := DiarizeLoaded(j, video, language, record.value.snippets, available, diarize, start);
      }
    }

    /** The diarization task. `diarize` maps the loaded snippets to speaker labels, or to
        None when the download or the pipeline raises. A complete row means that its labels
        for the snippets it loaded landed in an existing transcript; every other outcome
        names its reason. */
    method RunDiarizationJob(j: JobId, available: bool, diarize: seq<Snippet> -> Option<seq<Option<string>>>,
        releaseOk: bool)
      requires Valid() && At(view, j, AwaitWorker) && view.procs[j].jobType == Enrichment
      requires forall ss :: diarize(ss).Some? ==> |diarize(ss).value| == |ss|
      modifies this
      ensures Valid() && mine == old(mine) && old(trace) <= trace && At(view, j, Finished) && j in jobs
      ensures jobs[j].status == Complete || jobs[j].status == Failed
      ensures jobs[j].status == Complete ==>
                && available
                && Diarized(trace, |old(trace)|, j, CacheKey(old(view).procs[j].video, old(view).procs[j].language),
                            diarize)
      ensures jobs[j].status == Failed ==>
                && jobs[j].error.Some?
                && Explained(trace, |old(trace)|, CacheKey(old(view).procs[j].video, old(view).procs[j].language),
                             available, diarize, jobs[j].error.value)
      ensures Release(j, releaseOk) in trace
      ensures releaseOk ==> !Owns(view, j, LockKey(DiarizeOp, jobs[j].video))
    {
      var video, language, _ := StartJob(j);
      Await(j);
      ghost var started := trace;
      var failure := TagTranscript(j, video, language, available, diarize);
      ghost var tagged := trace;
      EndDiarization(j, video, failure, releaseOk);
      PresentState();
      SettledLater(tagged, trace, |started|, |old(trace)|, j, CacheKey(video, language), available, diarize, failure);
    }

    /** Mark the row by the outcome and give the lock back. */
    method EndDiarization(j: JobId, video: string, failure: Option<Cause>, releaseOk: bool)
      requires Valid() && j in view.procs && j in jobs
      requires view.procs[j].jobType == Enrichment && view.procs[j].video == video && jobs[j].video == video
      requires view.procs[j].pc == if failure.Some? then Failing(failure.value) else Completing
      modifies this
      ensures Valid() && mine == old(mine) && old(trace) <= trace && At(view, j, Finished)
      ensures j in jobs && jobs[j].video == video
      ensures jobs[j].status == if failure.Some? then Failed else Complete
      ensures jobs[j].error == failure
      ensures Release(j, releaseOk) in trace
      ensures releaseOk ==> !Owns(view, j, LockKey(DiarizeOp, video))
    {
      if failure.Some? {
        FailJob(j, failure.value);
      } else {
        Await(j);
        MarkJobComplete(j);
      }
      LetGo(j, video, DiarizeOp, releaseOk);
    }

    // ---------- The request path ----------

    method PurgeTranscript(video: string) returns (rows: nat)
      requires Valid()
      modifies this`transcripts, this`mine, this`trace, this`states, this`view
      ensures Valid() && trace == old(trace) + [PurgeVideo(video)]
      ensures mine == old(mine).(purged := old(mine).purged + [video])
      ensures transcripts == Purge(old(transcripts), video)
      ensures rows == |set k | k in old(transcripts) && k.video == video|
    {
      rows := |set k | k in transcripts && k.video == video|;
      transcripts := Purge(transcripts, video);
      mine := mine.(purged := mine.purged + [video]);
      Record(PurgeVideo(video));
    }

    method StoreCaptions(video: string, captions: Captions) returns (row: CacheRow)
      requires Valid() && !Tagged(captions.snippets)
      modifies this`transcripts, this`mine, this`trace, this`states, this`view
      ensures Valid() && trace == old(trace) + [PutCaptions(CacheKey(video, captions.language), captions.snippets)]
      ensures mine == old(mine).(captioned := old(mine).captioned + [CacheKey(video, captions.language)])
      ensures GetTranscript(transcripts, CacheKey(video, captions.language), clock) == Some(row)
      ensures row.source == YoutubeCaptions && row.snippets == captions.snippets && !row.hasDiarization
    {
      var k := CacheKey(video, captions.language);
      transcripts := PutTranscript(transcripts, k, YoutubeCaptions, captions.snippets, None, false, clock);
      row := transcripts[k];
      mine := mine.(captioned := mine.captioned + [k]);
      Record(PutCaptions(k, captions.snippets));
    }

    /** One poll of the ledger: half a second's sleep, then the row, and for a complete row
        the cache. */
    method PollOnce(j: JobId, video: string, language: string) returns (r: Option<WaitResult>)
      requires Valid() && j in jobs
      modifies this
      ensures Valid() && old(trace) <= trace && j in jobs && SameSubject(jobs[j], old(jobs)[j])
      ensures mine == old(mine).(sleeps := old(mine).sleeps + [|trace|])
      ensures r.None? ==> Unanswered(trace, |trace|, j, CacheKey(video, language))
      ensures r.Some? ==> !r.value.TimedOut? && Reported(r.value, j, CacheKey(video, language))
    {
      Sleep();
      PresentState();
      if jobs[j].status == Complete {
        var cached := GetTranscript(transcripts, CacheKey(video, language), clock);
        return if cached.Some? then Some(Ready(cached.value)) else None;
      } else if jobs[j].status == Failed {
        return Some(JobFailed(jobs[j].error));
      }
      return None;
    }

    /** What a wait for job `j` may report now. */
    predicate Reported(r: WaitResult, j: JobId, k: CacheKey)
      reads `jobs, `transcripts, `clock
    {
      && j in jobs
      && (r.Ready? ==> jobs[j].status == Complete && GetTranscript(transcripts, k, clock) == Some(r.row))
      && (r.JobFailed? ==> jobs[j].status == Failed && jobs[j].error == r.error)
    }

    /** Poll the ledger every half second until the job ends or the wait is over: the answer
        is the first that a poll gives, and there is none only after two sleeps for every
        second, each of which left the job unanswered. */
    method WaitForJobCompletion(j: JobId, video: string, language: string, waitSeconds: nat) returns (r: WaitResult)
      requires Valid() && j in jobs
      modifies this
      ensures Valid() && old(trace) <= trace && j in jobs && SameSubject(jobs[j], old(jobs)[j])
      ensures old(mine).sleeps <= mine.sleeps && mine == old(mine).(sleeps := mine.sleeps)
      ensures Reported(r, j, CacheKey(video, language))
      ensures var n, m := |old(mine).sleeps|, |mine.sleeps|;
        if r.TimedOut? then
          m == n + 2 * waitSeconds && SleptInVain(trace, mine.sleeps, n, m, j, CacheKey(video, language))
        else
          n < m <= n + 2 * waitSeconds && SleptInVain(trace, mine.sleeps, n, m - 1, j, CacheKey(video, language))
    {
      ghost var k, n := CacheKey(video, language), |mine.sleeps|;
      var elapsed := 0;  // in half seconds
      while elapsed < 2 * waitSeconds
        invariant Valid() && old(trace) <= trace && j in jobs && SameSubject(jobs[j], old(jobs)[j])
        invariant old(mine).sleeps <= mine.sleeps && mine == old(mine).(sleeps := mine.sleeps)
        invariant elapsed <= 2 * waitSeconds && |mine.sleeps| == n + elapsed
        invariant SleptInVain(trace, mine.sleeps, n, n + elapsed, j, k)
      {
        ghost var before, slept := trace, mine.sleeps;
        var polled := PollOnce(j, video, language);
        PresentState();
        SleptInVainLater(before, trace, slept, mine.sleeps, n, n + elapsed, j, k);
        if polled.Some? {
          return polled.value;
        }
        elapsed := elapsed + 1;
      }
      return TimedOut;
    }

    /** The first two tiers: the cache, then the captions adapter. */
    method LookupTiers(video: string, language: string, force: Force, captions: CaptionsOutcome)
      returns (r: Option<FetchResult>)
      requires Valid() && Untagged(captions)
      modifies this
      ensures Valid() && old(trace) <= trace
      ensures mine == TierDoings(old(mine), video, force, r, captions)
      ensures r.Some? ==> r.value.Cached? || r.value.Captioned? || r.value.UpstreamRaised?
      ensures force == ForceWhisper ==> r.None? && trace == old(trace)
      ensures var cached := GetTranscript(old(transcripts), CacheKey(video, language), old(clock));
        && (force == NoForce && cached.Some? ==> r == Some(Cached(cached.value)) && trace == old(trace))
        && (force == NoForce && cached.None? ==> r.None? || !r.value.Cached?)
      ensures force == ForceRefresh ==> old(trace) + [PurgeVideo(video)] <= trace
      ensures r.Some? && r.value.Cached? ==>
                GetTranscript(transcripts, CacheKey(video, language), clock) == Some(r.value.row)
      ensures r.Some? && r.value.Captioned? ==>
                && captions.Found?
                && r.value.row.source == YoutubeCaptions && r.value.row.snippets == captions.captions.snippets
                && GetTranscript(transcripts, CacheKey(video, captions.captions.language), clock) == Some(r.value.row)
      ensures r.Some? && r.value.UpstreamRaised? ==> captions.AdapterRaised?
      ensures force != ForceWhisper && !captions.NoCaptions? ==> r.Some?
    {
      r := None;
      if force == ForceRefresh {
        var _ := PurgeTranscript(video);
        ghost var purged := trace;
        AwaitAnyone();
        assert purged <= trace;
      }
      if force != ForceWhisper {
        r := LookupCached(video, language, captions);
      }
    }

    method LookupCached(video: string, language: string, captions: CaptionsOutcome) returns (r: Option<FetchResult>)
      requires Valid() && Untagged(captions)
      modifies this
      ensures Valid() && old(trace) <= trace
      ensures mine == TierDoings(old(mine), video, NoForce, r, captions)
      ensures r.Some? ==> r.value.Cached? || r.value.Captioned? || r.value.UpstreamRaised?
      ensures var cached := GetTranscript(old(transcripts), CacheKey(video, language), old(clock));
        && (cached.Some? ==> r == Some(Cached(cached.value)) && trace == old(trace))
        && (cached.None? ==> r.None? || !r.value.Cached?)
      ensures r.Some? && r.value.Cached? ==>
                GetTranscript(transcripts, CacheKey(video, language), clock) == Some(r.value.row)
      ensures r.Some? && r.value.Captioned? ==>
                && captions.Found?
                && r.value.row.source == YoutubeCaptions && r.value.row.snippets == captions.captions.snippets
                && GetTranscript(transcripts, CacheKey(video, captions.captions.language), clock) == Some(r.value.row)
      ensures r.Some? && r.value.UpstreamRaised? ==> captions.AdapterRaised?
      ensures !captions.NoCaptions? ==> r.Some?
    {
      var cached := GetTranscript(transcripts, CacheKey(video, language), clock);
      if cached.Some? {
        return Some(Cached(cached.value));
      }
      AwaitAnyone();
      match captions {
        case NoCaptions => return None;
        case AdapterRaised => return Some(UpstreamRaised);
        case Found(found) =>
          var row := StoreCaptions(video, found);
          return Some(Captioned(row));
      }
    }

    /** The last tier: enqueue a whisper job and wait for it as long as the client asked. */
    method EnqueueAndWait(video: string, language: string, waitSeconds: nat, callback: bool, pushOk: bool,
        releaseOk: bool)
      returns (r: FetchResult)
      requires Valid()
      modifies this
      ensures Valid() && old(trace) <= trace
      ensures r.JobAccepted? ==> r.id in jobs && jobs[r.id].video == video && jobs[r.id].jobType == Whisper
      ensures r.Transcript? ==> GetTranscript(transcripts, CacheKey(video, language), clock) == Some(r.row)
      ensures r.EnqueueRaised? ==> !pushOk && Release(r.id, releaseOk) in trace
      ensures JobAnswered(view, trace, old(mine), mine, r, Proc(video, Whisper, language, callback, TryLock),
                          waitSeconds, pushOk)
    {
      var job := EnqueueJob(video, Whisper, language, callback, pushOk, releaseOk);
      match job {
        case LockConflict => return InProgressConflict;
        case InProgress(existing) => return JobAccepted(existing);
        case EnqueueFailed(id) => return EnqueueRaised(id);
        case Enqueued(id) =>
          if waitSeconds > 0 {
            var waited := WaitForJobCompletion(id, video, language, waitSeconds);
            match waited {
              case Ready(row) => return Transcript(row);
              case JobFailed(error) => return WhisperFailed(error);
              case TimedOut =>
            }
          }
          return JobAccepted(id);
      }
    }

    /** The duration check, the rate limit, and only then the enqueue. */
    method GuardedEnqueue(video: string, language: string, waitSeconds: nat, callback: bool, tooLong: bool,
        rateLimited: bool, pushOk: bool, releaseOk: bool)
      returns (r: FetchResult)
      requires Valid()
      modifies this
      ensures Valid() && old(trace) <= trace
      ensures NeedsNoJob(r) <==> tooLong || rateLimited
      ensures NeedsNoJob(r) ==> r == (if tooLong then TooLong else RateLimited) && mine == old(mine)
      ensures r.JobAccepted? ==> r.id in jobs && jobs[r.id].video == video && jobs[r.id].jobType == Whisper
      ensures r.Transcript? ==> GetTranscript(transcripts, CacheKey(video, language), clock) == Some(r.row)
      ensures r.EnqueueRaised? ==> !pushOk && Release(r.id, releaseOk) in trace
      ensures !NeedsNoJob(r) ==>
                JobAnswered(view, trace, old(mine), mine, r, Proc(video, Whisper, language, callback, TryLock),
                            waitSeconds, pushOk)
    {
      if tooLong {
        return TooLong;
      }
      if rateLimited {
        return RateLimited;
      }
      r := EnqueueAndWait(video, language, waitSeconds, callback, pushOk, releaseOk);
    }

    /** The tiered lookup. Oracles stand for the captions adapter, the duration probe, the
        rate-limit hook and the enqueue calls. Every job id it hands out names a whisper row
        of the requested video; every transcript it serves is in the cache and unexpired. */
    method GetOrFetch(video: string, language: string, force: Force, wait: int, callback: bool,
                      captions: CaptionsOutcome, tooLong: bool, rateLimited: bool, pushOk: bool, releaseOk: bool)
      returns (r: FetchResult)
      requires Valid() && Untagged(captions)
      modifies this
      ensures Valid() && old(trace) <= trace
      ensures wait < 0 <==> r == InvalidWait
      ensures wait < 0 ==> trace == old(trace)
      ensures var cached := GetTranscript(old(transcripts), CacheKey(video, language), old(clock));
        wait >= 0 && force == NoForce && cached.Some? ==> r == Cached(cached.value) && trace == old(trace)
      ensures r.Cached? ==>
                force != ForceWhisper && GetTranscript(transcripts, CacheKey(video, language), clock) == Some(r.row)
      ensures r.Captioned? ==>
                && force != ForceWhisper && captions.Found?
                && r.row.source == YoutubeCaptions && r.row.snippets == captions.captions.snippets
                && GetTranscript(transcripts, CacheKey(video, captions.captions.language), clock) == Some(r.row)
      ensures r.UpstreamRaised? ==> force != ForceWhisper && captions.AdapterRaised?
      ensures wait >= 0 && force != ForceWhisper && !captions.NoCaptions? ==>
                r.Cached? || r.Captioned? || r.UpstreamRaised?
      ensures var cached := GetTranscript(old(transcripts), CacheKey(video, language), old(clock));
        force == NoForce && cached.None? ==> !r.Cached?
      ensures wait >= 0 && force == ForceRefresh ==> old(trace) + [PurgeVideo(video)] <= trace
      ensures r.TooLong? ==> tooLong
      ensures r.RateLimited? ==> rateLimited && !tooLong
      ensures tooLong || rateLimited ==> NeedsNoJob(r)
      ensures wait >= 0 && !tooLong && !rateLimited ==>
                force == ForceWhisper || (captions.NoCaptions? && !r.Cached?) ==> !NeedsNoJob(r)
      ensures r.JobAccepted? ==> r.id in jobs && jobs[r.id].video == video && jobs[r.id].jobType == Whisper
      ensures r.Transcript? ==> GetTranscript(transcripts, CacheKey(video, language), clock) == Some(r.row)
      ensures r.EnqueueRaised? ==> !pushOk && Release(r.id, releaseOk) in trace
      ensures var started := TierDoings(old(mine), video, if wait < 0 then NoForce else force, Some(r), captions);
        if NeedsNoJob(r) then mine == started
        else JobAnswered(view, trace, started, mine, r, Proc(video, Whisper, language, callback, TryLock),
                         if wait < MAX_WAIT_SECONDS then wait else MAX_WAIT_SECONDS, pushOk)
    {
      if wait < 0 {
        return InvalidWait;
      }
      var waitSeconds := if wait < MAX_WAIT_SECONDS then wait else MAX_WAIT_SECONDS;
      var early := LookupTiers(video, language, force, captions);
      if early.Some? {
        return early.value;
      }
      AwaitAnyone();
      r := GuardedEnqueue(video, language, waitSeconds, callback, tooLong, rateLimited, pushOk, releaseOk);
    }
  }
}
