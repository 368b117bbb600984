/**
 The job pipeline as a state machine: Redis locks, the `jobs` ledger and the
 transcript cache, shared by any number of enqueuers, workers and API requests.

 Every Redis or database call is one event. A job id is minted once and then runs
 its enqueuer and (once pushed) its worker, so one program counter per job id
 suffices. Any process may crash between two of its events; locks expire on a
 clock; a release may fail silently.
 */
module JobProtocol {
  import opened Wrappers
  import opened TranscriptCache

  type JobId = nat

  datatype JobType = Whisper | Enrichment

  datatype LockOp = WhisperOp | DiarizeOp

  datatype LockKey = LockKey(op: LockOp, video: string)

  /** The registry's lock segment of each job type. */
  function LockOpOf(t: JobType): LockOp {
    match t
    case Whisper => WhisperOp
    case Enrichment => DiarizeOp
  }

  function OpName(op: LockOp): string {
    match op
    case WhisperOp => "whisper"
    case DiarizeOp => "diarize"
  }

  /** The Redis key text. */
  function RenderKey(k: LockKey): string {
    "lock:" + OpName(k.op) + ":" + k.video
  }

  const LOCK_TTL_SECONDS: nat := 3600

  datatype Lock = Lock(owner: JobId, expiresAt: nat)

  datatype Status = Queued | Running | Complete | Failed

  /** Why a row was marked failed. */
  datatype Cause =
    | PushRaised
    | WorkRaised
    | NotCached
    | CaptionsSource
    | PipelineUnavailable
    | RowGone
    | WebhookRaised

  datatype Row = Row(
    video: string,
    jobType: JobType,
    language: string,
    callback: bool,
    status: Status,
    createdAt: nat,
    startedAt: Option<nat>,
    finishedAt: Option<nat>,
    error: Option<Cause>)

  /** Where a job id's process stands: the next call it is about to make. */
  datatype Pc =
    | TryLock
    | FirstLookup
    | SecondLookup
    | StealLock
    | RetryLock
    | InsertRow
    | PushTask
    | AwaitWorker
    | Transcribing
    | LoadingTranscript
    | Tagging(read: seq<Snippet>)
    | Completing
    | Notifying
    | Failing(cause: Cause)
    | Releasing
    | Finished
    | Refused(existing: JobId)
    | Conflict
    | Crashed

  datatype Proc = Proc(video: string, jobType: JobType, language: string, callback: bool, pc: Pc)

  datatype State = State(
    now: nat,
    locks: map<LockKey, Lock>,
    rows: map<JobId, Row>,
    procs: map<JobId, Proc>,
    cache: Table,
    lost: set<JobId>)  // history: ids whose lock was expired or stolen from them

  const INIT: State := State(0, map[], map[], map[], map[], {})

  /** What a finished transcription hands to the cache. */
  datatype Transcription = Transcription(language: string, source: Source, snippets: seq<Snippet>)

  /** One atomic step. Outcomes of calls into other systems travel in the event. */
  datatype Event =
    | Mint(job: JobId, video: string, jobType: JobType, language: string, callback: bool)
    | SetNx(job: JobId)
    | Lookup(job: JobId, found: Option<JobId>)
    | Steal(job: JobId)
    | Insert(job: JobId)
    | Push(job: JobId, ok: bool)
    | MarkRunning(job: JobId)
    | Transcribed(job: JobId, result: Option<Transcription>)
    | LoadTranscript(job: JobId, available: bool)
    | TagCommit(job: JobId, labels: Option<seq<Option<string>>>)
    | MarkComplete(job: JobId)
    | Notify(job: JobId, ok: bool)
    | MarkFailed(job: JobId)
    | Release(job: JobId, ok: bool)
    | Crash(job: JobId)
    | Tick(seconds: nat)
    | Expire(key: LockKey)
    | PutCaptions(entry: CacheKey, snippets: seq<Snippet>)
    | StoreChapters(entry: CacheKey, chapters: seq<Chapter>)
    | PurgeVideo(video: string)
  {
    /** The job id whose process takes the step, if any. */
    function Actor(): Option<JobId> {
      match this
      case Tick(_) => None
      case Expire(_) => None
      case PutCaptions(_, _) => None
      case StoreChapters(_, _) => None
      case PurgeVideo(_) => None
      case _ => Some(job)
    }
  }

  function KeyOf(p: Proc): LockKey {
    LockKey(LockOpOf(p.jobType), p.video)
  }

  function RowKey(r: Row): LockKey {
    LockKey(LockOpOf(r.jobType), r.video)
  }

  predicate InFlightStatus(st: Status) {
    st == Queued || st == Running
  }

  predicate InFlight(s: State, j: JobId) {
    j in s.rows && InFlightStatus(s.rows[j].status)
  }

  predicate Owns(s: State, j: JobId, k: LockKey) {
    k in s.locks && s.locks[k].owner == j
  }

  /** The `ORDER BY created_at DESC LIMIT 1` answer for a key; ties may go either way. */
  predicate IsNewestInFlight(s: State, k: LockKey, x: JobId) {
    && InFlight(s, x) && RowKey(s.rows[x]) == k
    && forall y | y in s.rows :: InFlight(s, y) && RowKey(s.rows[y]) == k ==> s.rows[y].createdAt <= s.rows[x].createdAt
  }

  predicate LookupAnswer(s: State, k: LockKey, found: Option<JobId>) {
    match found
    case Some(x) => IsNewestInFlight(s, k, x)
    case None => forall y | y in s.rows :: !(InFlight(s, y) && RowKey(s.rows[y]) == k)
  }

  /** The language a Whisper result is stored under: its own, else the requested one. */
  function ResultLanguage(p: Proc, out: Transcription): string {
    if out.language != "" then out.language else p.language
  }

  predicate At(s: State, j: JobId, pc: Pc) {
    j in s.procs && s.procs[j].pc == pc
  }

  function WithPc(s: State, j: JobId, pc: Pc): State
    requires j in s.procs
  {
    s.(procs := s.procs[j := s.procs[j].(pc := pc)])
  }

  function WithRow(s: State, j: JobId, r: Row): State {
    s.(rows := s.rows[j := r])
  }

  /** Delete a key whoever holds it; the holder joins the losers. */
  function DropLock(s: State, k: LockKey): State {
    if k in s.locks then s.(locks := s.locks - {k}, lost := s.lost + {s.locks[k].owner}) else s
  }

  /** The compare-and-delete script. */
  function ReleaseIfOwner(s: State, j: JobId, k: LockKey): State {
    if Owns(s, j, k) then s.(locks := s.locks - {k}) else s
  }

  predicate Terminal(pc: Pc) {
    pc == Finished || pc.Refused? || pc == Conflict || pc == Crashed
  }

  /** May event `e` happen in state `s`? */
  ghost predicate Enabled(s: State, e: Event) {
    match e
    case Mint(j, _, _, _, _) => j !in s.procs
    case SetNx(j) => At(s, j, TryLock) || At(s, j, RetryLock)
    case Lookup(j, found) =>
      (At(s, j, FirstLookup) || At(s, j, SecondLookup)) && LookupAnswer(s, KeyOf(s.procs[j]), found)
    case Steal(j) => At(s, j, StealLock)
    case Insert(j) => At(s, j, InsertRow)
    case Push(j, _) => At(s, j, PushTask)
    case MarkRunning(j) => At(s, j, AwaitWorker)
    case Transcribed(j, result) =>
      At(s, j, Transcribing) && (result.Some? ==> !Tagged(result.value.snippets))
    case LoadTranscript(j, _) => At(s, j, LoadingTranscript)
    case TagCommit(j, labels) =>
      && j in s.procs && s.procs[j].pc.Tagging?
      && (labels.Some? ==> |labels.value| == |s.procs[j].pc.read|)
    case MarkComplete(j) => At(s, j, Completing)
    case Notify(j, ok) => At(s, j, Notifying) && (!ok ==> s.procs[j].callback)
    case MarkFailed(j) => j in s.procs && s.procs[j].pc.Failing?
    case Release(j, _) => At(s, j, Releasing)
    case Crash(j) => j in s.procs && !Terminal(s.procs[j].pc)
    case Tick(d) => forall k | k in s.locks :: s.now + d <= s.locks[k].expiresAt
    case Expire(k) => k in s.locks && s.now >= s.locks[k].expiresAt
    case PutCaptions(_, snippets) => !Tagged(snippets)
    case StoreChapters(_, _) => true
    case PurgeVideo(_) => true
  }

  /** The state after event `e`. */
  function Apply(s: State, e: Event): State
    requires Enabled(s, e)
  {
    match e
    case Mint(j, video, t, language, callback) =>
      s.(procs := s.procs[j := Proc(video, t, language, callback, TryLock)])
    case SetNx(j) =>
      var k := KeyOf(s.procs[j]);
      if k !in s.locks then
        WithPc(s.(locks := s.locks[k := Lock(j, s.now + LOCK_TTL_SECONDS)]), j, InsertRow)
      else
        WithPc(s, j, if s.procs[j].pc == TryLock then FirstLookup else Conflict)
    case Lookup(j, found) =>
      WithPc(s, j,
             match found
             case Some(x) => Refused(x)
             case None => if s.procs[j].pc == FirstLookup then SecondLookup else StealLock)
    case Steal(j) => WithPc(DropLock(s, KeyOf(s.procs[j])), j, RetryLock)
    case Insert(j) =>
      var p := s.procs[j];
      WithPc(WithRow(s, j, Row(p.video, p.jobType, p.language, p.callback, Queued, s.now, None, None, None)), j,
          PushTask)
    case Push(j, ok) => WithPc(s, j, if ok then AwaitWorker else Failing(PushRaised))
    case MarkRunning(j) =>
      if j !in s.rows then WithPc(s, j, Finished)
      else WithPc(WithRow(s, j, s.rows[j].(status := Running, startedAt := Some(s.now))), j,
                  if s.procs[j].jobType == Whisper then Transcribing else LoadingTranscript)
    case Transcribed(j, result) =>
      (match result
       case None => WithPc(s, j, Failing(WorkRaised))
       case Some(out) =>
         var k := CacheKey(s.procs[j].video, ResultLanguage(s.procs[j], out));
         WithPc(s.(cache := PutTranscript(s.cache, k, out.source, out.snippets, None, false, s.now)),
                j, Completing))
    case LoadTranscript(j, available) =>
      var got := GetTranscript(s.cache, CacheKey(s.procs[j].video, s.procs[j].language), s.now);
      WithPc(s, j,
             if got.None? then Failing(NotCached)
             else if got.value.source == YoutubeCaptions then Failing(CaptionsSource)
             else if !available then Failing(PipelineUnavailable)
             else Tagging(got.value.snippets))
    case TagCommit(j, labels) =>
      var k := CacheKey(s.procs[j].video, s.procs[j].language);
      (match labels
       case None => WithPc(s, j, Failing(WorkRaised))
       case Some(ls) =>
         if DiarizationRowcount(s.cache, k) == 0 then WithPc(s, j, Failing(RowGone))
         else WithPc(s.(cache := PutDiarization(s.cache, k, Tag(s.procs[j].pc.read, ls), true)), j, Completing))
    case MarkComplete(j) =>
      WithPc(if j in s.rows
             then WithRow(s, j, s.rows[j].(status := Complete, finishedAt := Some(s.now), error := None))
             else s, j,
             if s.procs[j].jobType == Whisper then Notifying else Releasing)
    case Notify(j, ok) => WithPc(s, j, if ok then Releasing else Failing(WebhookRaised))
    case MarkFailed(j) =>
      WithPc(if j in s.rows
             then WithRow(s, j, s.rows[j].(status := Failed, finishedAt := Some(s.now),
                                           error := Some(s.procs[j].pc.cause)))
             else s, j, Releasing)
    case Release(j, ok) =>
      WithPc(if ok then ReleaseIfOwner(s, j, KeyOf(s.procs[j])) else s, j, Finished)
    case Crash(j) => WithPc(s, j, Crashed)
    case Tick(d) => s.(now := s.now + d)
    case Expire(k) => DropLock(s, k)
    case PutCaptions(k, snippets) =>
      s.(cache := PutTranscript(s.cache, k, YoutubeCaptions, snippets, None, false, s.now))
    case StoreChapters(k, chapters) => s.(cache := PutChapters(s.cache, k, Some(chapters)))
    case PurgeVideo(video) => s.(cache := Purge(s.cache, video))
  }

  /** A run is a sequence of events, each enabled where it happens. */
  ghost predicate Reaches(s: State, es: seq<Event>)
    decreases |es|, 0
  {
    es == [] || (Reaches(s, es[..|es| - 1]) && Enabled(After(s, es[..|es| - 1]), es[|es| - 1]))
  }

  ghost function After(s: State, es: seq<Event>): State
    requires Reaches(s, es)
    decreases |es|, 1
  {
    if es == [] then s else Apply(After(s, es[..|es| - 1]), es[|es| - 1])
  }

  /** A run of the whole system, from empty stores. */
  ghost predicate IsRun(es: seq<Event>) {
    Reaches(INIT, es)
  }

  ghost function Exec(es: seq<Event>): State
    requires IsRun(es)
  {
    After(INIT, es)
  }
}
