/** Safety of the lock and ledger protocol over whole runs. */
module JobTheorems {
  import opened Wrappers
  import opened JobProtocol
  import opened JobInvariants

  // ---------- Runs and their prefixes ----------

  lemma {:induction false} PrefixReaches(s: State, es: seq<Event>, i: nat)
    requires Reaches(s, es) && i <= |es|
    ensures Reaches(s, es[..i])
    ensures i < |es| ==>
              && Enabled(After(s, es[..i]), es[i])
              && Reaches(s, es[..i + 1])
              && After(s, es[..i + 1]) == Apply(After(s, es[..i]), es[i])
    decreases |es|
  {
    var n := |es|;
    if i == n {
      assert es[..i] == es;
    } else {
      PrefixReaches(s, es[..n - 1], i);
      assert es[..n - 1][..i] == es[..i];
      if i == n - 1 {
        assert es[..i + 1] == es;
      } else {
        assert es[..n - 1][..i + 1] == es[..i + 1];
      }
    }
  }

  lemma ReachesOneMore(s: State, es: seq<Event>, e: Event)
    requires Reaches(s, es) && Enabled(After(s, es), e)
    ensures Reaches(s, es + [e]) && After(s, es + [e]) == Apply(After(s, es), e)
  {
    assert (es + [e])[..|es|] == es;
  }

  /** State number `i` of a run. */
  ghost function StateAt(es: seq<Event>, i: nat): State
    requires IsRun(es) && i <= |es|
  {
    PrefixReaches(INIT, es, i);
    Exec(es[..i])
  }

  lemma PrefixState(es: seq<Event>, m: nat, i: nat)
    requires IsRun(es) && i <= m <= |es|
    ensures IsRun(es[..m]) && StateAt(es[..m], i) == StateAt(es, i)
  {
    PrefixReaches(INIT, es, m);
    assert es[..m][..i] == es[..i];
  }

  lemma PrefixKeepsState(a: seq<Event>, b: seq<Event>, i: nat)
    requires IsRun(b) && a <= b && i <= |a|
    ensures IsRun(a) && StateAt(a, i) == StateAt(b, i)
  {
    assert b[..|a|] == a;
    PrefixReaches(INIT, b, |a|);
    PrefixState(b, |a|, i);
  }

  lemma PlainStep(es: seq<Event>, i: nat)
    requires IsRun(es) && i < |es|
    ensures IsRun(es[..i]) && StateAt(es, i) == Exec(es[..i])
    ensures Enabled(StateAt(es, i), es[i]) && StateAt(es, i + 1) == Apply(StateAt(es, i), es[i])
  {
    PrefixReaches(INIT, es, i);
  }

  lemma StateStep(es: seq<Event>, i: nat)
    requires IsRun(es) && i < |es|
    ensures Inv(StateAt(es, i)) && Enabled(StateAt(es, i), es[i])
    ensures StateAt(es, i + 1) == Apply(StateAt(es, i), es[i]) && Inv(StateAt(es, i + 1))
  {
    PrefixReaches(INIT, es, i);
    RunKeepsInv(es[..i]);
    StepKeepsInv(StateAt(es, i), es[i]);
  }

  // ---------- Losses, and the bound on jobs in flight ----------

  /** Event `e` takes the lock `k` away from its holder without the holder's say. */
  predicate LossOf(s: State, e: Event, k: LockKey) {
    k in s.locks && (e == Expire(k) || (e.Steal? && e.job in s.procs && KeyOf(s.procs[e.job]) == k))
  }

  /** How often the lock `k` was expired or stolen during a run. */
  ghost function Losses(es: seq<Event>, k: LockKey): nat
    requires IsRun(es)
    decreases |es|
  {
    if es == [] then 0
    else
      var before := es[..|es| - 1];
      Losses(before, k) + if LossOf(Exec(before), es[|es| - 1], k) then 1 else 0
  }

  ghost function InFlightAt(s: State, k: LockKey): set<JobId> {
    set j | j in s.rows && InFlight(s, j) && RowKey(s.rows[j]) == k
  }

  ghost function LosersAt(s: State, k: LockKey): set<JobId> {
    set j | j in s.lost && j in s.procs && KeyOf(s.procs[j]) == k
  }

  lemma LosersStep(s: State, e: Event, k: LockKey)
    requires Inv(s) && Enabled(s, e)
    ensures |LosersAt(Apply(s, e), k)| <= |LosersAt(s, k)| + if LossOf(s, e, k) then 1 else 0
  {
    var t := Apply(s, e);
    var victim := if LossOf(s, e, k) then {s.locks[k].owner} else {};
    forall j | j in LosersAt(t, k)
      ensures j in LosersAt(s, k) + victim
    {
      if j in s.lost {
        ProcsPersist(s, e, j);
      } else {
        LosersHadLocks(s, e, j);
        ProcsPersist(s, e, j);
        LoserWasVictim(s, e, j);
      }
    }
    assert LosersAt(t, k) <= LosersAt(s, k) + victim;
    SubsetSize(LosersAt(t, k), LosersAt(s, k) + victim);
    assert |LosersAt(s, k) + victim| <= |LosersAt(s, k)| + |victim|;
  }

  lemma LostTo(s: State, e: Event, j: JobId)
    requires Enabled(s, e) && j in Apply(s, e).lost && j !in s.lost
    ensures e.Expire? || (e.Steal? && e.job in s.procs)
    ensures var k := if e.Expire? then e.key else KeyOf(s.procs[e.job]); k in s.locks && s.locks[k].owner == j
  {
  }

  lemma LoserWasVictim(s: State, e: Event, j: JobId)
    requires Enabled(s, e) && j in Apply(s, e).lost && j !in s.lost && j in s.procs
    requires forall k | k in s.locks :: LockOk(s, k)
    ensures LossOf(s, e, KeyOf(s.procs[j])) && s.locks[KeyOf(s.procs[j])].owner == j
  {
    LostTo(s, e, j);
    assert LockOk(s, if e.Expire? then e.key else KeyOf(s.procs[e.job]));
  }

  lemma {:induction false} SubsetSize<T>(a: set<T>, b: set<T>)
    requires a <= b
    ensures |a| <= |b|
  {
    assert b == a + (b - a);
  }

  lemma {:induction false} LosersAreCounted(es: seq<Event>, k: LockKey)
    requires IsRun(es)
    ensures |LosersAt(Exec(es), k)| <= Losses(es, k)
    decreases |es|
  {
    if es != [] {
      var before := es[..|es| - 1];
      LosersAreCounted(before, k);
      RunKeepsInv(before);
      LosersStep(Exec(before), es[|es| - 1], k);
    }
  }

  /** Whenever a row is queued or running, its job holds the lock or had it taken away. */
  lemma InFlightOwnsOrLost(es: seq<Event>, j: JobId)
    requires IsRun(es) && InFlight(Exec(es), j)
    ensures var k := RowKey(Exec(es).rows[j]);
      || Owns(Exec(es), j, k)
      || exists i | 0 <= i < |es| :: LossOf(StateAt(es, i), es[i], k) && StateAt(es, i).locks[k].owner == j
  {
    RunKeepsInv(es);
    assert j in Exec(es).procs && LedgerOk(Exec(es), j);
    assert OwnershipOk(Exec(es), j);
    if j in Exec(es).lost {
      var _ := LostMeansLoss(es, j);
    }
  }

  /** Find the event that took a loser's lock. */
  lemma {:induction false} LostMeansLoss(es: seq<Event>, j: JobId) returns (i: nat)
    requires IsRun(es) && j in Exec(es).lost
    ensures j in Exec(es).procs && i < |es|
    ensures LossOf(StateAt(es, i), es[i], KeyOf(Exec(es).procs[j]))
    ensures StateAt(es, i).locks[KeyOf(Exec(es).procs[j])].owner == j
    decreases |es|
  {
    var n := |es| - 1;
    var s := Exec(es[..n]);
    RunKeepsInv(es[..n]);
    assert es[..n] == es[..|es| - 1];
    if j in s.lost {
      i := LostMeansLoss(es[..n], j);
      PrefixState(es, n, i);
      ProcsPersist(s, es[n], j);
    } else {
      i := n;
      LosersHadLocks(s, es[n], j);
      LoserWasVictim(s, es[n], j);
      ProcsPersist(s, es[n], j);
    }
  }

  /** In every reachable state, the jobs in flight for one video and type number at
      most one plus the times their lock was expired or stolen. */
  lemma InFlightBoundedByLosses(es: seq<Event>, k: LockKey)
    requires IsRun(es)
    ensures |InFlightAt(Exec(es), k)| <= 1 + Losses(es, k)
  {
    var s := Exec(es);
    RunKeepsInv(es);
    var holder := if k in s.locks then {s.locks[k].owner} else {};
    forall j | j in InFlightAt(s, k)
      ensures j in holder + LosersAt(s, k)
    {
      assert LedgerOk(s, j) && OwnershipOk(s, j);
    }
    SubsetSize(InFlightAt(s, k), holder + LosersAt(s, k));
    LosersAreCounted(es, k);
    assert |holder + LosersAt(s, k)| <= |holder| + |LosersAt(s, k)|;
  }

  // ---------- When mutual exclusion holds ----------

  /** Every unfinished job of `k` holds the lock. */
  ghost predicate Protected(s: State, k: LockKey) {
    forall j | j in s.procs :: KeyOf(s.procs[j]) == k && Unfinished(s, j) ==> Owns(s, j, k)
  }

  /** A loss whose victim has nothing left to protect. */
  predicate Harmless(s: State, e: Event, k: LockKey) {
    LossOf(s, e, k) ==> !Unfinished(s, s.locks[k].owner)
  }

  lemma ProtectedMeansExclusion(s: State, k: LockKey)
    requires Inv(s) && Protected(s, k)
    ensures |InFlightAt(s, k)| <= 1
  {
    var holder := if k in s.locks then {s.locks[k].owner} else {};
    forall j | j in InFlightAt(s, k)
      ensures j in holder
    {
      assert LedgerOk(s, j);
    }
    SubsetSize(InFlightAt(s, k), holder);
  }

  /** While a key is protected, a lookup that finds a job finds the one holding the lock. */
  lemma RefusalNamesHolder(s: State, j: JobId, x: JobId)
    requires Inv(s) && Enabled(s, Lookup(j, Some(x))) && Protected(s, KeyOf(s.procs[j]))
    ensures Owns(s, x, KeyOf(s.procs[j]))
  {
    assert LedgerOk(s, x);
  }

  lemma HarmlessKeepsProtected(s: State, e: Event, k: LockKey)
    requires Inv(s) && Enabled(s, e) && Protected(s, k) && Harmless(s, e, k)
    ensures Protected(Apply(s, e), k)
  {
    var t := Apply(s, e);
    forall j | j in t.procs && KeyOf(t.procs[j]) == k && Unfinished(t, j)
      ensures Owns(t, j, k)
    {
      if j !in s.procs {
        OnlyMintAddsProcs(s, e, j);
      } else {
        ProcsPersist(s, e, j);
        assert LedgerOk(s, j);
        if e.Actor() == Some(j) {
          ActorUnfinished(s, e, j);
        } else {
          BystandersKeep(s, e, j);
        }
        LockChanges(s, e, k);
      }
    }
  }

  /** No loss of `k` along a continuation from `s`. */
  ghost predicate LossFree(s: State, es: seq<Event>, k: LockKey)
    requires Reaches(s, es)
    decreases |es|
  {
    es == [] || (LossFree(s, es[..|es| - 1], k) && !LossOf(After(s, es[..|es| - 1]), es[|es| - 1], k))
  }

  lemma {:induction false} LossFreeKeepsProtected(s: State, es: seq<Event>, k: LockKey)
    requires Inv(s) && Protected(s, k) && Reaches(s, es) && LossFree(s, es, k)
    ensures Inv(After(s, es)) && Protected(After(s, es), k)
    decreases |es|
  {
    ReachesKeepsInv(s, es);
    if es != [] {
      var before := es[..|es| - 1];
      LossFreeKeepsProtected(s, before, k);
      HarmlessKeepsProtected(After(s, before), es[|es| - 1], k);
    }
  }

  /** Two jobs in flight for `k` can be reached from `s` without any further loss. */
  ghost predicate CanCollide(s: State, k: LockKey) {
    exists es :: Reaches(s, es) && LossFree(s, es, k) && |InFlightAt(After(s, es), k)| >= 2
  }

  lemma LossFreeOneMore(s: State, es: seq<Event>, e: Event, k: LockKey)
    requires Reaches(s, es) && LossFree(s, es, k)
    requires Enabled(After(s, es), e) && !LossOf(After(s, es), e, k)
    ensures Reaches(s, es + [e]) && LossFree(s, es + [e], k)
    ensures After(s, es + [e]) == Apply(After(s, es), e)
  {
    ReachesOneMore(s, es, e);
    assert (es + [e])[..|es + [e]| - 1] == es;
  }

  lemma {:induction false} FreshId(used: set<JobId>) returns (n: JobId)
    ensures forall j | j in used :: j < n
    decreases |used|
  {
    if used == {} {
      n := 0;
    } else {
      var u :| u in used;
      var m := FreshId(used - {u});
      n := if u < m then m else u + 1;
      forall j | j in used
        ensures j < n
      {
        assert j == u || j in used - {u};
      }
    }
  }

  function TypeFor(op: LockOp): JobType {
    if op == WhisperOp then Whisper else Enrichment
  }

  function NewcomerProc(k: LockKey, language: string, pc: Pc): Proc {
    Proc(k.video, TypeFor(k.op), language, false, pc)
  }

  /** With the lock free: mint an id, take the lock, insert the row. */
  function NewcomerEvents(n: JobId, k: LockKey, language: string): seq<Event> {
    [Mint(n, k.video, TypeFor(k.op), language, false), SetNx(n), Insert(n)]
  }

  function WithProc(s: State, n: JobId, p: Proc): State {
    s.(procs := s.procs[n := p])
  }

  /** The state a newcomer leaves behind: its lock, its row, and nothing else touched. */
  function NewcomerState(s: State, k: LockKey, n: JobId, language: string): State {
    var t := WithProc(s, n, NewcomerProc(k, language, PushTask));
    t.(locks := t.locks[k := Lock(n, s.now + LOCK_TTL_SECONDS)],
       rows := t.rows[n := Row(k.video, TypeFor(k.op), language, false, Queued, s.now, None, None, None)])
  }

  lemma NewcomerLocks(s: State, k: LockKey, n: JobId, language: string)
    requires k !in s.locks
    ensures var t := WithProc(s, n, NewcomerProc(k, language, TryLock));
      && Enabled(t, SetNx(n)) && !LossOf(t, SetNx(n), k)
      && Apply(t, SetNx(n)) == WithProc(s, n, NewcomerProc(k, language, InsertRow)).(
                                 locks := s.locks[k := Lock(n, s.now + LOCK_TTL_SECONDS)])
  {
    var t := WithProc(s, n, NewcomerProc(k, language, TryLock));
    assert KeyOf(t.procs[n]) == k;
    assert Apply(t, SetNx(n)).procs == s.procs[n := NewcomerProc(k, language, InsertRow)];
  }

  lemma NewcomerInserts(s: State, k: LockKey, n: JobId, language: string)
    ensures var t := WithProc(s, n, NewcomerProc(k, language, InsertRow)).(
                       locks := s.locks[k := Lock(n, s.now + LOCK_TTL_SECONDS)]);
      && Enabled(t, Insert(n)) && !LossOf(t, Insert(n), k)
      && Apply(t, Insert(n)) == NewcomerState(s, k, n, language)
  {
    var t := WithProc(s, n, NewcomerProc(k, language, InsertRow)).(
               locks := s.locks[k := Lock(n, s.now + LOCK_TTL_SECONDS)]);
    assert Apply(t, Insert(n)).procs == s.procs[n := NewcomerProc(k, language, PushTask)];
  }

  lemma NewcomerRuns(s: State, k: LockKey, n: JobId, language: string)
    requires k !in s.locks && n !in s.procs
    ensures var es := NewcomerEvents(n, k, language);
      Reaches(s, es) && LossFree(s, es, k) && After(s, es) == NewcomerState(s, k, n, language)
  {
    var es := NewcomerEvents(n, k, language);
    var s1 := WithProc(s, n, NewcomerProc(k, language, TryLock));
    NewcomerLocks(s, k, n, language);
    NewcomerInserts(s, k, n, language);
    ThreeSteps(s, k, es, s1, Apply(s1, SetNx(n)), NewcomerState(s, k, n, language));
  }

  lemma ThreeSteps(s: State, k: LockKey, es: seq<Event>, s1: State, s2: State, s3: State)
    requires |es| == 3
    requires Enabled(s, es[0]) && s1 == Apply(s, es[0]) && !LossOf(s, es[0], k)
    requires Enabled(s1, es[1]) && s2 == Apply(s1, es[1]) && !LossOf(s1, es[1], k)
    requires Enabled(s2, es[2]) && s3 == Apply(s2, es[2]) && !LossOf(s2, es[2], k)
    ensures Reaches(s, es) && LossFree(s, es, k) && After(s, es) == s3
  {
    LossFreeOneMore(s, [], es[0], k);
    LossFreeOneMore(s, [] + [es[0]], es[1], k);
    LossFreeOneMore(s, [] + [es[0]] + [es[1]], es[2], k);
    assert es == [] + [es[0]] + [es[1]] + [es[2]];
  }

  /** A newcomer joins those in flight and disturbs no one. */
  lemma NewcomerJoins(s: State, k: LockKey, n: JobId, language: string)
    requires n !in s.procs && n !in s.rows
    ensures InFlightAt(NewcomerState(s, k, n, language), k) == InFlightAt(s, k) + {n}
  {
  }

  /** A job about to insert its row joins the newcomer. */
  lemma PendingJoins(s: State, k: LockKey, n: JobId, j: JobId, language: string)
    requires n !in s.procs && n !in s.rows && At(s, j, InsertRow) && KeyOf(s.procs[j]) == k
    ensures var t := NewcomerState(s, k, n, language);
      && Enabled(t, Insert(j)) && !LossOf(t, Insert(j), k)
      && {n, j} <= InFlightAt(Apply(t, Insert(j)), k)
  {
  }

  /** With the lock free and some job unfinished, a newcomer takes the lock and
      inserts its own row beside it. */
  lemma FreeLockLetsCollide(s: State, k: LockKey, j: JobId)
    requires Inv(s) && k !in s.locks && j in s.procs && KeyOf(s.procs[j]) == k && Unfinished(s, j)
    ensures CanCollide(s, k)
  {
    var n := FreshId(s.procs.Keys);
    assert n !in s.procs && n !in s.rows;
    var es, t := NewcomerEvents(n, k, "en"), NewcomerState(s, k, n, "en");
    NewcomerRuns(s, k, n, "en");
    if InFlight(s, j) {
      assert LedgerOk(s, j);
      NewcomerJoins(s, k, n, "en");
      TwoInFlight(s, es, k, n, j);
    } else {
      PendingJoins(s, k, n, j, "en");
      LossFreeOneMore(s, es, Insert(j), k);
      TwoInFlight(s, es + [Insert(j)], k, n, j);
    }
  }

  lemma TwoInFlight(s: State, es: seq<Event>, k: LockKey, n: JobId, j: JobId)
    requires Reaches(s, es) && LossFree(s, es, k) && n != j && {n, j} <= InFlightAt(After(s, es), k)
    ensures CanCollide(s, k)
  {
    SubsetSize({n, j}, InFlightAt(After(s, es), k));
  }

  /** Taking a lock away is safe exactly when its holder has finished: only then can no
      later schedule, free of further losses, put two jobs of the same key in flight. */
  lemma LossIsSafeIffHolderFinished(s: State, e: Event, k: LockKey)
    requires Inv(s) && Protected(s, k) && Enabled(s, e) && LossOf(s, e, k)
    ensures CanCollide(Apply(s, e), k) <==> Unfinished(s, s.locks[k].owner)
  {
    var t := Apply(s, e);
    var o := s.locks[k].owner;
    StepKeepsInv(s, e);
    assert LockOk(s, k);
    if Unfinished(s, o) {
      ProcsPersist(s, e, o);
      assert e.Actor() != Some(o) by {
        assert LedgerOk(s, o);
      }
      BystandersKeep(s, e, o);
      FreeLockLetsCollide(t, k, o);
    } else {
      HarmlessKeepsProtected(s, e, k);
      forall es | Reaches(t, es) && LossFree(t, es, k)
        ensures |InFlightAt(After(t, es), k)| < 2
      {
        LossFreeKeepsProtected(t, es, k);
        ProtectedMeansExclusion(After(t, es), k);
      }
    }
  }

  /** If no loss ever hits an unfinished holder, at most one job per key is in flight,
      in every state of the run. */
  lemma {:induction false} HarmlessRunKeepsExclusion(es: seq<Event>, k: LockKey)
    requires IsRun(es)
    requires forall i | 0 <= i < |es| :: Harmless(StateAt(es, i), es[i], k)
    ensures Inv(Exec(es)) && Protected(Exec(es), k) && |InFlightAt(Exec(es), k)| <= 1
    decreases |es|
  {
    RunKeepsInv(es);
    if es != [] {
      var n := |es| - 1;
      var before := es[..n];
      forall i | 0 <= i < n
        ensures Harmless(StateAt(before, i), before[i], k)
      {
        PrefixState(es, n, i);
      }
      HarmlessRunKeepsExclusion(before, k);
      assert Harmless(StateAt(es, n), es[n], k);
      HarmlessKeepsProtected(Exec(before), es[n], k);
    }
    ProtectedMeansExclusion(Exec(es), k);
  }

  // ---------- Exclusion under atomic enqueueing ----------

  /** The lock grab and the row commit happen without interruption; so do the second
      lookup, the steal and the re-acquisition; and no lock expires under a job that
      has not finished. */
  ghost predicate AtomicEnqueue(es: seq<Event>)
    requires IsRun(es)
  {
    && (forall i | 0 <= i < |es| - 1 ::
          es[i].SetNx? && At(StateAt(es, i + 1), es[i].job, InsertRow) ==> es[i + 1] == Insert(es[i].job))
    && (forall i | 0 <= i < |es| - 1 ::
          es[i].Lookup? && At(StateAt(es, i + 1), es[i].job, StealLock) ==> es[i + 1] == Steal(es[i].job))
    && (forall i | 0 <= i < |es| && es[i].Expire? :: Harmless(StateAt(es, i), es[i], es[i].key))
  }

  lemma AtomicPrefix(es: seq<Event>, n: nat)
    requires IsRun(es) && AtomicEnqueue(es) && n <= |es|
    ensures IsRun(es[..n]) && AtomicEnqueue(es[..n])
  {
    PrefixReaches(INIT, es, n);
    forall i | 0 <= i <= n
      ensures StateAt(es[..n], i) == StateAt(es, i)
    {
      PrefixState(es, n, i);
    }
  }

  lemma WhoIsPending(s: State, e: Event, j: JobId, pc: Pc)
    requires Enabled(s, e) && e.Actor() == Some(j) && At(Apply(s, e), j, pc)
    ensures pc == InsertRow ==> e == SetNx(j)
    ensures pc == StealLock ==> e == Lookup(j, None)
  {
  }

  /** A process about to insert or to steal took the very last step of an atomic run. */
  lemma {:induction false} PendingIsLast(es: seq<Event>, j: JobId, pc: Pc)
    requires IsRun(es) && AtomicEnqueue(es)
    requires pc == InsertRow || pc == StealLock
    requires At(Exec(es), j, pc)
    ensures |es| > 0 && es[|es| - 1].Actor() == Some(j)
    ensures pc == InsertRow ==> es[|es| - 1] == SetNx(j)
    ensures pc == StealLock ==> es[|es| - 1] == Lookup(j, None)
    decreases |es|
  {
    var n := |es| - 1;
    var s := Exec(es[..n]);
    var e := es[n];
    PlainStep(es, n);
    assert es[..n + 1] == es;
    if e.Actor() == Some(j) {
      WhoIsPending(s, e, j, pc);
    } else {
      BystandersKeep(s, e, j);
      AtomicPrefix(es, n);
      PendingIsLast(es[..n], j, pc);
      assert es[n - 1] == es[..n][n - 1];
      assert StateAt(es, n) == s;
      assert At(StateAt(es, n - 1 + 1), j, pc);
      assert false;
    }
  }

  /** In an atomic run, the state in which a steal happens has nothing queued or running
      under the stolen key. */
  lemma StealFindsNothing(es: seq<Event>, i: nat)
    requires IsRun(es) && AtomicEnqueue(es) && i < |es| && es[i].Steal?
    ensures es[i].job in StateAt(es, i).procs && i > 0 && es[i - 1] == Lookup(es[i].job, None)
    ensures LookupAnswer(StateAt(es, i), KeyOf(StateAt(es, i).procs[es[i].job]), None)
  {
    var j := es[i].job;
    PlainStep(es, i);
    AtomicPrefix(es, i);
    PendingIsLast(es[..i], j, StealLock);
    assert es[i - 1] == es[..i][i - 1];
    PlainStep(es, i - 1);
    var before := StateAt(es, i - 1);
    ProcsPersist(before, es[i - 1], j);
    assert before.rows == StateAt(es, i).rows;
  }

  /** Under atomic enqueueing a steal only ever removes a lock whose holder has finished
      (or crashed before inserting a row). */
  lemma AtomicStealsAreHarmless(es: seq<Event>, i: nat, k: LockKey)
    requires IsRun(es) && AtomicEnqueue(es) && i < |es|
    ensures Harmless(StateAt(es, i), es[i], k)
  {
    var s := StateAt(es, i);
    StateStep(es, i);
    if LossOf(s, es[i], k) && es[i].Steal? {
      var o := s.locks[k].owner;
      StealFindsNothing(es, i);
      assert LockOk(s, k);
      assert LedgerOk(s, o);
      if At(s, o, InsertRow) {
        AtomicPrefix(es, i);
        PendingIsLast(es[..i], o, InsertRow);
        assert false;
      }
    }
  }

  /** With atomic enqueueing, at most one job per video and type is ever in flight. */
  lemma AtomicEnqueueKeepsExclusion(es: seq<Event>, k: LockKey, i: nat)
    requires IsRun(es) && AtomicEnqueue(es) && i <= |es|
    ensures |InFlightAt(StateAt(es, i), k)| <= 1
  {
    AtomicPrefix(es, i);
    forall m | 0 <= m < i
      ensures Harmless(StateAt(es[..i], m), es[..i][m], k)
    {
      AtomicStealsAreHarmless(es[..i], m, k);
    }
    HarmlessRunKeepsExclusion(es[..i], k);
  }
}
