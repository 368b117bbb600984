/**
 The overshoot bound that the design notes give, workers x slots x dearest call: it holds
 whenever the ledger query and the storing of its answer are one step, and it holds of the
 code as written exactly when a worker runs one call at a time.
 */
module CostCapDocumented {
  import opened CostCap

  function DocumentedBound(cfg: Config): nat {
    cfg.cap + cfg.maxCost * (cfg.workers * cfg.slots)
  }

  // ---------- Query and store as one step ----------

  /** Every ledger query is followed at once by the storing of its answer. */
  ghost predicate Atomic(es: seq<Event>) {
    forall k | 0 <= k < |es| - 1 :: es[k].Query? ==> es[k + 1] == Store(es[k].w, es[k].i)
  }

  /** Every log that ended over the cap is still waiting for its pop while the worker's
      cache is hot, and in any case each used up one of the worker's slots. */
  predicate Snug(cfg: Config, wk: Worker, over: nat, day: nat) {
    && over + Busy(wk, cfg.cap) <= cfg.slots
    && (Hot(wk, day, cfg.cap) ==> over <= Pending(wk, cfg.cap))
  }

  predicate NoAnswers(wk: Worker) {
    forall i | 0 <= i < |wk.calls| :: !wk.calls[i].Queried?
  }

  ghost predicate AtomicInv(cfg: Config, s: State) {
    && Shape(cfg, s)
    && (forall w | 0 <= w < cfg.workers :: NoAnswers(s.workers[w]))
    && SpendOn(s, s.day) <= cfg.cap + cfg.maxCost * Sum(s.over)
    && (SpendOn(s, s.day) <= cfg.cap ==> forall w | 0 <= w < cfg.workers :: s.over[w] == 0)
    && (SpendOn(s, s.day) > cfg.cap ==>
          forall w | 0 <= w < cfg.workers :: Snug(cfg, s.workers[w], s.over[w], s.day))
    && (forall d | d in s.ledger && d < s.day :: s.ledger[d] <= DocumentedBound(cfg))
  }

  /** Like `CostCap.QuietChange`, for the tighter budget. */
  lemma SnugChange(cfg: Config, wk: Worker, over: nat, day: nat, i: nat, c: Call, cache: map<nat, Entry>)
    requires |wk.calls| == cfg.slots && i < |wk.calls| && Snug(cfg, wk, over, day)
    requires !c.Logged?
    requires c.Admitted? ==> Hot(wk, day, cfg.cap) && wk.calls[i].Idle?
    requires Hot(Worker(cache, wk.calls), day, cfg.cap) ==> Hot(wk, day, cfg.cap) && !wk.calls[i].Logged?
    ensures Snug(cfg, Worker(cache, wk.calls[i := c]), over, day)
  {
    SlotChange(wk, i, c, cfg.cap);
  }

  lemma SnugLog(cfg: Config, wk: Worker, over: nat, day: nat, i: nat)
    requires |wk.calls| == cfg.slots && i < |wk.calls| && wk.calls[i].Admitted?
    requires over == 0 || Snug(cfg, wk, over, day)
    ensures Snug(cfg, wk.(calls := wk.calls[i := Logged]), over + 1, day)
  {
    SlotChange(wk, i, Logged, cfg.cap);
    TalliesFit(wk.calls, cfg.cap);
  }

  lemma SnugFresh(cfg: Config, wk: Worker, day: nat)
    requires |wk.calls| == cfg.slots
    ensures Snug(cfg, wk, 0, day)
  {
    TalliesFit(wk.calls, cfg.cap);
  }

  lemma SnugRestart(cfg: Config, wk: Worker, over: nat, day: nat)
    requires Snug(cfg, wk, over, day)
    ensures Snug(cfg, Worker(map[], seq(cfg.slots, i => Idle)), over, day)
  {
    IdleTally(cfg.slots, InProvider, cfg.cap);
  }

  /** Over the cap, every step but a query or a store keeps a worker snug. */
  lemma StepKeepsSnug(cfg: Config, s: State, e: Event, w: nat)
    requires Shape(cfg, s) && Enabled(cfg, s, e) && !e.Midnight? && !e.Query? && !e.Store? && w < cfg.workers
    requires SpendOn(s, s.day) > cfg.cap && Snug(cfg, s.workers[w], s.over[w], s.day)
    ensures var t := Apply(cfg, s, e);
      w < |t.workers| && w < |t.over| && t.day == s.day && Snug(cfg, t.workers[w], t.over[w], t.day)
  {
    var wk, over, day := s.workers[w], s.over[w], s.day;
    if !ActsOn(e, w) {
      OtherWorkersKeep(cfg, s, e, w);
      return;
    }
    match e
    case Begin(_, i) =>
      if Fresh(wk, day, s.now) {
        if wk.cache[day].spent <= cfg.cap { SnugChange(cfg, wk, over, day, i, Admitted, wk.cache); }
      } else {
        SnugChange(cfg, wk, over, day, i, Missed(day, s.now), wk.cache);
      }
    case Abort(_, i) => SnugChange(cfg, wk, over, day, i, Idle, wk.cache);
    case Log(_, i, _) => SnugLog(cfg, wk, over, day, i);
    case Pop(_, i) => SnugChange(cfg, wk, over, day, i, Idle, wk.cache - {day});
    case Restart(_) => SnugRestart(cfg, wk, over, day);
    case Tick(_) =>
  }

  lemma NoAnswersKept(cfg: Config, s: State, e: Event, w: nat)
    requires Shape(cfg, s) && Enabled(cfg, s, e) && !e.Query? && w < cfg.workers && NoAnswers(s.workers[w])
    ensures w < |Apply(cfg, s, e).workers| && NoAnswers(Apply(cfg, s, e).workers[w])
  {
  }

  lemma AtomicTodayBounded(cfg: Config, s: State)
    requires AtomicInv(cfg, s)
    ensures SpendOn(s, s.day) <= DocumentedBound(cfg)
  {
    if SpendOn(s, s.day) > cfg.cap {
      forall w | 0 <= w < cfg.workers
        ensures s.over[w] <= cfg.slots
      {
        assert Snug(cfg, s.workers[w], s.over[w], s.day);
      }
      TimesSumBounded(cfg.maxCost, s.over, cfg.slots);
    }
  }

  lemma LogKeepsAtomicInv(cfg: Config, s: State, e: Event)
    requires AtomicInv(cfg, s) && Enabled(cfg, s, e) && e.Log?
    ensures AtomicInv(cfg, Apply(cfg, s, e))
  {
    var t := Apply(cfg, s, e);
    ShapeKept(cfg, s, e);
    LogIsPaidFor(cfg, s, e.w, e.i, e.cost);
    forall w | 0 <= w < cfg.workers
      ensures NoAnswers(t.workers[w])
      ensures SpendOn(t, t.day) > cfg.cap ==> Snug(cfg, t.workers[w], t.over[w], t.day)
    {
      NoAnswersKept(cfg, s, e, w);
      if w == e.w {
        if SpendOn(t, t.day) > cfg.cap { SnugLog(cfg, s.workers[w], s.over[w], s.day, e.i); }
      } else {
        OtherWorkersKeep(cfg, s, e, w);
        if SpendOn(s, s.day) <= cfg.cap { SnugFresh(cfg, s.workers[w], s.day); }
      }
    }
  }

  lemma StepKeepsAtomicInv(cfg: Config, s: State, e: Event)
    requires AtomicInv(cfg, s) && Enabled(cfg, s, e) && !e.Query?
    ensures AtomicInv(cfg, Apply(cfg, s, e))
  {
    var t := Apply(cfg, s, e);
    ShapeKept(cfg, s, e);
    forall w | 0 <= w < cfg.workers
      ensures NoAnswers(t.workers[w])
    {
      NoAnswersKept(cfg, s, e, w);
    }
    if e.Log? {
      LogKeepsAtomicInv(cfg, s, e);
    } else if e.Midnight? {
      AtomicTodayBounded(cfg, s);
      SumZero(|s.over|);
      assert SpendOn(t, t.day) == 0;
    } else {
      assert !e.Store? by {
        assert forall w | 0 <= w < cfg.workers :: NoAnswers(s.workers[w]);
      }
      TotalsKept(cfg, s, e);
      if SpendOn(s, s.day) > cfg.cap {
        forall w | 0 <= w < cfg.workers
          ensures Snug(cfg, t.workers[w], t.over[w], t.day)
        {
          StepKeepsSnug(cfg, s, e, w);
        }
      }
    }
  }

  /** Query and store together: over the cap, the answer turns its own call away. */
  lemma CheckKeepsAtomicInv(cfg: Config, s: State, w: nat, i: nat)
    requires AtomicInv(cfg, s) && Enabled(cfg, s, Query(w, i))
    ensures Enabled(cfg, Apply(cfg, s, Query(w, i)), Store(w, i))
    ensures AtomicInv(cfg, Apply(cfg, Apply(cfg, s, Query(w, i)), Store(w, i)))
  {
    var mid := Apply(cfg, s, Query(w, i));
    var t := Apply(cfg, mid, Store(w, i));
    var c := CallAt(s, w, i);
    var spent := SpendOn(s, s.day);
    var cache := s.workers[w].cache[c.day := Entry(c.since, spent)];
    var next := if spent > cfg.cap then Idle else Admitted;
    assert mid.workers[w].calls[i := next] == s.workers[w].calls[i := next];
    assert t.workers == s.workers[w := Worker(cache, s.workers[w].calls[i := next])];
    if spent > cfg.cap {
      assert Snug(cfg, s.workers[w], s.over[w], s.day);
      SnugChange(cfg, s.workers[w], s.over[w], s.day, i, Idle, cache);
    }
    assert NoAnswers(s.workers[w]);
  }

  lemma AtomicPrefix(es: seq<Event>, n: nat)
    requires Atomic(es) && n <= |es|
    ensures Atomic(es[..n])
  {
  }

  lemma {:induction false} AtomicRunKeepsInv(cfg: Config, es: seq<Event>)
    requires IsRun(cfg, es) && Atomic(es) && (es != [] ==> !es[|es| - 1].Query?)
    ensures AtomicInv(cfg, Exec(cfg, es))
    decreases |es|
  {
    if es == [] {
      SumZero(cfg.workers);
      return;
    }
    var n := |es| - 1;
    var before := es[..n];
    AtomicPrefix(es, n);
    assert IsRun(cfg, before);
    if before != [] && before[n - 1].Query? {
      var q := before[n - 1];
      assert es[n] == Store(q.w, q.i);
      var earlier := before[..n - 1];
      AtomicPrefix(before, n - 1);
      if earlier != [] && earlier[n - 2].Query? {
        assert false;
      }
      assert earlier == before[..|before| - 1];
      AtomicRunKeepsInv(cfg, earlier);
      assert Exec(cfg, before) == Apply(cfg, Exec(cfg, earlier), q);
      CheckKeepsAtomicInv(cfg, Exec(cfg, earlier), q.w, q.i);
    } else {
      AtomicRunKeepsInv(cfg, before);
      StepKeepsAtomicInv(cfg, Exec(cfg, before), es[n]);
    }
  }

  /** With query and store as one step, every day of every run stays within the documented
      bound; the ledger commit and the cache pop may still be far apart. */
  lemma AtomicRunsMeetDocumentedBound(cfg: Config, es: seq<Event>, day: nat)
    requires IsRun(cfg, es) && Atomic(es)
    ensures SpendOn(Exec(cfg, es), day) <= DocumentedBound(cfg)
  {
    if es != [] && es[|es| - 1].Query? {
      var before := es[..|es| - 1];
      AtomicPrefix(es, |es| - 1);
      if before != [] && before[|before| - 1].Query? {
        assert false;
      }
      AtomicRunsMeetDocumentedBound(cfg, before, day);
    } else {
      AtomicRunKeepsInv(cfg, es);
      AtomicTodayBounded(cfg, Exec(cfg, es));
    }
  }

  // ---------- The code as written ----------

  lemma LastApart(a: seq<Event>, b: seq<Event>)
    requires b != []
    ensures a + b == a + b[..|b| - 1] + [b[|b| - 1]]
  {
  }

  lemma {:induction false} ReachesThen(cfg: Config, s: State, a: seq<Event>, b: seq<Event>)
    requires Reaches(cfg, s, a) && Reaches(cfg, After(cfg, s, a), b)
    ensures Reaches(cfg, s, a + b) && After(cfg, s, a + b) == After(cfg, After(cfg, s, a), b)
    decreases |b|
  {
    if b == [] {
      assert a + b == a;
    } else {
      var n := |b| - 1;
      ReachesThen(cfg, s, a, b[..n]);
      Extend(cfg, s, a + b[..n], b[n]);
      LastApart(a, b);
    }
  }

  lemma OneStep(cfg: Config, s: State, e: Event)
    requires Enabled(cfg, s, e)
    ensures Reaches(cfg, s, [e]) && After(cfg, s, [e]) == Apply(cfg, s, e)
  {
    assert [e][..0] == [];
    assert After(cfg, s, [e][..0]) == s;
  }

  // ---------- Reaching the bound ----------

  /** What a sub-run that concerns worker `w` alone leaves in place. */
  predicate SameElsewhere(s: State, t: State, w: nat) {
    && t.now == s.now && t.day == s.day && |t.workers| == |s.workers| && |t.over| == |s.over|
    && forall v | 0 <= v < |s.workers| && v != w :: t.workers[v] == s.workers[v]
  }

  predicate AtStart(s: State, w: nat) {
    s.now == 0 && s.day == 0 && w < |s.workers| && w < |s.over|
  }

  function IdleWorker(c: nat): Worker {
    Worker(map[], seq(c, i => Idle))
  }

  /** A call that finds no cached spend is let through on the ledger's word. */
  lemma FirstHalf(cfg: Config, s: State, w: nat) returns (t: State)
    requires AtStart(s, w) && cfg.slots >= 1 && s.workers[w] == IdleWorker(cfg.slots) && SpendOn(s, 0) <= cfg.cap
    ensures Reaches(cfg, s, [Begin(w, 0), Query(w, 0), Store(w, 0)])
    ensures t == After(cfg, s, [Begin(w, 0), Query(w, 0), Store(w, 0)])
    ensures SameElsewhere(s, t, w) && t.ledger == s.ledger
    ensures t.workers[w] == Worker(map[0 := Entry(0, SpendOn(s, 0))], IdleWorker(cfg.slots).calls[0 := Admitted])
  {
    var es := [Begin(w, 0)];
    OneStep(cfg, s, Begin(w, 0));
    Extend(cfg, s, es, Query(w, 0));
    assert es + [Query(w, 0)] == [Begin(w, 0), Query(w, 0)];
    es := [Begin(w, 0), Query(w, 0)];
    Extend(cfg, s, es, Store(w, 0));
    assert es + [Store(w, 0)] == [Begin(w, 0), Query(w, 0), Store(w, 0)];
    t := After(cfg, s, [Begin(w, 0), Query(w, 0), Store(w, 0)]);
    assert t.workers[w].calls == IdleWorker(cfg.slots).calls[0 := Admitted];
  }

  /** One call after another, with nobody in its way: `cost` is spent and nothing else changes. */
  lemma OneCall(cfg: Config, s: State, w: nat, cost: nat) returns (es: seq<Event>)
    requires AtStart(s, w) && cfg.slots >= 1 && s.workers[w] == IdleWorker(cfg.slots)
    requires SpendOn(s, 0) <= cfg.cap && cost <= cfg.maxCost
    ensures Reaches(cfg, s, es)
    ensures var t := After(cfg, s, es);
      SameElsewhere(s, t, w) && t.workers[w] == s.workers[w] && SpendOn(t, 0) == SpendOn(s, 0) + cost
  {
    es := [Begin(w, 0), Query(w, 0), Store(w, 0)];
    var t := FirstHalf(cfg, s, w);
    Extend(cfg, s, es, Log(w, 0, cost));
    es := es + [Log(w, 0, cost)];
    Extend(cfg, s, es, Pop(w, 0));
    es := es + [Pop(w, 0)];
    var u := After(cfg, s, es);
    assert u.workers[w].cache == map[];
    assert u.workers[w].calls == IdleWorker(cfg.slots).calls;
  }

  /** Call after call, the day's spend is brought to exactly `target`. */
  lemma {:induction false} SpendUpTo(cfg: Config, s: State, w: nat, target: nat) returns (es: seq<Event>)
    requires AtStart(s, w) && cfg.slots >= 1 && cfg.maxCost >= 1 && s.workers[w] == IdleWorker(cfg.slots)
    requires SpendOn(s, 0) <= target <= cfg.cap
    ensures Reaches(cfg, s, es)
    ensures var t := After(cfg, s, es);
      SameElsewhere(s, t, w) && t.workers[w] == s.workers[w] && SpendOn(t, 0) == target
    decreases target - SpendOn(s, 0)
  {
    es := [];
    if SpendOn(s, 0) < target {
      var missing := target - SpendOn(s, 0);
      var first := OneCall(cfg, s, w, if missing < cfg.maxCost then missing else cfg.maxCost);
      var t := After(cfg, s, first);
      var more := SpendUpTo(cfg, t, w, target);
      ReachesThen(cfg, s, first, more);
      es := first + more;
    }
  }

  /** The first `i` slots idle, the rest still holding the answer `spent` from before the
      cap was crossed. */
  predicate Ready(wk: Worker, c: nat, i: nat, spent: nat) {
    && wk.cache == map[] && |wk.calls| == c
    && forall j | 0 <= j < c :: wk.calls[j] == if j < i then Idle else Queried(0, 0, spent)
  }

  /** Every slot from `k` on starts a call and queries the ledger. */
  lemma {:induction false} QueryFrom(cfg: Config, s: State, w: nat, k: nat) returns (es: seq<Event>)
    requires AtStart(s, w)
    requires k <= |s.workers[w].calls| && s.workers[w].cache == map[]
    requires forall j | 0 <= j < |s.workers[w].calls| ::
               s.workers[w].calls[j] == if j < k then Queried(0, 0, SpendOn(s, 0)) else Idle
    ensures Reaches(cfg, s, es)
    ensures var t := After(cfg, s, es);
      && SameElsewhere(s, t, w) && SpendOn(t, 0) == SpendOn(s, 0)
      && Ready(t.workers[w], |s.workers[w].calls|, 0, SpendOn(s, 0))
    decreases |s.workers[w].calls| - k
  {
    es := [];
    if k < |s.workers[w].calls| {
      var s1 := Apply(cfg, s, Begin(w, k));
      var s2 := Apply(cfg, s1, Query(w, k));
      OneStep(cfg, s, Begin(w, k));
      OneStep(cfg, s1, Query(w, k));
      var more := QueryFrom(cfg, s2, w, k + 1);
      ReachesThen(cfg, s1, [Query(w, k)], more);
      ReachesThen(cfg, s, [Begin(w, k)], [Query(w, k)] + more);
      es := [Begin(w, k)] + ([Query(w, k)] + more);
    }
  }

  lemma {:induction false} QueryAll(cfg: Config, s: State, k: nat) returns (es: seq<Event>)
    requires s.now == 0 && s.day == 0 && k <= |s.workers| == |s.over|
    requires forall v | 0 <= v < |s.workers| :: s.workers[v] == IdleWorker(cfg.slots)
    ensures Reaches(cfg, s, es)
    ensures var t := After(cfg, s, es);
      && t.now == 0 && t.day == 0 && |t.workers| == |s.workers| && |t.over| == |s.over|
      && SpendOn(t, 0) == SpendOn(s, 0)
      && (forall v | 0 <= v < k :: Ready(t.workers[v], cfg.slots, 0, SpendOn(s, 0)))
      && (forall v | k <= v < |s.workers| :: t.workers[v] == s.workers[v])
  {
    if k == 0 {
      es := [];
    } else {
      var earlier := QueryAll(cfg, s, k - 1);
      var more := QueryFrom(cfg, After(cfg, s, earlier), k - 1, 0);
      ReachesThen(cfg, s, earlier, more);
      es := earlier + more;
    }
  }

  /** Slots before `k` are `a`, up to `i` they are `b`, and beyond they wait with answers. */
  predicate Staged(wk: Worker, k: nat, i: nat, a: Call, b: Call, spent: nat) {
    forall j | 0 <= j < |wk.calls| ::
      wk.calls[j] == if j < k then a else if j <= i then b else Queried(0, 0, spent)
  }

  /** Slot `i` has stored its old answer, and the hot cache lets every earlier slot in again. */
  lemma {:induction false} AdmitFrom(cfg: Config, s: State, w: nat, k: nat, i: nat, spent: nat) returns (es: seq<Event>)
    requires AtStart(s, w) && k <= i < |s.workers[w].calls| && spent <= cfg.cap
    requires s.workers[w].cache == map[0 := Entry(0, spent)]
    requires forall j | 0 <= j < |s.workers[w].calls| ::
               s.workers[w].calls[j] ==
               if j < k || j == i then Admitted else if j < i then Idle else Queried(0, 0, spent)
    ensures Reaches(cfg, s, es)
    ensures var t := After(cfg, s, es);
      && SameElsewhere(s, t, w) && SpendOn(t, 0) == SpendOn(s, 0)
      && |t.workers[w].calls| == |s.workers[w].calls| && t.workers[w].cache == map[0 := Entry(0, spent)]
      && Staged(t.workers[w], 0, i, Logged, Admitted, spent)
    decreases i - k
  {
    es := [];
    if k < i {
      var t := Apply(cfg, s, Begin(w, k));
      OneStep(cfg, s, Begin(w, k));
      var more := AdmitFrom(cfg, t, w, k + 1, i, spent);
      ReachesThen(cfg, s, [Begin(w, k)], more);
      es := [Begin(w, k)] + more;
    }
  }

  /** All admitted slots log the dearest call each. */
  lemma {:induction false} LogFrom(cfg: Config, s: State, w: nat, k: nat, i: nat, spent: nat) returns (es: seq<Event>)
    requires AtStart(s, w) && i < |s.workers[w].calls| && k <= i + 1
    requires s.workers[w].cache == map[0 := Entry(0, spent)] && Staged(s.workers[w], k, i, Logged, Admitted, spent)
    ensures Reaches(cfg, s, es)
    ensures var t := After(cfg, s, es);
      && SameElsewhere(s, t, w) && SpendOn(t, 0) == SpendOn(s, 0) + cfg.maxCost * (i + 1 - k)
      && |t.workers[w].calls| == |s.workers[w].calls| && t.workers[w].cache == map[0 := Entry(0, spent)]
      && Staged(t.workers[w], 0, i, Idle, Logged, spent)
    decreases i + 1 - k
  {
    es := [];
    if k <= i {
      var t := Apply(cfg, s, Log(w, k, cfg.maxCost));
      OneStep(cfg, s, Log(w, k, cfg.maxCost));
      var more := LogFrom(cfg, t, w, k + 1, i, spent);
      ReachesThen(cfg, s, [Log(w, k, cfg.maxCost)], more);
      es := [Log(w, k, cfg.maxCost)] + more;
      MulOneMore(cfg.maxCost, i - k);
    }
  }

  lemma MulOneMore(m: nat, n: nat)
    ensures m * (n + 1) == m * n + m
  {
  }

  /** All of them pop the cache and leave. */
  lemma {:induction false} PopFrom(cfg: Config, s: State, w: nat, k: nat, i: nat, spent: nat) returns (es: seq<Event>)
    requires AtStart(s, w) && i < |s.workers[w].calls| && k <= i + 1
    requires s.workers[w].cache - {0} == map[] && (k > 0 ==> s.workers[w].cache == map[])
    requires Staged(s.workers[w], k, i, Idle, Logged, spent)
    ensures Reaches(cfg, s, es)
    ensures var t := After(cfg, s, es);
      && SameElsewhere(s, t, w) && SpendOn(t, 0) == SpendOn(s, 0)
      && Ready(t.workers[w], |s.workers[w].calls|, i + 1, spent)
    decreases i + 1 - k
  {
    es := [];
    if k <= i {
      var t := Apply(cfg, s, Pop(w, k));
      OneStep(cfg, s, Pop(w, k));
      var more := PopFrom(cfg, t, w, k + 1, i, spent);
      ReachesThen(cfg, s, [Pop(w, k)], more);
      es := [Pop(w, k)] + more;
    }
  }

  /** Storing an old answer heats the worker's cache and lets the slot in. */
  lemma StoreOld(cfg: Config, s: State, w: nat, i: nat, spent: nat) returns (t: State)
    requires AtStart(s, w) && i < cfg.slots && spent <= cfg.cap && Ready(s.workers[w], cfg.slots, i, spent)
    ensures Enabled(cfg, s, Store(w, i)) && t == Apply(cfg, s, Store(w, i))
    ensures SameElsewhere(s, t, w) && t.ledger == s.ledger
    ensures |t.workers[w].calls| == cfg.slots && t.workers[w].cache == map[0 := Entry(0, spent)]
    ensures forall j | 0 <= j < cfg.slots ::
              t.workers[w].calls[j] == if j == i then Admitted else if j < i then Idle else Queried(0, 0, spent)
  {
    t := Apply(cfg, s, Store(w, i));
  }

  lemma LogAndPop(cfg: Config, s: State, w: nat, i: nat, spent: nat) returns (es: seq<Event>)
    requires AtStart(s, w) && i < |s.workers[w].calls|
    requires s.workers[w].cache == map[0 := Entry(0, spent)] && Staged(s.workers[w], 0, i, Logged, Admitted, spent)
    ensures Reaches(cfg, s, es)
    ensures var t := After(cfg, s, es);
      && SameElsewhere(s, t, w) && SpendOn(t, 0) == SpendOn(s, 0) + cfg.maxCost * (i + 1)
      && Ready(t.workers[w], |s.workers[w].calls|, i + 1, spent)
  {
    var log := LogFrom(cfg, s, w, 0, i, spent);
    var pop := PopFrom(cfg, After(cfg, s, log), w, 0, i, spent);
    ReachesThen(cfg, s, log, pop);
    es := log + pop;
  }

  lemma AdmitLogPop(cfg: Config, s: State, w: nat, i: nat, spent: nat) returns (es: seq<Event>)
    requires AtStart(s, w) && i < |s.workers[w].calls| && spent <= cfg.cap
    requires s.workers[w].cache == map[0 := Entry(0, spent)]
    requires forall j | 0 <= j < |s.workers[w].calls| ::
               s.workers[w].calls[j] == if j == i then Admitted else if j < i then Idle else Queried(0, 0, spent)
    ensures Reaches(cfg, s, es)
    ensures var t := After(cfg, s, es);
      && SameElsewhere(s, t, w) && SpendOn(t, 0) == SpendOn(s, 0) + cfg.maxCost * (i + 1)
      && Ready(t.workers[w], |s.workers[w].calls|, i + 1, spent)
  {
    var admit := AdmitFrom(cfg, s, w, 0, i, spent);
    var more := LogAndPop(cfg, After(cfg, s, admit), w, i, spent);
    ReachesThen(cfg, s, admit, more);
    es := admit + more;
  }

  /** One re-opening of a worker: `i + 1` more calls go over the cap. */
  lemma Reopen(cfg: Config, s: State, w: nat, i: nat, spent: nat) returns (es: seq<Event>)
    requires AtStart(s, w) && i < cfg.slots && spent <= cfg.cap && Ready(s.workers[w], cfg.slots, i, spent)
    ensures Reaches(cfg, s, es)
    ensures var t := After(cfg, s, es);
      && SameElsewhere(s, t, w) && SpendOn(t, 0) == SpendOn(s, 0) + cfg.maxCost * (i + 1)
      && Ready(t.workers[w], cfg.slots, i + 1, spent)
  {
    var s1 := StoreOld(cfg, s, w, i, spent);
    OneStep(cfg, s, Store(w, i));
    var more := AdmitLogPop(cfg, s1, w, i, spent);
    ReachesThen(cfg, s, [Store(w, i)], more);
    es := [Store(w, i)] + more;
  }

  lemma {:induction false} ReopenAll(cfg: Config, s: State, w: nat, i: nat, spent: nat) returns (es: seq<Event>)
    requires AtStart(s, w) && i <= cfg.slots && spent <= cfg.cap && Ready(s.workers[w], cfg.slots, 0, spent)
    ensures Reaches(cfg, s, es)
    ensures var t := After(cfg, s, es);
      && SameElsewhere(s, t, w) && SpendOn(t, 0) == SpendOn(s, 0) + cfg.maxCost * Triangle(i)
      && Ready(t.workers[w], cfg.slots, i, spent)
  {
    es := [];
    if i > 0 {
      var earlier := ReopenAll(cfg, s, w, i - 1, spent);
      var t := After(cfg, s, earlier);
      var more := Reopen(cfg, t, w, i - 1, spent);
      ghost var u := After(cfg, t, more);
      assert SameElsewhere(s, u, w);
      ReachesThen(cfg, s, earlier, more);
      es := earlier + more;
      assert After(cfg, s, es) == u;
      MulPlus(cfg.maxCost, Triangle(i - 1), i);
    }
  }

  lemma MulPlus(m: nat, a: nat, b: nat)
    ensures m * (a + b) == m * a + m * b
  {
  }

  lemma {:induction false} SpendAll(cfg: Config, s: State, k: nat, spent: nat) returns (es: seq<Event>)
    requires s.now == 0 && s.day == 0 && |s.workers| == |s.over| && k <= |s.workers| && spent <= cfg.cap
    requires forall v | 0 <= v < |s.workers| :: Ready(s.workers[v], cfg.slots, 0, spent)
    ensures Reaches(cfg, s, es)
    ensures var t := After(cfg, s, es);
      && t.now == 0 && t.day == 0 && |t.workers| == |s.workers| && |t.over| == |s.over|
      && (forall v | k <= v < |s.workers| :: t.workers[v] == s.workers[v])
      && SpendOn(t, 0) == SpendOn(s, 0) + cfg.maxCost * (k * Triangle(cfg.slots))
  {
    if k == 0 {
      es := [];
    } else {
      var earlier := SpendAll(cfg, s, k - 1, spent);
      var t := After(cfg, s, earlier);
      var more := ReopenAll(cfg, t, k - 1, cfg.slots, spent);
      ReachesThen(cfg, s, earlier, more);
      es := earlier + more;
      MulOneMore(Triangle(cfg.slots), k - 1);
      MulPlus(cfg.maxCost, (k - 1) * Triangle(cfg.slots), Triangle(cfg.slots));
    }
  }

  /** From an empty ledger to every slot of every worker holding an answer equal to the cap. */
  lemma FillUpAndQuery(cfg: Config) returns (es: seq<Event>)
    requires cfg.workers >= 1 && cfg.slots >= 1 && cfg.maxCost >= 1
    ensures IsRun(cfg, es)
    ensures var t := Exec(cfg, es);
      && t.now == 0 && t.day == 0 && |t.workers| == cfg.workers && |t.over| == cfg.workers
      && SpendOn(t, 0) == cfg.cap
      && forall v | 0 <= v < cfg.workers :: Ready(t.workers[v], cfg.slots, 0, cfg.cap)
  {
    var start := Init(cfg);
    assert forall v | 0 <= v < cfg.workers :: start.workers[v] == IdleWorker(cfg.slots);
    var fill := SpendUpTo(cfg, start, 0, cfg.cap);
    var filled := After(cfg, start, fill);
    assert forall v | 0 <= v < cfg.workers :: filled.workers[v] == IdleWorker(cfg.slots);
    var queries := QueryAll(cfg, filled, cfg.workers);
    ReachesThen(cfg, start, fill, queries);
    es := fill + queries;
  }

  /** The triangle bound is exact: in every deployment, with any cap and any dearest call,
      some run reaches it. */
  lemma TriangleBoundIsReached(cfg: Config) returns (es: seq<Event>)
    requires cfg.workers >= 1 && cfg.slots >= 1 && cfg.maxCost >= 1
    ensures IsRun(cfg, es)
    ensures SpendOn(Exec(cfg, es), 0) == cfg.cap + cfg.maxCost * (cfg.workers * Triangle(cfg.slots))
  {
    var ready := FillUpAndQuery(cfg);
    var spend := SpendAll(cfg, Exec(cfg, ready), cfg.workers, cfg.cap);
    ReachesThen(cfg, Init(cfg), ready, spend);
    es := ready + spend;
  }

  lemma TriangleExceeds(m: nat, n: nat, c: nat)
    requires m >= 1 && n >= 1 && c >= 2
    ensures m * (n * Triangle(c)) > m * (n * c)
  {
    TriangleAtLeast(c - 1);
    MulMonotone(n, c + 1, Triangle(c));
    MulOneMore(n, c);
    MulMonotone(m, n * c + 1, n * Triangle(c));
    MulOneMore(m, n * c);
  }

  /** The bound of the design notes, for one deployment. */
  ghost predicate DocumentedBoundHolds(cfg: Config) {
    forall es: seq<Event>, day: nat | IsRun(cfg, es) :: SpendOn(Exec(cfg, es), day) <= DocumentedBound(cfg)
  }

  lemma ProductsVanish(m: nat, n: nat, t: nat, c: nat)
    requires n == 0 || m == 0 || t == c
    ensures m * (n * t) == m * (n * c)
  {
    if n == 0 { assert n * t == 0 == n * c; }
  }

  lemma OneSlotIsEnough(cfg: Config)
    requires cfg.slots <= 1 || cfg.workers == 0 || cfg.maxCost == 0
    ensures DocumentedBoundHolds(cfg)
  {
    forall es: seq<Event>, day: nat | IsRun(cfg, es)
      ensures SpendOn(Exec(cfg, es), day) <= DocumentedBound(cfg)
    {
      SpendNeverExceedsTriangleBound(cfg, es, day);
      assert Triangle(0) == 0 && Triangle(1) == 1;
      ProductsVanish(cfg.maxCost, cfg.workers, Triangle(cfg.slots), cfg.slots);
    }
  }

  /** For any number of workers, any cap and any dearest call, the code as written meets its
      documented bound exactly when a worker runs one call at a time (or nothing can be
      spent at all). */
  lemma DocumentedBoundIffOneCallPerWorker(cfg: Config)
    ensures DocumentedBoundHolds(cfg) <==> cfg.slots <= 1 || cfg.workers == 0 || cfg.maxCost == 0
  {
    if cfg.slots <= 1 || cfg.workers == 0 || cfg.maxCost == 0 {
      OneSlotIsEnough(cfg);
    } else {
      var es := TriangleBoundIsReached(cfg);
      TriangleExceeds(cfg.maxCost, cfg.workers, cfg.slots);
      assert !(SpendOn(Exec(cfg, es), 0) <= DocumentedBound(cfg));
    }
  }
}
