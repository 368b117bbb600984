/**
 The daily LLM cost cap: N worker processes share one ledger, and each keeps a cached
 copy of the day's spend that it drops after its own successes.

 A worker runs at most `slots` calls at a time. The cap check is three steps (read the
 cache, query the ledger, store the answer) because the query is awaited; so are the
 ledger commit and the cache pop after a success. Money is in micro-dollars and the
 monotonic clock in seconds.
 */
module CostCap {

  const COST_CACHE_TTL_SECONDS: nat := 60

  /** `cap` is the configured cap, `maxCost` the dearest single call. */
  datatype Config = Config(workers: nat, slots: nat, cap: nat, maxCost: nat)

  /** What one call slot of a worker is doing. */
  datatype Call =
    | Idle
    | Missed(day: nat, since: nat)                // about to query today's spend
    | Queried(day: nat, since: nat, spent: nat)   // holds the answer, not stored yet
    | Admitted                                    // passed the check; talking to a provider
    | Logged                                      // cost committed, cache not popped yet

  datatype Entry = Entry(since: nat, spent: nat)

  datatype Worker = Worker(cache: map<nat, Entry>, calls: seq<Call>)

  datatype State = State(
    now: nat,
    day: nat,
    ledger: map<nat, nat>,   // committed cost per UTC day
    workers: seq<Worker>,
    over: seq<nat>)          // history: per worker, today's logs that left the total over the cap

  datatype Event =
    | Begin(w: nat, i: nat)
    | Query(w: nat, i: nat)
    | Store(w: nat, i: nat)
    | Abort(w: nat, i: nat)
    | Log(w: nat, i: nat, cost: nat)
    | Pop(w: nat, i: nat)
    | Restart(w: nat)
    | Tick(seconds: nat)
    | Midnight

  function SpendOn(s: State, day: nat): nat {
    if day in s.ledger then s.ledger[day] else 0
  }

  function Init(cfg: Config): State {
    State(0, 0, map[],
          seq(cfg.workers, w => Worker(map[], seq(cfg.slots, i => Idle))),
          seq(cfg.workers, w => 0))
  }

  predicate HasSlot(s: State, w: nat, i: nat) {
    w < |s.workers| && i < |s.workers[w].calls|
  }

  function CallAt(s: State, w: nat, i: nat): Call
    requires HasSlot(s, w, i)
  {
    s.workers[w].calls[i]
  }

  function WithCall(s: State, w: nat, i: nat, c: Call): State
    requires HasSlot(s, w, i)
  {
    s.(workers := s.workers[w := s.workers[w].(calls := s.workers[w].calls[i := c])])
  }

  function WithCache(s: State, w: nat, cache: map<nat, Entry>): State
    requires w < |s.workers|
  {
    s.(workers := s.workers[w := s.workers[w].(cache := cache)])
  }

  /** Does a worker hold a cached spend for the day, young enough to use? */
  predicate Fresh(wk: Worker, day: nat, now: nat) {
    day in wk.cache && now - wk.cache[day].since < COST_CACHE_TTL_SECONDS
  }

  predicate Enabled(cfg: Config, s: State, e: Event) {
    match e
    case Begin(w, i) => HasSlot(s, w, i) && CallAt(s, w, i).Idle?
    case Query(w, i) => HasSlot(s, w, i) && CallAt(s, w, i).Missed?
    case Store(w, i) => HasSlot(s, w, i) && CallAt(s, w, i).Queried?
    case Abort(w, i) => HasSlot(s, w, i) && !CallAt(s, w, i).Logged?
    case Log(w, i, cost) => HasSlot(s, w, i) && CallAt(s, w, i).Admitted? && cost <= cfg.maxCost && w < |s.over|
    case Pop(w, i) => HasSlot(s, w, i) && CallAt(s, w, i).Logged?
    case Restart(w) => w < |s.workers|
    case Tick(_) => true
    case Midnight => true
  }

  function Apply(cfg: Config, s: State, e: Event): State
    requires Enabled(cfg, s, e)
  {
    match e
    case Begin(w, i) =>
      var wk := s.workers[w];
      if Fresh(wk, s.day, s.now) then
        if wk.cache[s.day].spent > cfg.cap then s else WithCall(s, w, i, Admitted)
      else
        WithCall(s, w, i, Missed(s.day, s.now))
    case Query(w, i) =>
      var c := CallAt(s, w, i);
      WithCall(s, w, i, Queried(c.day, c.since, SpendOn(s, s.day)))
    case Store(w, i) =>
      var c := CallAt(s, w, i);
      WithCall(WithCache(s, w, s.workers[w].cache[c.day := Entry(c.since, c.spent)]),
               w, i, if c.spent > cfg.cap then Idle else Admitted)
    case Abort(w, i) => WithCall(s, w, i, Idle)
    case Log(w, i, cost) =>
      var total := SpendOn(s, s.day) + cost;
      WithCall(s.(ledger := s.ledger[s.day := total],
                  over := if total > cfg.cap then s.over[w := s.over[w] + 1] else s.over),
               w, i, Logged)
    case Pop(w, i) => WithCall(WithCache(s, w, s.workers[w].cache - {s.day}), w, i, Idle)
    case Restart(w) => s.(workers := s.workers[w := Worker(map[], seq(cfg.slots, i => Idle))])
    case Tick(d) => s.(now := s.now + d)
    case Midnight => s.(day := s.day + 1, over := seq(|s.over|, w => 0))
  }

  ghost predicate Reaches(cfg: Config, s: State, es: seq<Event>)
    decreases |es|, 0
  {
    es == [] ||
    (Reaches(cfg, s, es[..|es| - 1]) && Enabled(cfg, After(cfg, s, es[..|es| - 1]), es[|es| - 1]))
  }

  ghost function After(cfg: Config, s: State, es: seq<Event>): State
    requires Reaches(cfg, s, es)
    decreases |es|, 1
  {
    if es == [] then s else Apply(cfg, After(cfg, s, es[..|es| - 1]), es[|es| - 1])
  }

  ghost predicate IsRun(cfg: Config, es: seq<Event>) {
    Reaches(cfg, Init(cfg), es)
  }

  ghost function Exec(cfg: Config, es: seq<Event>): State
    requires IsRun(cfg, es)
  {
    After(cfg, Init(cfg), es)
  }

  /** Append one event to a run from `s`. */
  lemma Extend(cfg: Config, s: State, es: seq<Event>, e: Event)
    requires Reaches(cfg, s, es) && Enabled(cfg, After(cfg, s, es), e)
    ensures Reaches(cfg, s, es + [e]) && After(cfg, s, es + [e]) == Apply(cfg, After(cfg, s, es), e)
  {
    assert (es + [e])[..|es + [e]| - 1] == es;
  }

  // ---------- Counting calls ----------

  datatype Kind = StaleAnswer | InProvider | AwaitingPop

  /** A stale answer is a queried spend that will pass the check when it is stored. */
  predicate Is(c: Call, k: Kind, cap: nat) {
    match k
    case StaleAnswer => c.Queried? && c.spent <= cap
    case InProvider => c.Admitted?
    case AwaitingPop => c.Logged?
  }

  function Tally(calls: seq<Call>, k: Kind, cap: nat): nat {
    if calls == [] then 0 else Tally(calls[1..], k, cap) + if Is(calls[0], k, cap) then 1 else 0
  }

  lemma {:induction false} TallyUpdate(calls: seq<Call>, i: nat, c: Call, k: Kind, cap: nat)
    requires i < |calls|
    ensures Tally(calls[i := c], k, cap) ==
            Tally(calls, k, cap) + (if Is(c, k, cap) then 1 else 0) - (if Is(calls[i], k, cap) then 1 else 0)
    decreases |calls|
  {
    var after := calls[i := c];
    if i == 0 {
      assert after[1..] == calls[1..];
    } else {
      assert after[1..] == calls[1..][i - 1 := c];
      TallyUpdate(calls[1..], i - 1, c, k, cap);
    }
  }

  lemma {:induction false} TalliesFit(calls: seq<Call>, cap: nat)
    ensures Tally(calls, StaleAnswer, cap) + Tally(calls, InProvider, cap) + Tally(calls, AwaitingPop, cap) <= |calls|
    decreases |calls|
  {
    if calls != [] { TalliesFit(calls[1..], cap); }
  }

  lemma {:induction false} IdleTally(n: nat, k: Kind, cap: nat)
    ensures Tally(seq(n, i => Idle), k, cap) == 0
    decreases n
  {
    var calls := seq(n, i => Idle);
    if n > 0 {
      assert calls[1..] == seq((n - 1) as nat, i => Idle);
      IdleTally(n - 1, k, cap);
    }
  }

  function Sum(xs: seq<nat>): nat {
    if xs == [] then 0 else xs[0] + Sum(xs[1..])
  }

  lemma {:induction false} SumIncrement(xs: seq<nat>, i: nat)
    requires i < |xs|
    ensures Sum(xs[i := xs[i] + 1]) == Sum(xs) + 1
    decreases |xs|
  {
    var ys := xs[i := xs[i] + 1];
    if i == 0 {
      assert ys[1..] == xs[1..];
    } else {
      assert ys[1..] == xs[1..][i - 1 := xs[1..][i - 1] + 1];
      SumIncrement(xs[1..], i - 1);
    }
  }

  lemma {:induction false} SumBounded(xs: seq<nat>, b: nat)
    requires forall i | 0 <= i < |xs| :: xs[i] <= b
    ensures Sum(xs) <= |xs| * b
    decreases |xs|
  {
    if xs != [] { SumBounded(xs[1..], b); }
  }

  lemma {:induction false} SumZero(n: nat)
    ensures Sum(seq(n, i => 0)) == 0
    decreases n
  {
    var xs := seq(n, i => 0);
    if n > 0 {
      assert xs[1..] == seq((n - 1) as nat, i => 0);
      SumZero(n - 1);
    }
  }

  /** 1 + 2 + ... + n, and 0 below. */
  function Triangle(n: int): nat
    decreases if n <= 0 then 0 else n
  {
    if n <= 0 then 0 else n + Triangle(n - 1)
  }

  lemma {:induction false} TriangleClosed(n: nat)
    ensures 2 * Triangle(n) == n * (n + 1)
  {
    if n > 0 { TriangleClosed(n - 1); }
  }

  lemma {:induction false} TriangleMonotone(m: int, n: int)
    requires m <= n
    ensures Triangle(m) <= Triangle(n)
    decreases n - m
  {
    if m < n { TriangleMonotone(m, n - 1); }
  }

  lemma {:induction false} TriangleAtLeast(n: nat)
    ensures n <= Triangle(n)
  {
    if n > 0 { TriangleAtLeast(n - 1); }
  }

  // ---------- The bound that the code obeys ----------

  /** A worker whose cache would still let calls through today. */
  predicate Hot(wk: Worker, day: nat, cap: nat) {
    day in wk.cache && wk.cache[day].spent <= cap
  }

  function Stale(wk: Worker, cap: nat): nat { Tally(wk.calls, StaleAnswer, cap) }

  function Busy(wk: Worker, cap: nat): nat { Tally(wk.calls, InProvider, cap) }

  function Pending(wk: Worker, cap: nat): nat { Tally(wk.calls, AwaitingPop, cap) }

  /** Once the cap is crossed, each stale answer can re-open a worker once more, with one
      more slot than the last time. */
  predicate Contained(cfg: Config, wk: Worker, over: nat, day: nat) {
    var q := Stale(wk, cfg.cap);
    && over + Busy(wk, cfg.cap) <= Triangle(cfg.slots - q)
    && (Hot(wk, day, cfg.cap) ==> over <= Pending(wk, cfg.cap) + Triangle(cfg.slots - q - 1))
  }

  ghost predicate Shape(cfg: Config, s: State) {
    && |s.workers| == cfg.workers && |s.over| == cfg.workers
    && (forall w | 0 <= w < cfg.workers :: |s.workers[w].calls| == cfg.slots)
    && (forall d | d in s.ledger :: d <= s.day)
  }

  ghost predicate Inv(cfg: Config, s: State) {
    && Shape(cfg, s)
    && SpendOn(s, s.day) <= cfg.cap + cfg.maxCost * Sum(s.over)
    && (SpendOn(s, s.day) <= cfg.cap ==> forall w | 0 <= w < cfg.workers :: s.over[w] == 0)
    && (SpendOn(s, s.day) > cfg.cap ==>
          forall w | 0 <= w < cfg.workers :: Contained(cfg, s.workers[w], s.over[w], s.day))
    && (forall d | d in s.ledger && d < s.day ::
          s.ledger[d] <= cfg.cap + cfg.maxCost * (cfg.workers * Triangle(cfg.slots)))
  }

  lemma SlotChange(wk: Worker, i: nat, c: Call, cap: nat)
    requires i < |wk.calls|
    ensures var after := wk.(calls := wk.calls[i := c]);
      && Stale(after, cap) == Stale(wk, cap) + (if Is(c, StaleAnswer, cap) then 1 else 0)
                                             - (if Is(wk.calls[i], StaleAnswer, cap) then 1 else 0)
      && Busy(after, cap) == Busy(wk, cap) + (if Is(c, InProvider, cap) then 1 else 0)
                                           - (if Is(wk.calls[i], InProvider, cap) then 1 else 0)
      && Pending(after, cap) == Pending(wk, cap) + (if Is(c, AwaitingPop, cap) then 1 else 0)
                                                 - (if Is(wk.calls[i], AwaitingPop, cap) then 1 else 0)
      && Stale(after, cap) + Busy(after, cap) + Pending(after, cap) <= |wk.calls|
  {
    TallyUpdate(wk.calls, i, c, StaleAnswer, cap);
    TallyUpdate(wk.calls, i, c, InProvider, cap);
    TallyUpdate(wk.calls, i, c, AwaitingPop, cap);
    TalliesFit(wk.calls[i := c], cap);
  }

  /** The worker that a call event belongs to. */
  predicate ActsOn(e: Event, w: nat) {
    match e
    case Tick(_) => false
    case Midnight => false
    case _ => e.w == w
  }

  lemma OtherWorkersKeep(cfg: Config, s: State, e: Event, w: nat)
    requires Shape(cfg, s) && Enabled(cfg, s, e) && !e.Midnight? && w < cfg.workers && !ActsOn(e, w)
    ensures var t := Apply(cfg, s, e);
      && w < |t.workers| && w < |t.over|
      && t.workers[w] == s.workers[w] && t.over[w] == s.over[w] && t.day == s.day
  {
  }

  /** A worker stays contained through a change of one slot when no stale answer is added,
      a newly admitted call comes from a hot cache, and the cache is not heated. */
  lemma QuietChange(cfg: Config, wk: Worker, over: nat, day: nat, i: nat, c: Call, cache: map<nat, Entry>)
    requires |wk.calls| == cfg.slots && i < |wk.calls| && Contained(cfg, wk, over, day)
    requires !Is(c, StaleAnswer, cfg.cap) && !c.Logged?
    requires c.Admitted? ==> Hot(wk, day, cfg.cap) && wk.calls[i].Idle?
    requires Hot(Worker(cache, wk.calls), day, cfg.cap) ==> Hot(wk, day, cfg.cap) && !wk.calls[i].Logged?
    ensures Contained(cfg, Worker(cache, wk.calls[i := c]), over, day)
  {
    SlotChange(wk, i, c, cfg.cap);
    TalliesFit(wk.calls, cfg.cap);
    var before, q := Stale(wk, cfg.cap), Stale(Worker(cache, wk.calls[i := c]), cfg.cap);
    TriangleMonotone(cfg.slots - before, cfg.slots - q);
    TriangleMonotone(cfg.slots - before - 1, cfg.slots - q - 1);
  }

  /** Storing a stale answer heats the worker again, on a budget one slot larger. */
  lemma StaleStore(cfg: Config, wk: Worker, over: nat, day: nat, i: nat, cache: map<nat, Entry>)
    requires |wk.calls| == cfg.slots && i < |wk.calls| && Contained(cfg, wk, over, day)
    requires Is(wk.calls[i], StaleAnswer, cfg.cap)
    ensures Contained(cfg, Worker(cache, wk.calls[i := Admitted]), over, day)
  {
    SlotChange(wk, i, Admitted, cfg.cap);
    TalliesFit(wk.calls, cfg.cap);
  }

  /** A log moves one call from the provider to the pop, and counts. */
  lemma OverLog(cfg: Config, wk: Worker, over: nat, day: nat, i: nat)
    requires |wk.calls| == cfg.slots && i < |wk.calls| && wk.calls[i].Admitted?
    requires over == 0 || Contained(cfg, wk, over, day)
    ensures Contained(cfg, wk.(calls := wk.calls[i := Logged]), over + 1, day)
  {
    SlotChange(wk, i, Logged, cfg.cap);
    TalliesFit(wk.calls, cfg.cap);
    TriangleAtLeast(cfg.slots - Stale(wk, cfg.cap));
  }

  /** Before the cap is crossed nothing has been spent from the budget. */
  lemma FreshContained(cfg: Config, wk: Worker, day: nat)
    requires |wk.calls| == cfg.slots
    ensures Contained(cfg, wk, 0, day)
  {
    TalliesFit(wk.calls, cfg.cap);
    TriangleAtLeast(cfg.slots - Stale(wk, cfg.cap));
  }

  lemma RestartContained(cfg: Config, wk: Worker, over: nat, day: nat)
    requires Contained(cfg, wk, over, day)
    ensures Contained(cfg, Worker(map[], seq(cfg.slots, i => Idle)), over, day)
  {
    IdleTally(cfg.slots, StaleAnswer, cfg.cap);
    IdleTally(cfg.slots, InProvider, cfg.cap);
    TriangleMonotone(cfg.slots - Stale(wk, cfg.cap), cfg.slots);
  }

  /** While the day is over the cap, every step keeps every worker contained. */
  lemma StepKeepsContained(cfg: Config, s: State, e: Event, w: nat)
    requires Shape(cfg, s) && Enabled(cfg, s, e) && !e.Midnight? && w < cfg.workers
    requires SpendOn(s, s.day) > cfg.cap && Contained(cfg, s.workers[w], s.over[w], s.day)
    ensures var t := Apply(cfg, s, e);
      w < |t.workers| && w < |t.over| && t.day == s.day && Contained(cfg, t.workers[w], t.over[w], t.day)
  {
    var wk, over, day := s.workers[w], s.over[w], s.day;
    if !ActsOn(e, w) {
      OtherWorkersKeep(cfg, s, e, w);
      return;
    }
    match e
    case Begin(_, i) =>
      if Fresh(wk, day, s.now) {
        if wk.cache[day].spent <= cfg.cap { QuietChange(cfg, wk, over, day, i, Admitted, wk.cache); }
      } else {
        QuietChange(cfg, wk, over, day, i, Missed(day, s.now), wk.cache);
      }
    case Query(_, i) =>
      QuietChange(cfg, wk, over, day, i, Queried(wk.calls[i].day, wk.calls[i].since, SpendOn(s, day)), wk.cache);
    case Store(_, i) =>
      var c := wk.calls[i];
      var cache := wk.cache[c.day := Entry(c.since, c.spent)];
      if c.spent > cfg.cap {
        QuietChange(cfg, wk, over, day, i, Idle, cache);
      } else {
        StaleStore(cfg, wk, over, day, i, cache);
      }
    case Abort(_, i) => QuietChange(cfg, wk, over, day, i, Idle, wk.cache);
    case Log(_, i, _) => OverLog(cfg, wk, over, day, i);
    case Pop(_, i) => QuietChange(cfg, wk, over, day, i, Idle, wk.cache - {day});
    case Restart(_) => RestartContained(cfg, wk, over, day);
    case Tick(_) =>
  }

  lemma ShapeKept(cfg: Config, s: State, e: Event)
    requires Shape(cfg, s) && Enabled(cfg, s, e)
    ensures Shape(cfg, Apply(cfg, s, e))
  {
  }

  /** Only a log changes the day's total. */
  lemma TotalsKept(cfg: Config, s: State, e: Event)
    requires Enabled(cfg, s, e) && !e.Log? && !e.Midnight?
    ensures Apply(cfg, s, e).ledger == s.ledger && Apply(cfg, s, e).over == s.over && Apply(cfg, s, e).day == s.day
  {
  }

  /** The total stays paid for: the cap, plus one dearest call per log that ended over it. */
  lemma LogIsPaidFor(cfg: Config, s: State, w: nat, i: nat, cost: nat)
    requires Shape(cfg, s) && Enabled(cfg, s, Log(w, i, cost))
    requires SpendOn(s, s.day) <= cfg.cap + cfg.maxCost * Sum(s.over)
    ensures var t := Apply(cfg, s, Log(w, i, cost));
      SpendOn(t, t.day) <= cfg.cap + cfg.maxCost * Sum(t.over)
  {
    var t := Apply(cfg, s, Log(w, i, cost));
    if SpendOn(t, t.day) > cfg.cap {
      SumIncrement(s.over, w);
      assert cfg.maxCost * (Sum(s.over) + 1) == cfg.maxCost * Sum(s.over) + cfg.maxCost;
    } else {
      assert cfg.maxCost * Sum(t.over) >= 0;
    }
  }

  lemma LogContained(cfg: Config, s: State, e: Event, w: nat)
    requires Shape(cfg, s) && Enabled(cfg, s, e) && e.Log? && w < cfg.workers
    requires SpendOn(s, s.day) <= cfg.cap ==> s.over[w] == 0
    requires SpendOn(s, s.day) > cfg.cap ==> Contained(cfg, s.workers[w], s.over[w], s.day)
    requires SpendOn(Apply(cfg, s, e), s.day) > cfg.cap
    ensures var t := Apply(cfg, s, e);
      w < |t.workers| && w < |t.over| && Contained(cfg, t.workers[w], t.over[w], t.day)
  {
    if w == e.w {
      OverLog(cfg, s.workers[w], s.over[w], s.day, e.i);
    } else {
      OtherWorkersKeep(cfg, s, e, w);
      if SpendOn(s, s.day) <= cfg.cap {
        FreshContained(cfg, s.workers[w], s.day);
      }
    }
  }

  lemma LogKeepsInv(cfg: Config, s: State, e: Event)
    requires Inv(cfg, s) && Enabled(cfg, s, e) && e.Log?
    ensures Inv(cfg, Apply(cfg, s, e))
  {
    var t := Apply(cfg, s, e);
    ShapeKept(cfg, s, e);
    LogIsPaidFor(cfg, s, e.w, e.i, e.cost);
    if SpendOn(t, t.day) > cfg.cap {
      forall w | 0 <= w < cfg.workers
        ensures Contained(cfg, t.workers[w], t.over[w], t.day)
      {
        LogContained(cfg, s, e, w);
      }
    }
  }

  lemma MidnightKeepsInv(cfg: Config, s: State)
    requires Inv(cfg, s)
    ensures Inv(cfg, Apply(cfg, s, Midnight))
  {
    var t := Apply(cfg, s, Midnight);
    TodayBounded(cfg, s);
    SumZero(|s.over|);
    assert SpendOn(t, t.day) == 0;
  }

  lemma OverBounded(cfg: Config, wk: Worker, over: nat, day: nat)
    requires Contained(cfg, wk, over, day)
    ensures over <= Triangle(cfg.slots)
  {
    TriangleMonotone(cfg.slots - Stale(wk, cfg.cap), cfg.slots);
  }

  lemma TimesSumBounded(m: nat, xs: seq<nat>, b: nat)
    requires forall i | 0 <= i < |xs| :: xs[i] <= b
    ensures m * Sum(xs) <= m * (|xs| * b)
  {
    SumBounded(xs, b);
    MulMonotone(m, Sum(xs), |xs| * b);
  }

  /** The invariant caps today's total too. */
  lemma TodayBounded(cfg: Config, s: State)
    requires Inv(cfg, s)
    ensures SpendOn(s, s.day) <= cfg.cap + cfg.maxCost * (cfg.workers * Triangle(cfg.slots))
  {
    if SpendOn(s, s.day) > cfg.cap {
      forall w | 0 <= w < cfg.workers
        ensures s.over[w] <= Triangle(cfg.slots)
      {
        OverBounded(cfg, s.workers[w], s.over[w], s.day);
      }
      TimesSumBounded(cfg.maxCost, s.over, Triangle(cfg.slots));
    }
  }

  lemma MulMonotone(m: nat, a: nat, b: nat)
    requires a <= b
    ensures m * a <= m * b
  {
  }

  lemma StepKeepsInv(cfg: Config, s: State, e: Event)
    requires Inv(cfg, s) && Enabled(cfg, s, e)
    ensures Inv(cfg, Apply(cfg, s, e))
  {
    if e.Log? {
      LogKeepsInv(cfg, s, e);
    } else if e.Midnight? {
      MidnightKeepsInv(cfg, s);
    } else {
      ShapeKept(cfg, s, e);
      TotalsKept(cfg, s, e);
      var t := Apply(cfg, s, e);
      if SpendOn(s, s.day) > cfg.cap {
        forall w | 0 <= w < cfg.workers
          ensures Contained(cfg, t.workers[w], t.over[w], t.day)
        {
          StepKeepsContained(cfg, s, e, w);
        }
      }
    }
  }

  lemma InitInv(cfg: Config)
    ensures Inv(cfg, Init(cfg))
  {
    SumZero(cfg.workers);
  }

  lemma {:induction false} RunKeepsInv(cfg: Config, es: seq<Event>)
    requires IsRun(cfg, es)
    ensures Inv(cfg, Exec(cfg, es))
    decreases |es|
  {
    if es == [] {
      InitInv(cfg);
    } else {
      RunKeepsInv(cfg, es[..|es| - 1]);
      StepKeepsInv(cfg, Exec(cfg, es[..|es| - 1]), es[|es| - 1]);
    }
  }

  /** In every run, every UTC day's committed cost stays within the cap plus, for each
      worker, 1 + 2 + ... + slots of the dearest calls. */
  lemma SpendNeverExceedsTriangleBound(cfg: Config, es: seq<Event>, day: nat)
    requires IsRun(cfg, es)
    ensures SpendOn(Exec(cfg, es), day) <= cfg.cap + cfg.maxCost * (cfg.workers * Triangle(cfg.slots))
  {
    RunKeepsInv(cfg, es);
    TodayBounded(cfg, Exec(cfg, es));
  }
}
