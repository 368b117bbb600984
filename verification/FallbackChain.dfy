/**
 The LLM executor of one worker: cap check, provider fallback, call ledger.

 Providers are oracles: `outcomes[i]` is what dispatching entry `i` of the chain would
 give, None for an exception. Money is in micro-dollars, the precision of the column.
 How several executors share one ledger is the subject of `CostCap`.
 */
module FallbackChain {
  import opened Wrappers
  import opened Text
  import CostCap

  datatype Response = Response(text: string, cost: nat)

  datatype LogRow = LogRow(day: nat, task: string, provider: string, model: string, ok: bool, cost: nat)

  datatype Result =
    | Answer(response: Response)
    | CapReached(spent: nat)
    | NoRoute
    | AllFailed

  // ---------- Entries ----------

  /** Split a chain entry at its first slash; None where the source raises. */
  function SplitProviderModel(entry: string): Option<(string, string)> {
    match Cut(entry, '/')
    case None => None
    case Some((provider, model)) => if provider == "" || model == "" then None else Some((provider, model))
  }

  /** Splitting undoes joining, and accepts nothing else. */
  lemma SplitIsJoinInverse(entry: string, provider: string, model: string)
    ensures SplitProviderModel(entry) == Some((provider, model)) <==>
              entry == provider + "/" + model && '/' !in provider && provider != "" && model != ""
  {
    CutIsJoinInverse(entry, '/', provider, model);
  }

  /** Well-formed, and its provider has a key. */
  predicate Usable(entry: string, keys: set<string>) {
    var pm := SplitProviderModel(entry);
    pm.Some? && pm.value.0 in keys
  }

  /** That is: it names a provider that has a key and a model, the provider up to its first
      slash. */
  lemma UsableIff(entry: string, keys: set<string>)
    ensures Usable(entry, keys) <==> exists provider, model :: provider in keys && Names(entry, provider, model)
  {
    if Usable(entry, keys) {
      var pm := SplitProviderModel(entry).value;
      SplitIsJoinInverse(entry, pm.0, pm.1);
      assert Names(entry, pm.0, pm.1);
    }
    forall provider, model | provider in keys && Names(entry, provider, model)
      ensures Usable(entry, keys)
    {
      SplitIsJoinInverse(entry, provider, model);
    }
  }

  predicate Names(entry: string, provider: string, model: string) {
    entry == provider + "/" + model && '/' !in provider && provider != "" && model != ""
  }

  predicate Succeeds(entry: string, keys: set<string>, outcome: Option<Response>) {
    Usable(entry, keys) && outcome.Some?
  }

  // ---------- What a walk of the chain writes ----------

  function RowFor(day: nat, task: string, entry: string, outcome: Option<Response>): LogRow
    requires SplitProviderModel(entry).Some?
  {
    var pm := SplitProviderModel(entry).value;
    LogRow(day, task, pm.0, pm.1, outcome.Some?, if outcome.Some? then outcome.value.cost else 0)
  }

  /** What trying one entry logs: a row if it is dispatched, nothing if it is skipped. */
  function EntryRows(day: nat, task: string, entry: string, keys: set<string>, outcome: Option<Response>): seq<LogRow> {
    if Usable(entry, keys) then [RowFor(day, task, entry, outcome)] else []
  }

  /** One row per usable entry among the first `n`. */
  function RowsOf(day: nat, task: string, chain: seq<string>, keys: set<string>, outcomes: seq<Option<Response>>,
      n: nat): seq<LogRow>
    requires n <= |chain| == |outcomes|
  {
    if n == 0 then []
    else RowsOf(day, task, chain, keys, outcomes, n - 1) + EntryRows(day, task, chain[n - 1], keys, outcomes[n - 1])
  }

  function LoggedCost(rows: seq<LogRow>): nat {
    if rows == [] then 0 else LoggedCost(rows[..|rows| - 1]) + rows[|rows| - 1].cost
  }

  function OkRows(rows: seq<LogRow>): nat {
    if rows == [] then 0 else OkRows(rows[..|rows| - 1]) + if rows[|rows| - 1].ok then 1 else 0
  }

  function SpentOn(rows: seq<LogRow>, day: nat): nat {
    if rows == [] then 0
    else SpentOn(rows[..|rows| - 1], day) + if rows[|rows| - 1].day == day then rows[|rows| - 1].cost else 0
  }

  lemma {:induction false} LoggedCostAppend(a: seq<LogRow>, b: seq<LogRow>)
    ensures LoggedCost(a + b) == LoggedCost(a) + LoggedCost(b)
    ensures OkRows(a + b) == OkRows(a) + OkRows(b)
    decreases |b|
  {
    if b == [] {
      assert a + b == a;
    } else {
      assert (a + b)[..|a + b| - 1] == a + b[..|b| - 1];
      LoggedCostAppend(a, b[..|b| - 1]);
    }
  }

  /** Entries that do not succeed cost nothing and log no success. */
  lemma {:induction false} FailuresCostNothing(day: nat, task: string, chain: seq<string>, keys: set<string>,
                                               outcomes: seq<Option<Response>>, n: nat)
    requires n <= |chain| == |outcomes|
    requires forall j | 0 <= j < n :: !Succeeds(chain[j], keys, outcomes[j])
    ensures LoggedCost(RowsOf(day, task, chain, keys, outcomes, n)) == 0
    ensures OkRows(RowsOf(day, task, chain, keys, outcomes, n)) == 0
  {
    if n > 0 {
      FailuresCostNothing(day, task, chain, keys, outcomes, n - 1);
      LoggedCostAppend(RowsOf(day, task, chain, keys, outcomes, n - 1),
          EntryRows(day, task, chain[n - 1], keys, outcomes[n - 1]));
    }
  }

  /** A walk that stops at its first success logs one success, at exactly its cost. */
  lemma WinnerIsTheWholeCost(day: nat, task: string, chain: seq<string>, keys: set<string>,
                             outcomes: seq<Option<Response>>, i: nat)
    requires i < |chain| == |outcomes|
    requires Succeeds(chain[i], keys, outcomes[i])
    requires forall j | 0 <= j < i :: !Succeeds(chain[j], keys, outcomes[j])
    ensures LoggedCost(RowsOf(day, task, chain, keys, outcomes, i + 1)) == outcomes[i].value.cost
    ensures OkRows(RowsOf(day, task, chain, keys, outcomes, i + 1)) == 1
  {
    FailuresCostNothing(day, task, chain, keys, outcomes, i);
    var row := RowFor(day, task, chain[i], outcomes[i]);
    LoggedCostAppend(RowsOf(day, task, chain, keys, outcomes, i), [row]);
    assert [row][..0] == [];
  }

  /** Position `i` is the first success, or the length when there is none. */
  predicate FirstSuccess(chain: seq<string>, keys: set<string>, outcomes: seq<Option<Response>>, i: nat)
    requires i <= |chain| == |outcomes|
  {
    && (forall j | 0 <= j < i :: !Succeeds(chain[j], keys, outcomes[j]))
    && (i < |chain| ==> Succeeds(chain[i], keys, outcomes[i]))
  }

  /** The rows of a walk whose first success is at `i`. */
  function WalkRows(day: nat, task: string, chain: seq<string>, keys: set<string>,
      outcomes: seq<Option<Response>>, i: nat): seq<LogRow>
    requires i <= |chain| == |outcomes|
  {
    RowsOf(day, task, chain, keys, outcomes, if i < |chain| then i + 1 else i)
  }

  /** What a ledger gains from a walk: the winner's cost and one success, or nothing. */
  lemma WalkAddsUp(before: seq<LogRow>, day: nat, task: string, chain: seq<string>, keys: set<string>,
                   outcomes: seq<Option<Response>>, i: nat)
    requires i <= |chain| == |outcomes|
    requires FirstSuccess(chain, keys, outcomes, i)
    ensures var after := before + WalkRows(day, task, chain, keys, outcomes, i);
      && LoggedCost(after) == LoggedCost(before) + (if i < |chain| then outcomes[i].value.cost else 0)
      && OkRows(after) == OkRows(before) + if i < |chain| then 1 else 0
  {
    if i < |chain| {
      WinnerIsTheWholeCost(day, task, chain, keys, outcomes, i);
    } else {
      FailuresCostNothing(day, task, chain, keys, outcomes, i);
    }
    LoggedCostAppend(before, WalkRows(day, task, chain, keys, outcomes, i));
  }

  /** One more entry adds its row, if it was dispatched. */
  lemma OneMoreEntry(before: seq<LogRow>, day: nat, task: string, chain: seq<string>, keys: set<string>,
                     outcomes: seq<Option<Response>>, n: nat)
    requires n < |chain| == |outcomes|
    ensures before + RowsOf(day, task, chain, keys, outcomes, n + 1) ==
              before + RowsOf(day, task, chain, keys, outcomes, n) + EntryRows(day, task, chain[n], keys, outcomes[n])
  {
  }

  // ---------- Whose rows they are ----------

  /** How many of the first `n` entries are dispatched when a walk gets that far. */
  function UsableCount(chain: seq<string>, keys: set<string>, n: nat): nat
    requires n <= |chain|
  {
    if n == 0 then 0 else UsableCount(chain, keys, n - 1) + if Usable(chain[n - 1], keys) then 1 else 0
  }

  /** The row says when and for what the entry was tried, whom it named, and what came back. */
  predicate RowTells(row: LogRow, day: nat, task: string, entry: string, keys: set<string>, outcome: Option<Response>) {
    && row.day == day && row.task == task
    && Names(entry, row.provider, row.model) && row.provider in keys
    && match outcome
       case Some(response) => row.ok && row.cost == response.cost
       case None => !row.ok && row.cost == 0
  }

  lemma {:induction false} OneRowPerUsable(day: nat, task: string, chain: seq<string>, keys: set<string>,
                                           outcomes: seq<Option<Response>>, n: nat)
    requires n <= |chain| == |outcomes|
    ensures |RowsOf(day, task, chain, keys, outcomes, n)| == UsableCount(chain, keys, n)
  {
    if n > 0 { OneRowPerUsable(day, task, chain, keys, outcomes, n - 1); }
  }

  /** The rows of a walk are one for each usable entry that it got to, in the chain's order,
      and each tells of its own entry. */
  lemma {:induction false} RowsTellOfTheirEntries(day: nat, task: string, chain: seq<string>, keys: set<string>,
                                                  outcomes: seq<Option<Response>>, n: nat, j: nat)
    requires j < n <= |chain| == |outcomes| && Usable(chain[j], keys)
    ensures var rows, x := RowsOf(day, task, chain, keys, outcomes, n), UsableCount(chain, keys, j);
      x < |rows| == UsableCount(chain, keys, n) && RowTells(rows[x], day, task, chain[j], keys, outcomes[j])
    decreases n
  {
    OneRowPerUsable(day, task, chain, keys, outcomes, n);
    OneRowPerUsable(day, task, chain, keys, outcomes, n - 1);
    if j < n - 1 {
      RowsTellOfTheirEntries(day, task, chain, keys, outcomes, n - 1, j);
    } else {
      var pm := SplitProviderModel(chain[j]).value;
      SplitIsJoinInverse(chain[j], pm.0, pm.1);
    }
  }

  lemma {:induction false} SpentOnAppend(a: seq<LogRow>, b: seq<LogRow>, day: nat)
    ensures SpentOn(a + b, day) == SpentOn(a, day) + SpentOn(b, day)
    decreases |b|
  {
    if b == [] {
      assert a + b == a;
    } else {
      assert (a + b)[..|a + b| - 1] == a + b[..|b| - 1];
      SpentOnAppend(a, b[..|b| - 1], day);
    }
  }

  /** What a walk logs, it logs on its own day. */
  lemma {:induction false} RowsCountOnTheirDay(day: nat, task: string, chain: seq<string>, keys: set<string>,
                                               outcomes: seq<Option<Response>>, n: nat, other: nat)
    requires n <= |chain| == |outcomes|
    ensures var rows := RowsOf(day, task, chain, keys, outcomes, n);
      SpentOn(rows, other) == if other == day then LoggedCost(rows) else 0
  {
    if n > 0 {
      var rows := RowsOf(day, task, chain, keys, outcomes, n - 1);
      var more := EntryRows(day, task, chain[n - 1], keys, outcomes[n - 1]);
      RowsCountOnTheirDay(day, task, chain, keys, outcomes, n - 1, other);
      SpentOnAppend(rows, more, other);
      LoggedCostAppend(rows, more);
      assert more == [] || more[..|more| - 1] == [];
    }
  }

  /** So a day's spend grows by the cost of the answer, on the day of the walk and on no other. */
  lemma WalkSpendsToday(before: seq<LogRow>, day: nat, task: string, chain: seq<string>, keys: set<string>,
                        outcomes: seq<Option<Response>>, i: nat, other: nat)
    requires i <= |chain| == |outcomes|
    requires FirstSuccess(chain, keys, outcomes, i)
    ensures SpentOn(before + WalkRows(day, task, chain, keys, outcomes, i), other) ==
              SpentOn(before, other) + if other == day && i < |chain| then outcomes[i].value.cost else 0
  {
    SpentOnAppend(before, WalkRows(day, task, chain, keys, outcomes, i), other);
    RowsCountOnTheirDay(day, task, chain, keys, outcomes, if i < |chain| then i + 1 else i, other);
    WalkAddsUp([], day, task, chain, keys, outcomes, i);
    assert [] + WalkRows(day, task, chain, keys, outcomes, i) == WalkRows(day, task, chain, keys, outcomes, i);
  }

  // ---------- Executors that share one ledger ----------

  /** One call's walk: its chain, its outcomes, and where its first success is. */
  datatype Walk = Walk(day: nat, task: string, chain: seq<string>, outcomes: seq<Option<Response>>, end: nat)

  predicate WalkOk(w: Walk, keys: set<string>) {
    w.end <= |w.chain| == |w.outcomes| && FirstSuccess(w.chain, keys, w.outcomes, w.end)
  }

  /** What the call hands to its client, if anything. */
  function Answered(w: Walk, keys: set<string>): Option<Response>
    requires WalkOk(w, keys)
  {
    if w.end < |w.chain| then w.outcomes[w.end] else None
  }

  function AnsweredCost(walks: seq<Walk>, keys: set<string>): nat
    requires forall i | 0 <= i < |walks| :: WalkOk(walks[i], keys)
  {
    if walks == [] then 0
    else
      var a := Answered(walks[|walks| - 1], keys);
      AnsweredCost(walks[..|walks| - 1], keys) + if a.Some? then a.value.cost else 0
  }

  function AnsweredCount(walks: seq<Walk>, keys: set<string>): nat
    requires forall i | 0 <= i < |walks| :: WalkOk(walks[i], keys)
  {
    if walks == [] then 0
    else AnsweredCount(walks[..|walks| - 1], keys) + if Answered(walks[|walks| - 1], keys).Some? then 1 else 0
  }

  /** The ledger is some interleaving of the parts, each in its own order. */
  ghost predicate Interleaves(ledger: seq<LogRow>, parts: seq<seq<LogRow>>)
    decreases |ledger|
  {
    if ledger == [] then forall i | 0 <= i < |parts| :: parts[i] == []
    else
      exists i :: TakesLast(ledger, parts, i) &&
                  Interleaves(ledger[..|ledger| - 1], parts[i := parts[i][..|parts[i]| - 1]])
  }

  /** The ledger's last row is part `i`'s last. */
  predicate TakesLast(ledger: seq<LogRow>, parts: seq<seq<LogRow>>, i: int) {
    ledger != [] && 0 <= i < |parts| && parts[i] != [] && parts[i][|parts[i]| - 1] == ledger[|ledger| - 1]
  }

  function CostOfParts(parts: seq<seq<LogRow>>): nat {
    if parts == [] then 0 else CostOfParts(parts[..|parts| - 1]) + LoggedCost(parts[|parts| - 1])
  }

  function OkOfParts(parts: seq<seq<LogRow>>): nat {
    if parts == [] then 0 else OkOfParts(parts[..|parts| - 1]) + OkRows(parts[|parts| - 1])
  }

  lemma {:induction false} EmptyParts(parts: seq<seq<LogRow>>)
    requires forall i | 0 <= i < |parts| :: parts[i] == []
    ensures CostOfParts(parts) == 0 && OkOfParts(parts) == 0
    decreases |parts|
  {
    if parts != [] { EmptyParts(parts[..|parts| - 1]); }
  }

  lemma {:induction false} PartUpdate(parts: seq<seq<LogRow>>, i: nat, part: seq<LogRow>)
    requires i < |parts|
    ensures CostOfParts(parts[i := part]) == CostOfParts(parts) - LoggedCost(parts[i]) + LoggedCost(part)
    ensures OkOfParts(parts[i := part]) == OkOfParts(parts) - OkRows(parts[i]) + OkRows(part)
    decreases |parts|
  {
    var n := |parts| - 1;
    if i < n {
      PartUpdate(parts[..n], i, part);
      assert parts[i := part][..n] == parts[..n][i := part];
    } else {
      assert parts[i := part][..n] == parts[..n];
    }
  }

  /** However the parts are interleaved, cost and successes add up. */
  lemma {:induction false} InterleavingAddsUp(ledger: seq<LogRow>, parts: seq<seq<LogRow>>)
    requires Interleaves(ledger, parts)
    ensures LoggedCost(ledger) == CostOfParts(parts) && OkRows(ledger) == OkOfParts(parts)
    decreases |ledger|
  {
    if ledger == [] {
      EmptyParts(parts);
    } else {
      var i :| TakesLast(ledger, parts, i) &&
               Interleaves(ledger[..|ledger| - 1], parts[i := parts[i][..|parts[i]| - 1]]);
      InterleavingAddsUp(ledger[..|ledger| - 1], parts[i := parts[i][..|parts[i]| - 1]]);
      PartUpdate(parts, i, parts[i][..|parts[i]| - 1]);
    }
  }

  function RowsOfWalk(w: Walk, keys: set<string>): seq<LogRow>
    requires WalkOk(w, keys)
  {
    WalkRows(w.day, w.task, w.chain, keys, w.outcomes, w.end)
  }

  lemma {:induction false} WalksCostTheirAnswers(walks: seq<Walk>, parts: seq<seq<LogRow>>, keys: set<string>)
    requires |walks| == |parts| && forall i | 0 <= i < |walks| :: WalkOk(walks[i], keys)
    requires forall i | 0 <= i < |walks| :: parts[i] == RowsOfWalk(walks[i], keys)
    ensures CostOfParts(parts) == AnsweredCost(walks, keys) && OkOfParts(parts) == AnsweredCount(walks, keys)
    decreases |walks|
  {
    if walks != [] {
      var n := |walks| - 1;
      var w := walks[n];
      WalksCostTheirAnswers(walks[..n], parts[..n], keys);
      WalkAddsUp([], w.day, w.task, w.chain, keys, w.outcomes, w.end);
      assert [] + RowsOfWalk(w, keys) == parts[n];
    }
  }

  /** Any number of executors writing to one ledger, in any interleaving of their rows: the
      cost logged is the cost of the answers given, with one success logged for each. */
  lemma InterleavedWalksAddUp(ledger: seq<LogRow>, walks: seq<Walk>, parts: seq<seq<LogRow>>, keys: set<string>)
    requires |walks| == |parts| && forall i | 0 <= i < |walks| :: WalkOk(walks[i], keys)
    requires forall i | 0 <= i < |walks| :: parts[i] == RowsOfWalk(walks[i], keys)
    requires Interleaves(ledger, parts)
    ensures LoggedCost(ledger) == AnsweredCost(walks, keys) && OkRows(ledger) == AnsweredCount(walks, keys)
  {
    InterleavingAddsUp(ledger, parts);
    WalksCostTheirAnswers(walks, parts, keys);
  }

  // ---------- The cap check as the shared machine makes it ----------

  /** One worker with one call slot, on a ledger with this total for the day. */
  function SoleWorker(today: nat, now: nat, cache: map<nat, CostCap.Entry>, call: CostCap.Call,
      total: nat): CostCap.State {
    CostCap.State(now, today, map[today := total], [CostCap.Worker(cache, [call])], [0])
  }

  /** The spend that a check goes by, and the cache it leaves. */
  function Checked(today: nat, now: nat, cache: map<nat, CostCap.Entry>, total: nat): (nat, map<nat, CostCap.Entry>) {
    if today in cache && now - cache[today].since < CostCap.COST_CACHE_TTL_SECONDS then (cache[today].spent, cache)
    else (total, cache[today := CostCap.Entry(now, total)])
  }

  function CheckEvents(today: nat, now: nat, cache: map<nat, CostCap.Entry>): seq<CostCap.Event> {
    if CostCap.Fresh(CostCap.Worker(cache, []), today, now) then [CostCap.Begin(0, 0)]
    else [CostCap.Begin(0, 0)] + [CostCap.Query(0, 0)] + [CostCap.Store(0, 0)]
  }

  lemma SoleCall(today: nat, now: nat, cache: map<nat, CostCap.Entry>, call: CostCap.Call, total: nat,
      next: CostCap.Call)
    ensures CostCap.WithCall(SoleWorker(today, now, cache, call, total), 0, 0, next) ==
        SoleWorker(today, now, cache, next, total)
  {
    var t := CostCap.WithCall(SoleWorker(today, now, cache, call, total), 0, 0, next);
    assert t.workers[0].calls == [next];
    assert t.workers == [CostCap.Worker(cache, [next])];
  }

  lemma StoreSole(cfg: CostCap.Config, today: nat, now: nat, cache: map<nat, CostCap.Entry>, total: nat)
    ensures var s := SoleWorker(today, now, cache, CostCap.Queried(today, now, total), total);
      && CostCap.Enabled(cfg, s, CostCap.Store(0, 0))
      && CostCap.Apply(cfg, s, CostCap.Store(0, 0)) ==
           SoleWorker(today, now, cache[today := CostCap.Entry(now, total)],
                      if total <= cfg.cap then CostCap.Admitted else CostCap.Idle, total)
  {
    var t := CostCap.Apply(cfg, SoleWorker(today, now, cache, CostCap.Queried(today, now, total), total),
        CostCap.Store(0, 0));
    assert t.workers[0].calls == [if total <= cfg.cap then CostCap.Admitted else CostCap.Idle];
  }

  /** An undisturbed check is a run of the machine: the slot is let through exactly when the
      spend seen is within the cap, and the worker's cache is the one the check leaves. */
  lemma CheckRefinesMachine(cfg: CostCap.Config, today: nat, now: nat, cache: map<nat, CostCap.Entry>, total: nat)
    ensures var s := SoleWorker(today, now, cache, CostCap.Idle, total);
      var (spent, after) := Checked(today, now, cache, total);
      var es := CheckEvents(today, now, cache);
      && CostCap.Reaches(cfg, s, es)
      && CostCap.After(cfg, s, es) ==
           SoleWorker(today, now, after, if spent <= cfg.cap then CostCap.Admitted else CostCap.Idle, total)
  {
    var s := SoleWorker(today, now, cache, CostCap.Idle, total);
    CostCap.Extend(cfg, s, [], CostCap.Begin(0, 0));
    assert [] + [CostCap.Begin(0, 0)] == [CostCap.Begin(0, 0)];
    if CostCap.Fresh(CostCap.Worker(cache, []), today, now) {
      SoleCall(today, now, cache, CostCap.Idle, total, CostCap.Admitted);
    } else {
      SoleCall(today, now, cache, CostCap.Idle, total, CostCap.Missed(today, now));
      SoleCall(today, now, cache, CostCap.Missed(today, now), total, CostCap.Queried(today, now, total));
      CostCap.Extend(cfg, s, [CostCap.Begin(0, 0)], CostCap.Query(0, 0));
      StoreSole(cfg, today, now, cache, total);
      CostCap.Extend(cfg, s, [CostCap.Begin(0, 0)] + [CostCap.Query(0, 0)], CostCap.Store(0, 0));
    }
  }

  class Executor {
    const cap: nat
    var costCache: map<nat, CostCap.Entry>
    var ledger: seq<LogRow>
    ghost var billed: nat  // cost of every response returned so far

    /** Over any run, the ledger adds up to what callers were given. */
    ghost predicate Valid()
      reads this
    {
      LoggedCost(ledger) == billed
    }

    constructor (cap: nat)
      ensures Valid() && this.cap == cap && ledger == [] && costCache == map[]
    {
      this.cap := cap;
      costCache, ledger, billed := map[], [], 0;
    }

    /** Sum today's rows. */
    method QueryTodaySpend(today: nat) returns (total: nat)
      ensures total == SpentOn(ledger, today)
    {
      total := 0;
      for k := 0 to |ledger|
        invariant total == SpentOn(ledger[..k], today)
      {
        assert ledger[..k + 1][..k] == ledger[..k];
        if ledger[k].day == today {
          total := total + ledger[k].cost;
        }
      }
      assert ledger[..|ledger|] == ledger;
    }

    /** The spend the check goes by: cached for up to a minute, else summed afresh. */
    ghost function SpendSeen(today: nat, now: int): nat
      reads this
    {
      if today in costCache && now - costCache[today].since < CostCap.COST_CACHE_TTL_SECONDS
      then costCache[today].spent else SpentOn(ledger, today)
    }

    /** Today's spend against the cap. The cap itself may still be spent up to. */
    method CheckDailyCostCap(today: nat, now: nat) returns (spent: nat)
      modifies this`costCache
      ensures spent == old(SpendSeen(today, now))
      ensures SpendSeen(today, now) == spent
      ensures costCache == old(costCache)
           || costCache == old(costCache)[today := CostCap.Entry(now, SpentOn(ledger, today))]
      ensures (spent, costCache) == Checked(today, now, old(costCache), SpentOn(ledger, today))
    {
      if today in costCache && now - costCache[today].since < CostCap.COST_CACHE_TTL_SECONDS {
        spent := costCache[today].spent;
      } else {
        spent := QueryTodaySpend(today);
        costCache := costCache[today := CostCap.Entry(now, spent)];
      }
    }

    /** Try one entry: skip it, or dispatch and log it. A success drops the cached spend. */
    method TryEntry(task: string, entry: string, keys: set<string>, outcome: Option<Response>, today: nat)
      returns (won: bool)
      modifies this`ledger, this`costCache, this`billed
      ensures won <==> Succeeds(entry, keys, outcome)
      ensures ledger == old(ledger) + EntryRows(today, task, entry, keys, outcome)
      ensures billed == old(billed) + if won then outcome.value.cost else 0
      ensures costCache == if won then old(costCache) - {today} else old(costCache)
    {
      if !Usable(entry, keys) {
        return false;
      }
      ledger := ledger + [RowFor(today, task, entry, outcome)];
      if outcome.None? {
        return false;
      }
      costCache := costCache - {today};
      billed := billed + outcome.value.cost;
      return true;
    }

    /** Try the entries in order, logging each dispatch; `n` is the winner's position, or
        the length when every entry failed or was skipped. */
    method WalkChain(task: string, chain: seq<string>, keys: set<string>, outcomes: seq<Option<Response>>, today: nat)
      returns (n: nat)
      requires |chain| == |outcomes|
      modifies this`ledger, this`costCache, this`billed
      ensures n <= |chain| && FirstSuccess(chain, keys, outcomes, n)
      ensures ledger == old(ledger) + WalkRows(today, task, chain, keys, outcomes, n)
      ensures billed == old(billed) + if n < |chain| then outcomes[n].value.cost else 0
      ensures costCache == if n < |chain| then old(costCache) - {today} else old(costCache)
    {
      n := 0;
      while n < |chain|
        invariant n <= |chain|
        invariant forall j | 0 <= j < n :: !Succeeds(chain[j], keys, outcomes[j])
        invariant ledger == old(ledger) + RowsOf(today, task, chain, keys, outcomes, n)
        invariant billed == old(billed) && costCache == old(costCache)
      {
        OneMoreEntry(old(ledger), today, task, chain, keys, outcomes, n);
        var won := TryEntry(task, chain[n], keys, outcomes[n], today);
        if won {
          return;
        }
        n := n + 1;
      }
    }

    /** The chain a call walks: the admin's single override, or the route of `task`. */
    function ChainFor(task: string, routes: map<string, seq<string>>, forced: Option<string>): Option<seq<string>> {
      if forced.Some? then Some([forced.value])
      else if task in routes then Some(routes[task])
      else None
    }

    /** Check the cap, walk the chain, and return the first success.

        The answer is that of the first well-formed, configured entry whose dispatch
        succeeds, of the forced entry alone where there is one; the ledger gains one row per
        dispatch and at most one `ok` row; today's spend grows by the cost of the answer and
        no other day's does; and every later check of the day sees it. */
    method Execute(task: string, routes: map<string, seq<string>>, forced: Option<string>, keys: set<string>,
                   outcomes: seq<Option<Response>>, today: nat, now: nat)
      returns (r: Result)
      requires Valid()
      requires var chain := ChainFor(task, routes, forced); chain.Some? ==> |outcomes| == |chain.value|
      modifies this`ledger, this`costCache, this`billed
      ensures Valid()
      ensures r.CapReached? <==> old(SpendSeen(today, now)) > cap
      ensures r.CapReached? ==> r.spent == old(SpendSeen(today, now))
      ensures r.NoRoute? <==> old(SpendSeen(today, now)) <= cap && forced.None? && task !in routes
      ensures r.CapReached? || r.NoRoute? ==> ledger == old(ledger)
      ensures r.Answer? ==> var chain := ChainFor(task, routes, forced).value;
                exists i | 0 <= i < |chain| && FirstSuccess(chain, keys, outcomes, i) ::
                  && r.response == outcomes[i].value
                  && ledger == old(ledger) + WalkRows(today, task, chain, keys, outcomes, i)
      ensures r.AllFailed? ==> var chain := ChainFor(task, routes, forced).value;
                && FirstSuccess(chain, keys, outcomes, |chain|)
                && ledger == old(ledger) + WalkRows(today, task, chain, keys, outcomes, |chain|)
      ensures OkRows(ledger) == OkRows(old(ledger)) + if r.Answer? then 1 else 0
      ensures billed == old(billed) + if r.Answer? then r.response.cost else 0
      ensures forced.Some? && r.Answer? ==> Succeeds(forced.value, keys, outcomes[0]) && r.response == outcomes[0].value
      ensures forced.None? && r.Answer? ==> task in routes && exists i | 0 <= i < |routes[task]| ::
                FirstSuccess(routes[task], keys, outcomes, i) && r.response == outcomes[i].value
      ensures forall day: nat :: SpentOn(ledger, day) ==
                old(SpentOn(ledger, day)) + if r.Answer? && day == today then r.response.cost else 0
      ensures costCache == if r.Answer? then old(costCache) - {today}
                           else Checked(today, now, old(costCache), old(SpentOn(ledger, today))).1
      ensures r.Answer? ==> forall later: int :: SpendSeen(today, later) == SpentOn(ledger, today)
    {
      var spent := CheckDailyCostCap(today, now);
      if spent > cap {
        return CapReached(spent);
      }
      var chain := ChainFor(task, routes, forced);
      if chain.None? {
        return NoRoute;
      }
      var n := WalkChain(task, chain.value, keys, outcomes, today);
      WalkAddsUp(old(ledger), today, task, chain.value, keys, outcomes, n);
      forall day: nat
        ensures SpentOn(ledger, day) ==
                  old(SpentOn(ledger, day)) + if n < |chain.value| && day == today then outcomes[n].value.cost else 0
      {
        WalkSpendsToday(old(ledger), today, task, chain.value, keys, outcomes, n, day);
      }
      return if n < |chain.value| then Answer(outcomes[n].value) else AllFailed;
    }
  }
}
