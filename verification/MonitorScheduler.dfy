/**
 The scheduler loop: a cached monitor set, reloaded every five minutes, polled at each
 monitor's own interval. Times are the loop's monotonic seconds.

 A poll goes by the cursor of the cached snapshot, while its result is written to the
 monitor's row. What has to hold is that the snapshot is newer than the last poll.
 */
module MonitorScheduler {
  import opened Wrappers
  import opened MonitorCursor

  type MonitorId = nat

  const RELOAD_SECONDS := 300
  const SLEEP_SECONDS := 10
  const MIN_INTERVAL_MINUTES: nat := 5

  /** A row of the monitors table. The API fixes the interval at creation, 5 minutes or more. */
  datatype Row = Row(cursor: Option<VideoId>, intervalMinutes: nat, paused: bool)

  datatype Snapshot = Snapshot(id: MonitorId, cursor: Option<VideoId>, intervalMinutes: nat)

  /** One poll: when it ran, when its snapshot was loaded, when the monitor was polled
      before, and the two cursors. */
  datatype Record = Record(
    id: MonitorId,
    intervalMinutes: nat,
    at: int,
    loadedAt: int,
    previous: Option<int>,
    usedCursor: Option<VideoId>,
    rowCursor: Option<Option<VideoId>>)  // None when the row was deleted meanwhile

  /** The snapshot is no newer than the monitor's previous poll. */
  predicate Outdated(r: Record) {
    r.previous.Some? && r.loadedAt <= r.previous.value
  }

  /** The one schedule that makes a snapshot outdated: a five-minute monitor, polled right
      after a reload and again exactly 300 seconds later. */
  predicate OnTheDot(r: Record) {
    && r.intervalMinutes == MIN_INTERVAL_MINUTES
    && r.previous == Some(r.loadedAt)
    && r.at == r.loadedAt + RELOAD_SECONDS
  }

  predicate RecordOk(r: Record) {
    && (Outdated(r) <==> OnTheDot(r))
    && (!Outdated(r) && r.rowCursor.Some? ==> r.usedCursor == r.rowCursor.value)
    && (r.previous.Some? ==> r.at >= r.previous.value + 60 * r.intervalMinutes)
  }

  /** A row after the dispatches of one poll: the cursor is on the last of them. */
  function After(r: Row, dispatched: seq<VideoId>): Row {
    r.(cursor := MoveCursor(r.cursor, dispatched))
  }

  // ---------- What the rounds deliver ----------

  function Listed<T>(t: map<MonitorId, seq<T>>, m: MonitorId): seq<T> {
    if m in t then t[m] else []
  }

  /** The rows and records, and for every monitor what was dispatched for it and the feeds
      and outcomes its polls met. */
  datatype Deliveries = Deliveries(
    table: map<MonitorId, Row>,
    history: set<Record>,
    delivered: map<MonitorId, seq<VideoId>>,
    polls: map<MonitorId, seq<Poll>>)
  {
    function DeliveredTo(m: MonitorId): seq<VideoId> {
      Listed(delivered, m)
    }

    function PollsOf(m: MonitorId): seq<Poll> {
      Listed(polls, m)
    }

    /** No poll of the monitor went by an outdated snapshot. */
    predicate NeverOutdated(m: MonitorId) {
      forall r | r in history && r.id == m :: !Outdated(r)
    }

    /** The monitor's cursor and deliveries are those of its polls, each by the cursor that
        the one before had left. */
    ghost predicate JoinedFor(m: MonitorId)
      requires m in table
    {
      Track(table[m].cursor, DeliveredTo(m)) == RunPolls(PollsOf(m))
    }

    ghost predicate Joined() {
      forall m | m in table && NeverOutdated(m) :: JoinedFor(m)
    }

    function AfterPoll(s: Snapshot, r: Record, feed: seq<Option<VideoId>>, ok: VideoId -> bool): Deliveries {
      var d := Dispatched(s.cursor, feed, ok);
      Deliveries(if s.id in table then table[s.id := After(table[s.id], d)] else table,
                 history + {r},
                 delivered[s.id := DeliveredTo(s.id) + d],
                 polls[s.id := PollsOf(s.id) + [Poll(feed, 0, 0, ok)]])
    }
  }

  // ---------- What a round does to one monitor ----------

  function Look<T>(t: map<MonitorId, T>, m: MonitorId): Option<T> {
    if m in t then Some(t[m]) else None
  }

  /** Everything that is held about one monitor. */
  datatype Desk = Desk(
    row: Option<Row>,
    nextRun: Option<int>,
    lastPoll: Option<int>,
    delivered: seq<VideoId>,
    polls: seq<Poll>)

  /** The part of the scheduler's state that a round may change. */
  datatype Books = Books(outcome: Deliveries, nextRuns: map<MonitorId, int>, lastPoll: map<MonitorId, int>)
  {
    function Of(m: MonitorId): Desk {
      Desk(Look(outcome.table, m), Look(nextRuns, m), Look(lastPoll, m), outcome.DeliveredTo(m), outcome.PollsOf(m))
    }
  }

  /** What a poll of snapshot `s` at `now` is remembered as, the cache being of `loadedAt`. */
  function RecordIn(b: Books, s: Snapshot, now: int, loadedAt: int): Record {
    Record(s.id, s.intervalMinutes, now, loadedAt, Look(b.lastPoll, s.id), s.cursor,
           if s.id in b.outcome.table then Some(b.outcome.table[s.id].cursor) else None)
  }

  predicate IsDue(nextRun: Option<int>, now: int) {
    nextRun.None? || nextRun.value <= now
  }

  /** Nothing that concerns monitor `m` changed from `b` to `c`, and nothing was forgotten. */
  ghost predicate Untouched(m: MonitorId, b: Books, c: Books) {
    c.Of(m) == b.Of(m) && b.outcome.history <= c.outcome.history
  }

  /** A desk after a poll that met this feed and these dispatch outcomes: the row is moved to
      the last dispatch, the next run is one interval away, and the deliveries have grown. */
  predicate PolledFrom(d: Desk, e: Desk, s: Snapshot, now: int, feed: seq<Option<VideoId>>, ok: VideoId -> bool) {
    var news := Dispatched(s.cursor, feed, ok);
    && (e.row.None? <==> d.row.None?)
    && (d.row.Some? ==> e.row == Some(After(d.row.value, news)))
    && e.nextRun == Some(now + 60 * s.intervalMinutes)
    && e.lastPoll == Some(now)
    && e.delivered == d.delivered + news
  }

  /** Between `b` and `c`, snapshot `s` was polled by this feed if it was due at `now`, and
      the poll recorded; otherwise nothing happened to its monitor. */
  ghost predicate Handled(s: Snapshot, now: int, loadedAt: int, b: Books, c: Books,
                          feed: seq<Option<VideoId>>, ok: VideoId -> bool)
  {
    if IsDue(b.Of(s.id).nextRun, now) then
      && RecordIn(b, s, now, loadedAt) in c.outcome.history
      && b.outcome.history <= c.outcome.history
      && PolledFrom(b.Of(s.id), c.Of(s.id), s, now, feed, ok)
      && c.Of(s.id).polls == b.Of(s.id).polls + [Poll(feed, 0, 0, ok)]
    else
      Untouched(s.id, b, c)
  }

  /** Nothing was forgotten, and nothing changed for any monitor but `n`. */
  ghost predicate OnlyTouches(n: MonitorId, b: Books, c: Books) {
    && b.outcome.history <= c.outcome.history
    && forall m: MonitorId | m != n :: Untouched(m, b, c)
  }

  lemma HandledLater(s: Snapshot, now: int, loadedAt: int, b: Books, c: Books, d: Books,
                     feed: seq<Option<VideoId>>, ok: VideoId -> bool)
    requires Untouched(s.id, b, c) && Handled(s, now, loadedAt, c, d, feed, ok)
    ensures Handled(s, now, loadedAt, b, d, feed, ok)
  {
    assert RecordIn(b, s, now, loadedAt) == RecordIn(c, s, now, loadedAt) by {
      assert b.Of(s.id).row == c.Of(s.id).row && b.Of(s.id).lastPoll == c.Of(s.id).lastPoll;
    }
  }

  lemma StaysHandled(s: Snapshot, now: int, loadedAt: int, b: Books, c: Books, d: Books,
                     feed: seq<Option<VideoId>>, ok: VideoId -> bool)
    requires Handled(s, now, loadedAt, b, c, feed, ok) && Untouched(s.id, c, d)
    ensures Handled(s, now, loadedAt, b, d, feed, ok)
  {
  }

  ghost predicate CachedBefore(cache: seq<Snapshot>, i: nat, m: MonitorId) {
    exists j | 0 <= j < |cache| && j < i :: cache[j].id == m
  }

  /** How far a round has come: the first `i` snapshots are handled, and every other monitor,
      cached or not, is untouched. */
  ghost predicate RoundAt(cache: seq<Snapshot>, now: int, loadedAt: int, b: Books, c: Books, i: nat,
                          feeds: MonitorId -> seq<Option<VideoId>>, ok: VideoId -> bool)
  {
    && (forall j | 0 <= j < |cache| && j < i :: Handled(cache[j], now, loadedAt, b, c, feeds(cache[j].id), ok))
    && (forall m: MonitorId | !CachedBefore(cache, i, m) :: Untouched(m, b, c))
    && b.outcome.history <= c.outcome.history
  }

  lemma RoundAdvances(cache: seq<Snapshot>, now: int, loadedAt: int, b: Books, c: Books, d: Books, i: nat,
                      feeds: MonitorId -> seq<Option<VideoId>>, ok: VideoId -> bool)
    requires i < |cache| && forall x, y | 0 <= x < y < |cache| :: cache[x].id != cache[y].id
    requires RoundAt(cache, now, loadedAt, b, c, i, feeds, ok)
    requires Handled(cache[i], now, loadedAt, c, d, feeds(cache[i].id), ok)
    requires OnlyTouches(cache[i].id, c, d)
    ensures RoundAt(cache, now, loadedAt, b, d, i + 1, feeds, ok)
  {
    forall j | 0 <= j <= i
      ensures Handled(cache[j], now, loadedAt, b, d, feeds(cache[j].id), ok)
    {
      if j < i {
        StaysHandled(cache[j], now, loadedAt, b, c, d, feeds(cache[j].id), ok);
      } else {
        assert !CachedBefore(cache, i, cache[i].id);
        HandledLater(cache[j], now, loadedAt, b, c, d, feeds(cache[j].id), ok);
      }
    }
    forall m: MonitorId | !CachedBefore(cache, i + 1, m)
      ensures Untouched(m, b, d)
    {
      assert cache[i].id != m;
      assert !CachedBefore(cache, i, m);
      assert Untouched(m, b, c) && Untouched(m, c, d);
    }
  }

  ghost predicate PolledInto(s: Snapshot, now: int, loadedAt: int, b: Books, c: Books,
                             feed: seq<Option<VideoId>>, ok: VideoId -> bool)
  {
    && c.outcome == b.outcome.AfterPoll(s, RecordIn(b, s, now, loadedAt), feed, ok)
    && c.nextRuns == b.nextRuns[s.id := now + s.intervalMinutes * 60]
    && c.lastPoll == b.lastPoll[s.id := now]
  }

  /** A poll moves its own monitor's desk and no other. */
  lemma PollMovesOneDesk(b: Books, c: Books, s: Snapshot, now: int, loadedAt: int,
                         feed: seq<Option<VideoId>>, ok: VideoId -> bool)
    requires PolledInto(s, now, loadedAt, b, c, feed, ok) && IsDue(b.Of(s.id).nextRun, now)
    ensures Handled(s, now, loadedAt, b, c, feed, ok) && OnlyTouches(s.id, b, c)
  {
    var r := RecordIn(b, s, now, loadedAt);
    assert r in c.outcome.history;
    forall m: MonitorId | m != s.id
      ensures Untouched(m, b, c)
    {
      assert c.Of(m) == b.Of(m);
    }
  }

  /** A reload only gives cached newcomers a first run, at once. */
  ghost predicate Scheduled(cache: seq<Snapshot>, now: int, b: Books, c: Books) {
    && c.outcome == b.outcome && c.lastPoll == b.lastPoll
    && forall m: MonitorId ::
         c.Of(m).nextRun ==
           if b.Of(m).nextRun.None? && CachedBefore(cache, |cache|, m) then Some(now) else b.Of(m).nextRun
  }

  /** So a round that reloads first does to the old books what it does to the reloaded ones. */
  lemma RoundFromReload(cache: seq<Snapshot>, now: int, loadedAt: int, a: Books, b: Books, c: Books,
                        feeds: MonitorId -> seq<Option<VideoId>>, ok: VideoId -> bool)
    requires Scheduled(cache, now, a, b) && RoundAt(cache, now, loadedAt, b, c, |cache|, feeds, ok)
    ensures RoundAt(cache, now, loadedAt, a, c, |cache|, feeds, ok)
  {
    forall j | 0 <= j < |cache|
      ensures Handled(cache[j], now, loadedAt, a, c, feeds(cache[j].id), ok)
    {
      HandledFromReload(cache[j], now, loadedAt, a, b, c, feeds(cache[j].id), ok);
    }
    forall m: MonitorId | !CachedBefore(cache, |cache|, m)
      ensures Untouched(m, a, c)
    {
      assert b.Of(m) == a.Of(m) by {
        assert b.Of(m).nextRun == a.Of(m).nextRun;
      }
    }
  }

  lemma HandledFromReload(s: Snapshot, now: int, loadedAt: int, a: Books, b: Books, c: Books,
                          feed: seq<Option<VideoId>>, ok: VideoId -> bool)
    requires b.outcome == a.outcome && b.lastPoll == a.lastPoll
    requires b.Of(s.id).nextRun == a.Of(s.id).nextRun || (a.Of(s.id).nextRun.None? && b.Of(s.id).nextRun == Some(now))
    requires Handled(s, now, loadedAt, b, c, feed, ok)
    ensures Handled(s, now, loadedAt, a, c, feed, ok)
  {
  }

  lemma OneMorePoll(polls: seq<Poll>, p: Poll)
    ensures RunPolls(polls + [p]) == Step(RunPolls(polls), p)
  {
    assert (polls + [p])[..|polls|] == polls;
  }

  /** A poll by a fresh snapshot is a step of the cursor protocol; one by an outdated snapshot
      takes its monitor out of the claim. */
  lemma PollKeepsJoined(b: Deliveries, s: Snapshot, r: Record, feed: seq<Option<VideoId>>, ok: VideoId -> bool)
    requires b.Joined() && RecordOk(r) && r.id == s.id && r.usedCursor == s.cursor
    requires r.rowCursor == if s.id in b.table then Some(b.table[s.id].cursor) else None
    ensures b.AfterPoll(s, r, feed, ok).Joined()
  {
    var c := b.AfterPoll(s, r, feed, ok);
    forall m | m in c.table && c.NeverOutdated(m)
      ensures c.JoinedFor(m)
    {
      assert forall x | x in b.history :: x in c.history;
      assert b.NeverOutdated(m) && b.JoinedFor(m);
      if m == s.id {
        assert r in c.history;
        OneMorePoll(b.PollsOf(m), Poll(feed, 0, 0, ok));
      }
    }
  }

  /** Rows may come without polls, go, or change anything but their cursor. */
  lemma TableChangeKeepsJoined(b: Deliveries, c: Deliveries)
    requires b.Joined() && c == b.(table := c.table)
    requires forall m | m in c.table ::
               if m in b.table then c.table[m].cursor == b.table[m].cursor
               else c.table[m].cursor == None && m !in b.delivered && m !in b.polls
    ensures c.Joined()
  {
    forall m | m in c.table && c.NeverOutdated(m)
      ensures c.JoinedFor(m)
    {
      if m in b.table { assert b.NeverOutdated(m) && b.JoinedFor(m); }
    }
  }

  /** The same feeds and outcomes, with the parts of the history that the feeds show. */
  ghost predicate SameFeeds(a: seq<Poll>, b: seq<Poll>) {
    |a| == |b| && forall i | 0 <= i < |a| :: a[i].feed == b[i].feed && a[i].ok == b[i].ok
  }

  lemma {:induction false} SameFeedsSameRun(a: seq<Poll>, b: seq<Poll>)
    requires SameFeeds(a, b)
    ensures RunPolls(a) == RunPolls(b)
    decreases |a|
  {
    if a != [] {
      SameFeedsSameRun(a[..|a| - 1], b[..|b| - 1]);
    }
  }

  class Scheduler {
    var table: map<MonitorId, Row>
    var cache: seq<Snapshot>
    var nextRuns: map<MonitorId, int>
    var lastReload: int
    ghost var clock: int
    ghost var lastPoll: map<MonitorId, int>
    ghost var intervals: map<MonitorId, nat>  // of every monitor ever created
    ghost var history: set<Record>
    ghost var delivered: map<MonitorId, seq<VideoId>>
    ghost var polls: map<MonitorId, seq<Poll>>

    ghost predicate Valid()
      reads this
    {
      && 0 <= lastReload <= clock
      && Consistent()
      && InStep()
      && PollsUpTo(clock)
    }

    ghost function Outcome(): Deliveries
      reads `table, `history, `delivered, `polls
    {
      Deliveries(table, history, delivered, polls)
    }

    /** The cursors and deliveries agree with the polls that were made. */
    ghost predicate InStep()
      reads `table, `history, `delivered, `polls, `intervals
    {
      && Outcome().Joined() && delivered.Keys <= intervals.Keys && polls.Keys <= intervals.Keys
      && forall r | r in history :: r.id in intervals && r.intervalMinutes == intervals[r.id]
    }

    /** What also holds between two polls of the same round. */
    ghost predicate Consistent()
      reads `table, `intervals, `cache, `lastPoll, `nextRuns, `history, `lastReload
    {
      && table.Keys <= intervals.Keys
      && (forall m | m in intervals :: intervals[m] >= MIN_INTERVAL_MINUTES)
      && (forall m | m in table :: table[m].intervalMinutes == intervals[m])
      && (forall i, j | 0 <= i < j < |cache| :: cache[i].id != cache[j].id)
      && (forall i | 0 <= i < |cache| :: SnapshotOk(cache[i]))
      && (forall m | m in lastPoll :: m in nextRuns && m in intervals && nextRuns[m] == lastPoll[m] + 60 * intervals[m])
      && (forall r | r in history :: RecordOk(r))
    }

    /** A cached snapshot agrees with its row, unless the monitor was polled since the load. */
    ghost predicate SnapshotOk(s: Snapshot)
      reads `table, `intervals, `lastPoll, `lastReload
    {
      && s.id in intervals && s.intervalMinutes == intervals[s.id]
      && (s.id in table ==> s.cursor == table[s.id].cursor || (s.id in lastPoll && lastPoll[s.id] >= lastReload))
    }

    constructor ()
      ensures Valid() && history == {} && table == map[] && intervals == map[] && nextRuns == map[]
      ensures clock == 0 && lastReload == 0 && cache == []
    {
      table, cache, nextRuns, lastReload := map[], [], map[], 0;
      clock, lastPoll, intervals, history, delivered, polls := 0, map[], map[], {}, map[], map[];
    }

    /** The API creates a monitor under a fresh id. */
    method Create(m: MonitorId, intervalMinutes: nat)
      requires Valid() && m !in intervals && intervalMinutes >= MIN_INTERVAL_MINUTES
      modifies this`table, this`intervals
      ensures Valid() && table == old(table)[m := Row(None, intervalMinutes, false)]
    {
      ghost var before := Outcome();
      table := table[m := Row(None, intervalMinutes, false)];
      intervals := intervals[m := intervalMinutes];
      forall i | 0 <= i < |cache|
        ensures SnapshotOk(cache[i])
      {
        assert old(SnapshotOk(cache[i]));
      }
      TableChangeKeepsJoined(before, Outcome());
    }

    /** Raises when there is no such monitor. */
    method SetPaused(m: MonitorId, paused: bool) returns (found: bool)
      requires Valid()
      modifies this`table
      ensures Valid() && (found <==> m in old(table))
      ensures table == if found then old(table)[m := old(table)[m].(paused := paused)] else old(table)
    {
      if m !in table {
        return false;
      }
      ghost var before := Outcome();
      table := table[m := table[m].(paused := paused)];
      TableChangeKeepsJoined(before, Outcome());
      return true;
    }

    /** Raises when there is no such monitor. */
    method Delete(m: MonitorId) returns (found: bool)
      requires Valid()
      modifies this`table
      ensures Valid() && (found <==> m in old(table))
      ensures table == old(table) - {m}
    {
      if m !in table {
        return false;
      }
      ghost var before := Outcome();
      table := table - {m};
      TableChangeKeepsJoined(before, Outcome());
      return true;
    }

    function SnapshotOf(m: MonitorId): Snapshot
      requires m in table
      reads `table
    {
      Snapshot(m, table[m].cursor, table[m].intervalMinutes)
    }

    /** Load the unpaused monitors. */
    method ListUnpaused() returns (snapshots: seq<Snapshot>)
      ensures forall i, j | 0 <= i < j < |snapshots| :: snapshots[i].id != snapshots[j].id
      ensures forall i | 0 <= i < |snapshots| ::
                && snapshots[i].id in table && !table[snapshots[i].id].paused
                && snapshots[i] == SnapshotOf(snapshots[i].id)
      ensures forall m | m in table && !table[m].paused :: SnapshotOf(m) in snapshots
    {
      snapshots := [];
      var todo := table.Keys;
      while todo != {}
        invariant todo <= table.Keys
        invariant forall i, j | 0 <= i < j < |snapshots| :: snapshots[i].id != snapshots[j].id
        invariant forall i | 0 <= i < |snapshots| ::
                    && snapshots[i].id in table.Keys - todo && !table[snapshots[i].id].paused
                    && snapshots[i] == SnapshotOf(snapshots[i].id)
        invariant forall m | m in table.Keys - todo && !table[m].paused :: SnapshotOf(m) in snapshots
        decreases todo
      {
        var m :| m in todo;
        todo := todo - {m};
        if !table[m].paused {
          snapshots := snapshots + [SnapshotOf(m)];
        }
      }
    }

    /** Replace the cached set, and give newcomers an immediate first run. */
    method Reload(now: int)
      requires Valid() && clock < now
      modifies this`cache, this`nextRuns, this`lastReload
      ensures Consistent() && InStep() && lastReload == now
      ensures forall m | m in table && !table[m].paused :: SnapshotOf(m) in cache
      ensures forall s | s in cache :: s.id in table && !table[s.id].paused
      ensures Scheduled(cache, now, old(BooksNow()), BooksNow())
    {
      LoadCache(now);
      ScheduleNewcomers(now);
    }

    method LoadCache(now: int)
      requires Valid() && clock < now
      modifies this`cache, this`lastReload
      ensures Consistent() && InStep() && lastReload == now
      ensures forall m | m in table && !table[m].paused :: SnapshotOf(m) in cache
      ensures forall s | s in cache :: s.id in table && !table[s.id].paused
    {
      cache := ListUnpaused();
      lastReload := now;
    }

    /** The first run of a monitor not scheduled yet is now. */
    method ScheduleNewcomers(now: int)
      modifies this`nextRuns
      ensures Scheduled(cache, now, old(BooksNow()), BooksNow())
      ensures forall m | m in old(nextRuns) :: m in nextRuns && nextRuns[m] == old(nextRuns)[m]
    {
      ghost var before := nextRuns;
      for i := 0 to |cache|
        invariant forall m: MonitorId ::
                    Look(nextRuns, m) ==
                      if m !in before && CachedBefore(cache, i, m) then Some(now) else Look(before, m)
      {
        ghost var sofar := nextRuns;
        if cache[i].id !in nextRuns {
          nextRuns := nextRuns[cache[i].id := now];
        }
        forall m: MonitorId
          ensures Look(nextRuns, m) ==
                    if m !in before && CachedBefore(cache, i + 1, m) then Some(now) else Look(before, m)
        {
          assert CachedBefore(cache, i + 1, m) <==> CachedBefore(cache, i, m) || cache[i].id == m;
          assert Look(sofar, m) == if m !in before && CachedBefore(cache, i, m) then Some(now) else Look(before, m);
        }
      }
      forall m | m in old(nextRuns)
        ensures m in nextRuns && nextRuns[m] == old(nextRuns)[m]
      {
        assert Look(nextRuns, m) == Look(before, m);
      }
    }

    /** What a poll of snapshot `s` at `now` will be remembered as. */
    ghost function RecordOf(s: Snapshot, now: int): Record
      reads `table, `history, `delivered, `polls, `nextRuns, `lastPoll, `lastReload
    {
      RecordIn(BooksNow(), s, now, lastReload)
    }

    /** A due monitor's snapshot is newer than its last poll, five-minute monitors polled
        on the dot excepted. */
    lemma DueMeansFresh(s: Snapshot, now: int)
      requires SnapshotOk(s) && (s.id in intervals ==> intervals[s.id] >= MIN_INTERVAL_MINUTES)
      requires now - lastReload <= RELOAD_SECONDS
      requires s.id in lastPoll ==> s.id in nextRuns && nextRuns[s.id] == lastPoll[s.id] + 60 * intervals[s.id]
      requires s.id in nextRuns ==> nextRuns[s.id] <= now
      ensures RecordOk(RecordOf(s, now))
    {
    }

    /** Poll one cached monitor: dispatch by the snapshot's cursor, move the row's. */
    method PollSnapshot(s: Snapshot, now: int, feed: seq<Option<VideoId>>, ok: VideoId -> bool)
      requires Consistent() && s in cache && 0 <= now - lastReload <= RELOAD_SECONDS
      requires s.id in nextRuns ==> nextRuns[s.id] <= now
      modifies this`table, this`nextRuns, this`lastPoll, this`history, this`delivered, this`polls
      ensures Consistent()
      ensures Outcome() == old(Outcome()).AfterPoll(s, old(RecordOf(s, now)), feed, ok)
      ensures nextRuns == old(nextRuns)[s.id := now + s.intervalMinutes * 60]
      ensures lastPoll == old(lastPoll)[s.id := now]
      ensures RecordOk(old(RecordOf(s, now))) && s.id in intervals && s.intervalMinutes == intervals[s.id]
    {
      assert SnapshotOk(s);
      DueMeansFresh(s, now);
      history := history + {RecordOf(s, now)};
      var dispatched := DispatchFor(s, feed, ok);
      MoveOn(s, dispatched, now);
    }

    /** The same, with what it means for the deliveries. */
    method PollInStep(s: Snapshot, now: int, feed: seq<Option<VideoId>>, ok: VideoId -> bool)
      requires Consistent() && InStep() && s in cache && 0 <= now - lastReload <= RELOAD_SECONDS
      requires s.id in nextRuns ==> nextRuns[s.id] <= now
      modifies this`table, this`nextRuns, this`lastPoll, this`history, this`delivered, this`polls
      ensures Consistent() && InStep() && lastPoll == old(lastPoll)[s.id := now]
      ensures PolledInto(s, now, lastReload, old(BooksNow()), BooksNow(), feed, ok)
    {
      ghost var before, r := Outcome(), RecordOf(s, now);
      PollSnapshot(s, now, feed, ok);
      PollKeepsJoined(before, s, r, feed, ok);
    }

    /** Dispatch what is new to the snapshot. */
    method DispatchFor(s: Snapshot, feed: seq<Option<VideoId>>, ok: VideoId -> bool) returns (dispatched: seq<VideoId>)
      modifies this`delivered, this`polls
      ensures dispatched == Dispatched(s.cursor, feed, ok)
      ensures delivered == old(delivered)[s.id := Listed(old(delivered), s.id) + dispatched]
      ensures polls == old(polls)[s.id := Listed(old(polls), s.id) + [Poll(feed, 0, 0, ok)]]
    {
      var newIds := CollectNew(feed, s.cursor);
      var newest;
      newest, dispatched := DispatchOldestFirst(newIds, ok);
      delivered := delivered[s.id := Listed(delivered, s.id) + dispatched];
      polls := polls[s.id := Listed(polls, s.id) + [Poll(feed, 0, 0, ok)]];
    }

    /** The table after the dispatches of snapshot `s`: its row's cursor is on the last. */
    function MovedBy(s: Snapshot, dispatched: seq<VideoId>): map<MonitorId, Row>
      reads `table
    {
      if s.id in table then table[s.id := After(table[s.id], dispatched)] else table
    }

    /** `mark_polled`, and the next run. */
    method MoveOn(s: Snapshot, dispatched: seq<VideoId>, now: int)
      requires Consistent() && s in cache && lastReload <= now
      modifies this`table, this`nextRuns, this`lastPoll
      ensures Consistent()
      ensures table == old(MovedBy(s, dispatched))
      ensures nextRuns == old(nextRuns)[s.id := now + s.intervalMinutes * 60]
      ensures lastPoll == old(lastPoll)[s.id := now]
    {
      assert SnapshotOk(s);
      table := MovedBy(s, dispatched);
      nextRuns := nextRuns[s.id := now + s.intervalMinutes * 60];
      lastPoll := lastPoll[s.id := now];
      forall i | 0 <= i < |cache|
        ensures SnapshotOk(cache[i])
      {
        assert old(SnapshotOk(cache[i]));
      }
    }

    predicate Due(m: MonitorId, now: int)
      reads `nextRuns
    {
      m !in nextRuns || nextRuns[m] <= now
    }

    ghost function BooksNow(): Books
      reads `table, `history, `delivered, `polls, `nextRuns, `lastPoll
    {
      Books(Outcome(), nextRuns, lastPoll)
    }

    ghost predicate PollsUpTo(now: int)
      reads `lastPoll
    {
      forall m | m in lastPoll :: lastPoll[m] <= now
    }

    /** Poll a monitor that is due; no other is touched. */
    method PollAndBook(s: Snapshot, now: int, feed: seq<Option<VideoId>>, ok: VideoId -> bool)
      requires Consistent() && InStep() && PollsUpTo(now)
      requires s in cache && Due(s.id, now) && 0 <= now - lastReload <= RELOAD_SECONDS
      modifies this`table, this`nextRuns, this`lastPoll, this`history, this`delivered, this`polls
      ensures Consistent() && InStep() && PollsUpTo(now)
      ensures Handled(s, now, lastReload, old(BooksNow()), BooksNow(), feed, ok)
      ensures OnlyTouches(s.id, old(BooksNow()), BooksNow())
    {
      ghost var before := BooksNow();
      PollInStep(s, now, feed, ok);
      PollMovesOneDesk(before, BooksNow(), s, now, lastReload, feed, ok);
    }

    /** The body of the loop, for one cached monitor. */
    method PollIfDue(i: nat, now: int, feed: seq<Option<VideoId>>, ok: VideoId -> bool)
      requires Consistent() && InStep() && PollsUpTo(now) && i < |cache| && 0 <= now - lastReload <= RELOAD_SECONDS
      modifies this`table, this`nextRuns, this`lastPoll, this`history, this`delivered, this`polls
      ensures Consistent() && InStep() && PollsUpTo(now)
      ensures Handled(cache[i], now, lastReload, old(BooksNow()), BooksNow(), feed, ok)
      ensures OnlyTouches(cache[i].id, old(BooksNow()), BooksNow())
    {
      if Due(cache[i].id, now) {
        PollAndBook(cache[i], now, feed, ok);
      }
    }

    /** One step of the round that started from `b0`. */
    method PollNext(i: nat, now: int, feeds: MonitorId -> seq<Option<VideoId>>, ok: VideoId -> bool, ghost b0: Books)
      requires Consistent() && InStep() && PollsUpTo(now) && i < |cache| && 0 <= now - lastReload <= RELOAD_SECONDS
      requires RoundAt(cache, now, lastReload, b0, BooksNow(), i, feeds, ok)
      modifies this`table, this`nextRuns, this`lastPoll, this`history, this`delivered, this`polls
      ensures Consistent() && InStep() && PollsUpTo(now)
      ensures RoundAt(cache, now, lastReload, b0, BooksNow(), i + 1, feeds, ok)
    {
      ghost var b1 := BooksNow();
      PollIfDue(i, now, feeds(cache[i].id), ok);
      RoundAdvances(cache, now, lastReload, b0, b1, BooksNow(), i, feeds, ok);
    }

    /** Poll every due monitor of the cached set, by the cursors it was loaded with, and leave
        every other monitor alone. */
    method PollDue(now: int, feeds: MonitorId -> seq<Option<VideoId>>, ok: VideoId -> bool)
      requires Consistent() && InStep() && PollsUpTo(now) && 0 <= now - lastReload <= RELOAD_SECONDS
      modifies this`table, this`nextRuns, this`lastPoll, this`history, this`delivered, this`polls
      ensures Consistent() && InStep() && PollsUpTo(now)
      ensures RoundAt(cache, now, lastReload, old(BooksNow()), BooksNow(), |cache|, feeds, ok)
    {
      ghost var b0 := BooksNow();
      for i := 0 to |cache|
        invariant Consistent() && InStep() && PollsUpTo(now)
        invariant RoundAt(cache, now, lastReload, b0, BooksNow(), i, feeds, ok)
      {
        PollNext(i, now, feeds, ok, b0);
      }
    }

    /** One round of the loop: reload if more than five minutes have passed, then poll
        every cached monitor that is due by its own feed, and leave every other alone. */
    method Round(now: int, feeds: MonitorId -> seq<Option<VideoId>>, ok: VideoId -> bool)
      requires Valid() && now >= clock + SLEEP_SECONDS
      modifies this
      ensures Valid() && clock == now
      ensures lastReload == if now - old(lastReload) > RELOAD_SECONDS then now else old(lastReload)
      ensures now - old(lastReload) <= RELOAD_SECONDS ==> cache == old(cache)
      ensures now - old(lastReload) > RELOAD_SECONDS ==>
                && (forall m | m in old(table) && !old(table)[m].paused :: old(SnapshotOf(m)) in cache)
                && (forall s | s in cache :: s.id in old(table) && !old(table)[s.id].paused)
      ensures RoundAt(cache, now, lastReload, old(BooksNow()), BooksNow(), |cache|, feeds, ok)
    {
      if now - lastReload > RELOAD_SECONDS {
        ReloadAndPoll(now, feeds, ok);
      } else {
        PollDue(now, feeds, ok);
      }
      clock := now;
    }

    method ReloadAndPoll(now: int, feeds: MonitorId -> seq<Option<VideoId>>, ok: VideoId -> bool)
      requires Valid() && clock < now
      modifies this`table, this`cache, this`nextRuns, this`lastReload, this`lastPoll, this`history,
          this`delivered, this`polls
      ensures Consistent() && InStep() && PollsUpTo(now) && lastReload == now
      ensures forall m | m in old(table) && !old(table)[m].paused :: old(SnapshotOf(m)) in cache
      ensures forall s | s in cache :: s.id in old(table) && !old(table)[s.id].paused
      ensures RoundAt(cache, now, now, old(BooksNow()), BooksNow(), |cache|, feeds, ok)
    {
      ghost var a := BooksNow();
      Reload(now);
      ghost var b := BooksNow();
      PollDue(now, feeds, ok);
      RoundFromReload(cache, now, now, a, b, BooksNow(), feeds, ok);
    }

    /** What that comes to for one cached monitor that is due: whatever its feed shows as new
        is delivered up to a failure, its row is moved on, and its next run is set. */
    lemma RoundDelivers(s: Snapshot, now: int, b: Books, feeds: MonitorId -> seq<Option<VideoId>>, ok: VideoId -> bool)
      requires RoundAt(cache, now, lastReload, b, BooksNow(), |cache|, feeds, ok)
      requires s in cache && (s.id !in b.nextRuns || b.nextRuns[s.id] <= now)
      ensures var news := Dispatched(s.cursor, feeds(s.id), ok);
        && Outcome().DeliveredTo(s.id) == b.outcome.DeliveredTo(s.id) + news
        && (s.id in table <==> s.id in b.outcome.table)
        && (s.id in table ==> table[s.id] == After(b.outcome.table[s.id], news))
        && s.id in nextRuns && nextRuns[s.id] == now + 60 * s.intervalMinutes
        && s.id in lastPoll && lastPoll[s.id] == now
        && RecordIn(b, s, now, lastReload) in history
    {
      var i :| 0 <= i < |cache| && cache[i] == s;
      var d, e := b.Of(s.id), BooksNow().Of(s.id);
      assert Handled(cache[i], now, lastReload, b, BooksNow(), feeds(s.id), ok);
      assert e.delivered == d.delivered + Dispatched(s.cursor, feeds(s.id), ok);
      assert d.row == Look(b.outcome.table, s.id) && e.row == Look(table, s.id);
      assert e.nextRun == Look(nextRuns, s.id) && e.lastPoll == Look(lastPoll, s.id);
    }

    /** Whatever rounds have passed: a monitor that was never polled on the dot (so every one
        with an interval above five minutes) has delivered a contiguous, in-order,
        duplicate-free stretch of its uploads, and its cursor is on the last of them. `seen`
        are its polls, with the parts of the history that their feeds showed. */
    lemma DeliveriesAreContiguous(m: MonitorId, seen: seq<Poll>, uploads: seq<VideoId>) returns (a: nat, b: nat)
      requires Valid() && m in table
      requires table[m].intervalMinutes > MIN_INTERVAL_MINUTES || forall r | r in history && r.id == m :: !OnTheDot(r)
      requires SameFeeds(Outcome().PollsOf(m), seen)
      requires Distinct(uploads) && FeedsReachBack(seen, uploads)
      ensures Tracks(Track(table[m].cursor, Outcome().DeliveredTo(m)), uploads, a, b)
      ensures Distinct(Outcome().DeliveredTo(m))
    {
      forall r | r in history && r.id == m
        ensures !Outdated(r)
      {
        assert RecordOk(r) && r.intervalMinutes == intervals[m];
      }
      assert Outcome().NeverOutdated(m) && Outcome().JoinedFor(m);
      SameFeedsSameRun(Outcome().PollsOf(m), seen);
      a, b := DeliveryIsContiguous(seen, uploads);
    }
  }

  lemma OneUpload(ok: VideoId -> bool)
    requires ok("upload")
    ensures Dispatched(None, [Some("upload")], ok) == ["upload"]
  {
    assert IdsOf([Some("upload")]) == ["upload"];
    assert UpTo(["upload"], None) == ["upload"];
    assert Reversed(["upload"]) == ["upload"];
  }

  /** A five-minute monitor, created and polled right after the first reload. */
  method PolledOnce(feeds: MonitorId -> seq<Option<VideoId>>, ok: VideoId -> bool) returns (s: Scheduler)
    requires feeds(7) == [Some("upload")] && ok("upload")
    ensures fresh(s) && s.Valid() && s.clock == 301 && s.lastReload == 301
    ensures Snapshot(7, None, MIN_INTERVAL_MINUTES) in s.cache
    ensures 7 in s.nextRuns && s.nextRuns[7] == 601 && 7 in s.lastPoll && s.lastPoll[7] == 301
    ensures 7 in s.table && s.table[7].cursor == Some("upload")
  {
    s := new Scheduler();
    s.Create(7, MIN_INTERVAL_MINUTES);
    OneUpload(ok);
    ghost var b := s.BooksNow();
    s.Round(301, feeds, ok);
    s.RoundDelivers(Snapshot(7, None, MIN_INTERVAL_MINUTES), 301, b, feeds, ok);
  }

  /** The exception is real: a five-minute monitor, two rounds exactly 300 seconds apart,
      and the second poll goes by a cursor that the first one had already moved. */
  method OnTheDotIsStale() returns (s: Scheduler)
    ensures fresh(s) && s.Valid()
    ensures exists r | r in s.history :: OnTheDot(r) && r.rowCursor.Some? && r.usedCursor != r.rowCursor.value
  {
    var feeds := (m: MonitorId) => [Some("upload")];
    var ok := (v: VideoId) => true;
    s := PolledOnce(feeds, ok);
    ghost var b := s.BooksNow();
    s.Round(601, feeds, ok);
    s.RoundDelivers(Snapshot(7, None, MIN_INTERVAL_MINUTES), 601, b, feeds, ok);
    assert RecordIn(b, Snapshot(7, None, MIN_INTERVAL_MINUTES), 601, 301) in s.history;
  }
}
