/**
 One poll of a channel monitor, and what a series of polls delivers.

 A feed lists uploads newest first; an entry may lack a video id. `ok` says which
 dispatches succeed. Uploads are numbered oldest first in `uploads`.
 */
module MonitorCursor {
  import opened Wrappers

  type VideoId = string

  // ---------- One poll ----------

  predicate HasId(entry: Option<VideoId>) {
    entry.Some? && entry.value != ""
  }

  /** The ids of a feed, entries without one skipped. */
  function IdsOf(feed: seq<Option<VideoId>>): seq<VideoId> {
    if feed == [] then []
    else if HasId(feed[0]) then [feed[0].value] + IdsOf(feed[1..])
    else IdsOf(feed[1..])
  }

  /** The part of `ids` before the cursor. */
  function UpTo(ids: seq<VideoId>, cursor: Option<VideoId>): seq<VideoId> {
    if ids == [] || cursor == Some(ids[0]) then [] else [ids[0]] + UpTo(ids[1..], cursor)
  }

  function Reversed<T>(xs: seq<T>): (r: seq<T>)
    ensures |r| == |xs|
    ensures forall i | 0 <= i < |xs| :: r[i] == xs[|xs| - 1 - i]
  {
    if xs == [] then [] else Reversed(xs[1..]) + [xs[0]]
  }

  /** How many dispatches succeed before the first failure. */
  function LeadingOk(ids: seq<VideoId>, ok: VideoId -> bool): (n: nat)
    ensures n <= |ids|
    ensures forall i | 0 <= i < n :: ok(ids[i])
    ensures n < |ids| ==> !ok(ids[n])
  {
    if ids == [] || !ok(ids[0]) then 0
    else
      var n := LeadingOk(ids[1..], ok);
      assert forall i | 1 <= i < n + 1 :: ids[i] == ids[1..][i - 1];
      n + 1
  }

  /** What one poll dispatches, in order: the new uploads, oldest first, up to a failure. */
  function Dispatched(cursor: Option<VideoId>, feed: seq<Option<VideoId>>, ok: VideoId -> bool): seq<VideoId> {
    Succeeding(UpTo(IdsOf(feed), cursor), ok)
  }

  /** Exactly the ids that are not empty are walked. */
  lemma {:induction false} IdsComeFromEntries(feed: seq<Option<VideoId>>, id: VideoId)
    ensures id in IdsOf(feed) <==> id != "" && Some(id) in feed
  {
    if feed != [] {
      IdsComeFromEntries(feed[1..], id);
      assert feed == [feed[0]] + feed[1..];
    }
  }

  lemma {:induction false} IdsOfSnoc(a: seq<Option<VideoId>>, e: Option<VideoId>)
    ensures IdsOf(a + [e]) == IdsOf(a) + if HasId(e) then [e.value] else []
  {
    if a == [] {
      assert a + [e] == [e];
    } else {
      assert (a + [e])[1..] == a[1..] + [e];
      IdsOfSnoc(a[1..], e);
    }
  }

  lemma {:induction false} IdsOfAppend(a: seq<Option<VideoId>>, b: seq<Option<VideoId>>)
    ensures IdsOf(a + b) == IdsOf(a) + IdsOf(b)
  {
    if a == [] {
      assert a + b == b;
    } else {
      assert (a + b)[1..] == a[1..] + b;
      IdsOfAppend(a[1..], b);
    }
  }

  lemma {:induction false} UpToStopsAt(before: seq<VideoId>, rest: seq<VideoId>, cursor: Option<VideoId>)
    requires forall x | x in before :: cursor != Some(x)
    requires rest != [] ==> cursor == Some(rest[0])
    ensures UpTo(before + rest, cursor) == before
  {
    if before == [] {
      assert before + rest == rest;
    } else {
      assert (before + rest)[1..] == before[1..] + rest;
      UpToStopsAt(before[1..], rest, cursor);
    }
  }

  /** Walk the feed until the last-seen id. */
  method CollectNew(feed: seq<Option<VideoId>>, cursor: Option<VideoId>) returns (newIds: seq<VideoId>)
    ensures newIds == UpTo(IdsOf(feed), cursor)
  {
    newIds := [];
    var k := 0;
    while k < |feed|
      invariant k <= |feed|
      invariant newIds == IdsOf(feed[..k])
      invariant forall x | x in newIds :: cursor != Some(x)
    {
      assert feed[..k + 1] == feed[..k] + [feed[k]];
      IdsOfSnoc(feed[..k], feed[k]);
      assert feed == feed[..k] + feed[k..];
      if HasId(feed[k]) {
        if cursor == feed[k] {
          IdsOfAppend(feed[..k], feed[k..]);
          UpToStopsAt(newIds, IdsOf(feed[k..]), cursor);
          return;
        }
        newIds := newIds + [feed[k].value];
      }
      k := k + 1;
    }
    assert feed[..k] == feed;
    UpToStopsAt(newIds, [], cursor);
    assert newIds + [] == newIds;
  }

  /** Where a cursor stands after these dispatches: on the last of them. */
  function MoveCursor(cursor: Option<VideoId>, dispatched: seq<VideoId>): Option<VideoId> {
    if dispatched == [] then cursor else LastOf(dispatched)
  }

  datatype MonitorRow = MonitorRow(lastVideoId: Option<VideoId>, lastPolledAt: Option<int>)

  /** A monitor's row, None once it is deleted, and the ids successfully dispatched so far. */
  class Monitor {
    var row: Option<MonitorRow>
    var delivered: seq<VideoId>

    constructor ()
      ensures row == Some(MonitorRow(None, None)) && delivered == []
    {
      row, delivered := Some(MonitorRow(None, None)), [];
    }

    /** Record a poll; the cursor moves only when something was dispatched. Without the row
        this raises. */
    method MarkPolled(last: Option<VideoId>, now: int) returns (found: bool)
      modifies this`row
      ensures found <==> old(row).Some?
      ensures row == if found then Some(MonitorRow(if last.Some? then last else old(row).value.lastVideoId, Some(now)))
                     else None
    {
      if row.None? {
        return false;
      }
      row := Some(row.value.(lastPolledAt := Some(now)));
      if last.Some? {
        row := Some(row.value.(lastVideoId := last));
      }
      return true;
    }

    /** Poll once, going by the cursor of a snapshot. An empty feed is no poll. Uploads stay
        dispatched even if the row turns out to be gone. By the row's own cursor this is one
        step of `RunPolls`. */
    method PollOne(snapshot: Option<VideoId>, feed: seq<Option<VideoId>>, ok: VideoId -> bool, now: int)
      returns (found: bool)
      modifies this
      ensures found <==> feed == [] || old(row).Some?
      ensures delivered == old(delivered) + Dispatched(snapshot, feed, ok)
      ensures row == if old(row).None? || feed == [] then old(row)
                     else Some(MonitorRow(MoveCursor(old(row).value.lastVideoId, Dispatched(snapshot, feed, ok)),
                         Some(now)))
      ensures old(row).Some? && snapshot == old(row).value.lastVideoId ==>
                && row.Some?
                && forall from, to ::
                     Track(row.value.lastVideoId, delivered) ==
                         Step(old(Track(row.value.lastVideoId, delivered)), Poll(feed, from, to, ok))
    {
      if feed == [] {
        return true;
      }
      var newIds := CollectNew(feed, snapshot);
      var newest, dispatched := DispatchOldestFirst(newIds, ok);
      delivered := delivered + dispatched;
      found := MarkPolled(newest, now);
    }
  }

  /** The part of `ids`, oldest last, that is dispatched: in reverse, up to a failure. */
  function Succeeding(ids: seq<VideoId>, ok: VideoId -> bool): seq<VideoId> {
    Reversed(ids)[..LeadingOk(Reversed(ids), ok)]
  }

  function LastOf(ids: seq<VideoId>): Option<VideoId> {
    if ids == [] then None else Some(ids[|ids| - 1])
  }

  /** Dispatch oldest first and stop at the first failure, so that the failed upload is
      the next poll's candidate. */
  method DispatchOldestFirst(newIds: seq<VideoId>, ok: VideoId -> bool)
    returns (newest: Option<VideoId>, dispatched: seq<VideoId>)
    ensures dispatched == Succeeding(newIds, ok)
    ensures newest == LastOf(dispatched)
  {
    ghost var pending := Reversed(newIds);
    newest, dispatched := None, [];
    var k := |newIds|;
    while 0 < k
      invariant 0 <= k <= |newIds|
      invariant dispatched == pending[..|newIds| - k]
      invariant forall i | 0 <= i < |newIds| - k :: ok(pending[i])
      invariant newest == LastOf(dispatched)
    {
      var vid := newIds[k - 1];
      if !ok(vid) {
        break;
      }
      dispatched := dispatched + [vid];
      newest := Some(vid);
      k := k - 1;
    }
    LeadingOkIs(pending, ok, |newIds| - k);
  }

  lemma {:induction false} LeadingOkIs(ids: seq<VideoId>, ok: VideoId -> bool, n: nat)
    requires n <= |ids| && (forall i | 0 <= i < n :: ok(ids[i])) && (n < |ids| ==> !ok(ids[n]))
    ensures LeadingOk(ids, ok) == n
  {
    if n > 0 {
      assert forall i | 0 <= i < n - 1 :: ids[1..][i] == ids[i + 1];
      LeadingOkIs(ids[1..], ok, n - 1);
    }
  }

  // ---------- What a poll sees of the upload history ----------

  predicate Distinct(xs: seq<VideoId>) {
    forall i, j | 0 <= i < j < |xs| :: xs[i] != xs[j]
  }

  /** The feed shows the uploads from number `from` up to `to`, newest first. */
  predicate Shows(feed: seq<Option<VideoId>>, uploads: seq<VideoId>, from: nat, to: nat) {
    from <= to <= |uploads| && IdsOf(feed) == Reversed(uploads[from..to])
  }

  lemma ReversedTwice<T>(xs: seq<T>)
    ensures Reversed(Reversed(xs)) == xs
  {
  }

  lemma ReversedAppend<T>(a: seq<T>, b: seq<T>)
    ensures Reversed(a + b) == Reversed(b) + Reversed(a)
  {
    forall i | 0 <= i < |a + b|
      ensures Reversed(a + b)[i] == (Reversed(b) + Reversed(a))[i]
    {
      assert Reversed(a + b)[i] == (a + b)[|a + b| - 1 - i];
    }
  }

  lemma PrefixOfSlice(xs: seq<VideoId>, from: nat, to: nat, n: nat)
    requires from <= to <= |xs| && n <= to - from
    ensures xs[from..to][..n] == xs[from..from + n]
  {
  }

  function Max(a: nat, b: nat): nat {
    if a < b then b else a
  }

  /** With the cursor on upload `b - 1`, the uploads pending after a walk of the feed are
      those from `b` on that the feed still shows. */
  lemma PendingUploads(uploads: seq<VideoId>, feed: seq<Option<VideoId>>, from: nat, to: nat, b: nat)
    requires Distinct(uploads) && Shows(feed, uploads, from, to) && 0 < b <= to
    ensures Reversed(UpTo(IdsOf(feed), Some(uploads[b - 1]))) == uploads[Max(from, b)..to]
  {
    var cursor := Some(uploads[b - 1]);
    if from < b {
      assert uploads[from..to] == uploads[from..b - 1] + [uploads[b - 1]] + uploads[b..to];
      ReversedAppend(uploads[from..b - 1] + [uploads[b - 1]], uploads[b..to]);
      ReversedAppend(uploads[from..b - 1], [uploads[b - 1]]);
      var before, rest := Reversed(uploads[b..to]), Reversed(uploads[from..b - 1] + [uploads[b - 1]]);
      assert rest[0] == uploads[b - 1];
      UpToStopsAt(before, rest, cursor);
      ReversedTwice(uploads[b..to]);
    } else {
      UpToStopsAt(IdsOf(feed), [], cursor);
      assert IdsOf(feed) + [] == IdsOf(feed);
      ReversedTwice(uploads[from..to]);
    }
  }

  /** Without a cursor, everything the feed shows is pending. */
  lemma PendingFromNothing(uploads: seq<VideoId>, feed: seq<Option<VideoId>>, from: nat, to: nat)
    requires Shows(feed, uploads, from, to)
    ensures Reversed(UpTo(IdsOf(feed), None)) == uploads[from..to]
  {
    UpToStopsAt(IdsOf(feed), [], None);
    assert IdsOf(feed) + [] == IdsOf(feed);
    ReversedTwice(uploads[from..to]);
  }

  // ---------- Delivery over any run of polls ----------

  /** A poll as it happens: the feed of that moment, what it shows, and the failures. */
  datatype Poll = Poll(feed: seq<Option<VideoId>>, from: nat, to: nat, ok: VideoId -> bool)

  datatype Track = Track(cursor: Option<VideoId>, delivered: seq<VideoId>)

  function Advance(t: Track, dispatched: seq<VideoId>): Track {
    Track(MoveCursor(t.cursor, dispatched), t.delivered + dispatched)
  }

  function Step(t: Track, p: Poll): Track {
    Advance(t, Dispatched(t.cursor, p.feed, p.ok))
  }

  function RunPolls(polls: seq<Poll>): Track {
    if polls == [] then Track(None, []) else Step(RunPolls(polls[..|polls| - 1]), polls[|polls| - 1])
  }

  /** The deliveries are uploads `a` up to `b`, in order, and the cursor is on the last. */
  predicate Tracks(t: Track, uploads: seq<VideoId>, a: nat, b: nat) {
    && a <= b <= |uploads|
    && t.delivered == uploads[a..b]
    && t.cursor == if a == b then None else Some(uploads[b - 1])
  }

  /** The feed shows a stretch of the history that is not older than the last delivery. */
  predicate Legible(uploads: seq<VideoId>, p: Poll, b: nat) {
    Shows(p.feed, uploads, p.from, p.to) && b <= p.to
  }

  lemma DispatchIsSlice(cursor: Option<VideoId>, uploads: seq<VideoId>, p: Poll, m: nat)
    requires m <= p.to <= |uploads| && Reversed(UpTo(IdsOf(p.feed), cursor)) == uploads[m..p.to]
    ensures var d := Dispatched(cursor, p.feed, p.ok); m + |d| <= p.to && d == uploads[m..m + |d|]
  {
    PrefixOfSlice(uploads, m, p.to, |Dispatched(cursor, p.feed, p.ok)|);
  }

  lemma DispatchesFrom(uploads: seq<VideoId>, b: nat, p: Poll)
    requires Distinct(uploads) && 0 < b && Legible(uploads, p, b)
    ensures var d := Dispatched(Some(uploads[b - 1]), p.feed, p.ok); var m := Max(p.from, b);
      m + |d| <= |uploads| && d == uploads[m..m + |d|]
  {
    PendingUploads(uploads, p.feed, p.from, p.to, b);
    DispatchIsSlice(Some(uploads[b - 1]), uploads, p, Max(p.from, b));
  }

  /** One poll delivers the next uploads in order. Nothing is skipped exactly when the
      feed reaches back to the first upload not yet delivered, or nothing is delivered. */
  lemma PollContinues(t: Track, uploads: seq<VideoId>, a: nat, b: nat, p: Poll)
    requires Distinct(uploads) && Tracks(t, uploads, a, b) && a < b && Legible(uploads, p, b)
    ensures var d := Dispatched(t.cursor, p.feed, p.ok);
      && Max(p.from, b) + |d| <= |uploads|
      && d == uploads[Max(p.from, b)..Max(p.from, b) + |d|]
      && (Tracks(Step(t, p), uploads, a, b + |d|) <==> p.from <= b || d == [])
  {
    var m := Max(p.from, b);
    var d := Dispatched(t.cursor, p.feed, p.ok);
    DispatchesFrom(uploads, b, p);
    StretchExtends(t, uploads, a, b, m, d);
  }

  lemma JoinSlices(xs: seq<VideoId>, a: nat, b: nat, c: nat)
    requires a <= b <= c <= |xs|
    ensures xs[a..b] + xs[b..c] == xs[a..c]
  {
  }

  lemma GapShows(uploads: seq<VideoId>, a: nat, b: nat, m: nat, d: seq<VideoId>)
    requires Distinct(uploads) && a <= b < m && m + |d| <= |uploads| && d != [] && d == uploads[m..m + |d|]
    ensures uploads[a..b] + d != uploads[a..b + |d|]
  {
    assert (uploads[a..b] + d)[b - a] == uploads[m];
    assert uploads[a..b + |d|][b - a] == uploads[b];
  }

  lemma StretchExtends(t: Track, uploads: seq<VideoId>, a: nat, b: nat, m: nat, d: seq<VideoId>)
    requires Distinct(uploads) && Tracks(t, uploads, a, b) && a < b <= m && m + |d| <= |uploads|
    requires d == uploads[m..m + |d|]
    ensures Tracks(Advance(t, d), uploads, a, b + |d|) <==> m == b || d == []
  {
    if d == [] {
      assert t.delivered + d == t.delivered;
    } else {
      LastOfSlice(uploads, m, d);
      if m == b { JoinSlices(uploads, a, b, b + |d|); } else { GapShows(uploads, a, b, m, d); }
    }
  }

  lemma FirstPollStarts(t: Track, uploads: seq<VideoId>, a: nat, p: Poll)
    requires Tracks(t, uploads, a, a) && Legible(uploads, p, 0)
    ensures var d := Dispatched(None, p.feed, p.ok);
      p.from + |d| <= p.to && Tracks(Step(t, p), uploads, p.from, p.from + |d|)
  {
    PendingFromNothing(uploads, p.feed, p.from, p.to);
    DispatchIsSlice(None, uploads, p, p.from);
    var d := Dispatched(None, p.feed, p.ok);
    if d != [] { LastOfSlice(uploads, p.from, d); }
    assert t.delivered + d == d;
  }

  /** How many uploads had been published when the last delivered one was: the position
      of the cursor in the history. */
  ghost predicate CursorAt(t: Track, uploads: seq<VideoId>, b: nat) {
    b <= |uploads| && t.cursor == if b == 0 then None else Some(uploads[b - 1])
  }

  /** A feed in order, not older than the cursor, that reaches back to it. */
  predicate ReachesBack(p: Poll, uploads: seq<VideoId>, b: nat) {
    Legible(uploads, p, b) && (0 < b ==> p.from <= b)
  }

  /** Every poll of the series meets such a feed. */
  ghost predicate FeedsReachBack(polls: seq<Poll>, uploads: seq<VideoId>) {
    forall k: nat, b: nat | k < |polls| && CursorAt(RunPolls(polls[..k]), uploads, b) ::
        ReachesBack(polls[k], uploads, b)
  }

  lemma ReachBackLast(polls: seq<Poll>, uploads: seq<VideoId>, b: nat)
    requires polls != [] && FeedsReachBack(polls, uploads)
    requires CursorAt(RunPolls(polls[..|polls| - 1]), uploads, b)
    ensures ReachesBack(polls[|polls| - 1], uploads, b)
  {
  }

  lemma ReachBackPrefix(polls: seq<Poll>, uploads: seq<VideoId>)
    requires polls != [] && FeedsReachBack(polls, uploads)
    ensures FeedsReachBack(polls[..|polls| - 1], uploads)
  {
    var before := polls[..|polls| - 1];
    forall k: nat, b: nat | k < |before| && CursorAt(RunPolls(before[..k]), uploads, b)
      ensures ReachesBack(before[k], uploads, b)
    {
      assert before[..k] == polls[..k];
    }
  }

  lemma StartedStretchContinues(t: Track, uploads: seq<VideoId>, a: nat, b: nat, p: Poll) returns (c: nat)
    requires Distinct(uploads) && Tracks(t, uploads, a, b) && a < b && ReachesBack(p, uploads, b)
    ensures b <= c && Tracks(Step(t, p), uploads, a, c)
  {
    PollContinues(t, uploads, a, b, p);
    c := b + |Dispatched(t.cursor, p.feed, p.ok)|;
  }

  /** One more poll in such a series keeps the deliveries a stretch of the history. */
  lemma StretchContinues(t: Track, uploads: seq<VideoId>, a: nat, b: nat, p: Poll) returns (a': nat, b': nat)
    requires Distinct(uploads) && Tracks(t, uploads, a, b) && ReachesBack(p, uploads, if a == b then 0 else b)
    ensures Tracks(Step(t, p), uploads, a', b')
    ensures a < b ==> a' == a && b <= b'
  {
    if a == b {
      FirstPollStarts(t, uploads, a, p);
      a', b' := p.from, p.from + |Dispatched(None, p.feed, p.ok)|;
    } else {
      a' := a;
      b' := StartedStretchContinues(t, uploads, a, b, p);
    }
  }

  /** Over any run of polls with any dispatch failures, the successful dispatches are a
      contiguous, in-order, duplicate-free stretch of the uploads, ending at the cursor. */
  lemma {:induction false} DeliveryIsContiguous(polls: seq<Poll>, uploads: seq<VideoId>) returns (a: nat, b: nat)
    requires Distinct(uploads) && FeedsReachBack(polls, uploads)
    ensures Tracks(RunPolls(polls), uploads, a, b)
    ensures Distinct(RunPolls(polls).delivered)
    decreases |polls|
  {
    if polls == [] {
      a, b := 0, 0;
    } else {
      var before := polls[..|polls| - 1];
      ReachBackPrefix(polls, uploads);
      a, b := DeliveryIsContiguous(before, uploads);
      ReachBackLast(polls, uploads, if a == b then 0 else b);
      a, b := StretchContinues(RunPolls(before), uploads, a, b, polls[|polls| - 1]);
    }
  }

  /** The cursor never moves back: a later state of the run leaves it on the same or on a
      later upload. */
  lemma {:induction false} CursorNeverMovesBack(polls: seq<Poll>, n: nat, uploads: seq<VideoId>, b: nat)
      returns (c: nat)
    requires Distinct(uploads) && FeedsReachBack(polls, uploads) && n <= |polls|
    requires CursorAt(RunPolls(polls[..n]), uploads, b)
    ensures b <= c && CursorAt(RunPolls(polls), uploads, c)
    decreases |polls|
  {
    if n == |polls| {
      assert polls[..n] == polls;
      c := b;
    } else {
      var before := polls[..|polls| - 1];
      assert before[..n] == polls[..n];
      ReachBackPrefix(polls, uploads);
      c := CursorNeverMovesBack(before, n, uploads, b);
      ReachBackLast(polls, uploads, c);
      c := CursorStep(RunPolls(before), uploads, c, polls[|polls| - 1]);
    }
  }

  /** What a poll dispatches is a slice of the history, at or after the cursor. */
  lemma DispatchesNext(t: Track, uploads: seq<VideoId>, b: nat, p: Poll) returns (m: nat)
    requires Distinct(uploads) && CursorAt(t, uploads, b) && ReachesBack(p, uploads, b)
    ensures var d := Dispatched(t.cursor, p.feed, p.ok);
      b <= m && m + |d| <= |uploads| && d == uploads[m..m + |d|]
  {
    m := if b == 0 then p.from else b;
    if b == 0 {
      PendingFromNothing(uploads, p.feed, p.from, p.to);
    } else {
      PendingUploads(uploads, p.feed, p.from, p.to, b);
    }
    DispatchIsSlice(t.cursor, uploads, p, m);
  }

  lemma CursorStep(t: Track, uploads: seq<VideoId>, b: nat, p: Poll) returns (c: nat)
    requires Distinct(uploads) && CursorAt(t, uploads, b) && ReachesBack(p, uploads, b)
    ensures b <= c && CursorAt(Step(t, p), uploads, c)
  {
    var m := DispatchesNext(t, uploads, b, p);
    var d := Dispatched(t.cursor, p.feed, p.ok);
    c := b;
    if d != [] {
      LastOfSlice(uploads, m, d);
      c := m + |d|;
    }
  }

  lemma LastOfSlice(xs: seq<VideoId>, from: nat, d: seq<VideoId>)
    requires d != [] && from + |d| <= |xs| && d == xs[from..from + |d|]
    ensures d[|d| - 1] == xs[from + |d| - 1]
  {
  }

  // ---------- Why the snapshot must be fresh ----------

  /** A poll by an old snapshot, of when only `stale` uploads were delivered, delivers again
      everything from there on; it moves the row's cursor back exactly when a failure stops
      it short of what had already been delivered. */
  lemma StaleSnapshotRedelivers(t: Track, uploads: seq<VideoId>, p: Poll, stale: nat, b: nat)
    requires Distinct(uploads) && 0 < stale < b && Legible(uploads, p, b) && p.from <= stale && CursorAt(t, uploads, b)
    ensures var d := Dispatched(Some(uploads[stale - 1]), p.feed, p.ok);
      var c := if d == [] then b else stale + |d|;
      && stale + |d| <= |uploads| && d == uploads[stale..stale + |d|]
      && (d != [] <==> p.ok(uploads[stale]))
      && MoveCursor(t.cursor, d) == Some(uploads[c - 1])
      && (c < b <==> p.ok(uploads[stale]) && exists i | stale < i < b :: !p.ok(uploads[i]))
  {
    StaleSlice(uploads, p, stale, b);
    var d := Dispatched(Some(uploads[stale - 1]), p.feed, p.ok);
    if d != [] { LastOfSlice(uploads, stale, d); }
  }

  lemma StaleSlice(uploads: seq<VideoId>, p: Poll, stale: nat, b: nat)
    requires Distinct(uploads) && 0 < stale < b && Legible(uploads, p, b) && p.from <= stale
    ensures var d := Dispatched(Some(uploads[stale - 1]), p.feed, p.ok);
      && stale + |d| <= |uploads| && d == uploads[stale..stale + |d|]
      && (d != [] <==> p.ok(uploads[stale]))
      && (0 < |d| < b - stale <==> p.ok(uploads[stale]) && exists i | stale < i < b :: !p.ok(uploads[i]))
  {
    PendingUploads(uploads, p.feed, p.from, p.to, stale);
    var n := LeadingOk(uploads[stale..p.to], p.ok);
    PrefixOfSlice(uploads, stale, p.to, n);
    LeadingOkOfSlice(uploads, stale, p.to, p.ok);
  }

  lemma LeadingOkOfSlice(xs: seq<VideoId>, from: nat, to: nat, ok: VideoId -> bool)
    requires from <= to <= |xs|
    ensures var n := LeadingOk(xs[from..to], ok);
      && (forall i | from <= i < from + n :: ok(xs[i]))
      && (from + n < to ==> !ok(xs[from + n]))
  {
    var ys := xs[from..to];
    var n := LeadingOk(ys, ok);
    forall i | from <= i < from + n
      ensures ok(xs[i])
    {
      assert ys[i - from] == xs[i];
    }
    if from + n < to { assert ys[n] == xs[from + n]; }
  }
}
