/**
 Chapter requests as they overlap: each reads the row, asks its sources, and stores what
 came of it, with nothing held in between. The rest of the service goes on meanwhile, as
 any events of the job pipeline's machine.
 */
module ChapterCalls {
  import opened Wrappers
  import opened TranscriptCache
  import P = JobProtocol
  import opened JobCache
  import opened Chapters
  import JobTheorems

  type CallId = nat

  /** What a call on row `k` came to; None for raising. */
  datatype Reply = Reply(k: CacheKey, result: Option<seq<Chapter>>)

  datatype State = State(
    base: P.State,
    pending: map<CallId, CacheKey>,   // calls that read NULL and have not stored or raised yet
    replies: map<CallId, Reply>)      // history

  datatype Event =
    | Other(e: P.Event)
    | Read(call: CallId, k: CacheKey)
    | Finish(call: CallId, outcome: Option<seq<Chapter>>)

  const INIT := State(P.INIT, map[], map[])

  /** Chapters are stored by calls only, and a call starts from a row that is served. */
  ghost predicate Enabled(s: State, e: Event) {
    match e
    case Other(o) => !o.StoreChapters? && P.Enabled(s.base, o)
    case Read(call, k) =>
      call !in s.pending && call !in s.replies && GetTranscript(s.base.cache, k, s.base.now).Some?
    case Finish(call, _) => call in s.pending
  }

  function Apply(s: State, e: Event): State
    requires Enabled(s, e)
  {
    match e
    case Other(o) => s.(base := P.Apply(s.base, o))
    case Read(call, k) =>
      var stored := GetTranscript(s.base.cache, k, s.base.now).value.chapters;
      if stored.Some? then s.(replies := s.replies[call := Reply(k, stored)])
      else s.(pending := s.pending[call := k])
    case Finish(call, outcome) =>
      var k := s.pending[call];
      State(if outcome.Some? then P.Apply(s.base, P.StoreChapters(k, outcome.value)) else s.base,
            s.pending - {call},
            s.replies[call := Reply(k, outcome)])
  }

  ghost predicate Reaches(s: State, es: seq<Event>)
    decreases |es|, 0
  {
    es == [] || (Reaches(s, es[..|es| - 1]) && Enabled(After(s, es[..|es| - 1]), es[|es| - 1]))
  }

  ghost function After(s: State, es: seq<Event>): State
    requires Reaches(s, es)
    decreases |es|, 1
  {
    if es == [] then s else Apply(After(s, es[..|es| - 1]), es[|es| - 1])
  }

  lemma Extend(s: State, es: seq<Event>, e: Event)
    requires Reaches(s, es) && Enabled(After(s, es), e)
    ensures Reaches(s, es + [e]) && After(s, es + [e]) == Apply(After(s, es), e)
  {
    assert (es + [e])[..|es + [e]| - 1] == es;
  }

  // ---------- What the machine is a machine of ----------

  /** The pipeline's events of a run: a read leaves no trace, an answer is a store. */
  ghost function Projected(s: State, es: seq<Event>): seq<P.Event>
    requires Reaches(s, es)
    decreases |es|
  {
    if es == [] then []
    else
      var before := es[..|es| - 1];
      var earlier := Projected(s, before);
      match es[|es| - 1]
      case Other(o) => earlier + [o]
      case Read(_, _) => earlier
      case Finish(call, outcome) =>
        if outcome.Some? then earlier + [P.StoreChapters(After(s, before).pending[call], outcome.value)] else earlier
  }

  /** Overlapping calls run inside the pipeline's machine, so everything proved of its runs
      holds of theirs. */
  lemma {:induction false} ProjectsToPipeline(s: State, es: seq<Event>)
    requires Reaches(s, es)
    ensures P.Reaches(s.base, Projected(s, es)) && P.After(s.base, Projected(s, es)) == After(s, es).base
    decreases |es|
  {
    if es != [] {
      var before, e := es[..|es| - 1], es[|es| - 1];
      ProjectsToPipeline(s, before);
      if e.Other? {
        JobTheorems.ReachesOneMore(s.base, Projected(s, before), e.e);
      } else if e.Finish? && e.outcome.Some? {
        var store := P.StoreChapters(After(s, before).pending[e.call], e.outcome.value);
        JobTheorems.ReachesOneMore(s.base, Projected(s, before), store);
      }
    }
  }

  /** A call that begins at the end of a run answers the last list stored on its row since
      the last purge, and goes to its sources exactly when there is none. */
  lemma ReadAnswersLastChapters(es: seq<Event>, call: CallId, k: CacheKey)
    requires Reaches(INIT, es) && Enabled(After(INIT, es), Read(call, k))
    ensures P.IsRun(Projected(INIT, es))
    ensures var last := LastChapters(Projected(INIT, es), k);
      var t := Apply(After(INIT, es), Read(call, k));
      && (last.Some? <==> call in t.replies && t.replies[call] == Reply(k, last))
      && (last.None? <==> call in t.pending && t.pending[call] == k)
  {
    ProjectsToPipeline(INIT, es);
    ColumnIsLastChapters(Projected(INIT, es), k);
  }

  /** The end of a call is what `ChapterStore.GetOrCompute` does on the table of that moment
      with the record of an earlier one. */
  lemma FinishIsTheStore(s: State, call: CallId, record: CacheRow, metadata: Metadata, derivation: Derivation,
                         outcome: Option<seq<Chapter>>)
    requires Enabled(s, Finish(call, outcome)) && record.chapters.None?
    requires outcome == if Raises(record, metadata, derivation) then None
                        else if metadata.Published? then Some(metadata.chapters) else Some(derivation.chapters)
    ensures Answers(s.base.cache, Apply(s, Finish(call, outcome)).base.cache, s.pending[call], record,
                    metadata, derivation, outcome)
  {
  }

  // ---------- When later calls repeat the first ----------

  ghost predicate PurgeFree(es: seq<Event>, video: string) {
    forall i | 0 <= i < |es| :: es[i] != Other(P.PurgeVideo(video))
  }

  /** However things go on, short of a purge: every call on `k` that begins after `s` and
      comes to an end ends with `r`. */
  ghost predicate Settled(s: State, k: CacheKey, r: Option<seq<Chapter>>) {
    forall es: seq<Event>, call: CallId |
      && Reaches(s, es) && PurgeFree(es, k.video)
      && call !in s.pending && call !in s.replies && call in After(s, es).replies ::
      After(s, es).replies[call].k == k ==> After(s, es).replies[call].result == r
  }

  /** No call on `k` is between its read of NULL and its end, but for `except`. */
  predicate Alone(s: State, k: CacheKey, except: set<CallId>) {
    forall p | p in s.pending && p !in except :: s.pending[p] != k
  }

  /** The column holds `c`, nobody is about to overwrite it, and calls since `s` answered it. */
  ghost predicate Holds(s: State, t: State, k: CacheKey, c: seq<Chapter>) {
    && k in t.base.cache && t.base.cache[k].chapters == Some(c)
    && Alone(t, k, {})
    && forall call | call in t.replies && call !in s.replies && t.replies[call].k == k ::
         t.replies[call].result == Some(c)
  }

  lemma StepKeepsHolds(s: State, t: State, e: Event, k: CacheKey, c: seq<Chapter>)
    requires Holds(s, t, k, c) && Enabled(t, e) && e != Other(P.PurgeVideo(k.video))
    ensures Holds(s, Apply(t, e), k, c)
  {
    match e
    case Other(o) => ChaptersSurviveStep(t.base, o, k);
    case Read(_, _) =>
    case Finish(call, outcome) =>
      if outcome.Some? {
        ChaptersSurviveStep(t.base, P.StoreChapters(t.pending[call], outcome.value), k);
      }
  }

  lemma {:induction false} RunKeepsHolds(s: State, es: seq<Event>, k: CacheKey, c: seq<Chapter>)
    requires Holds(s, s, k, c) && Reaches(s, es) && PurgeFree(es, k.video)
    ensures Holds(s, After(s, es), k, c)
    decreases |es|
  {
    if es != [] {
      var before := es[..|es| - 1];
      assert PurgeFree(before, k.video);
      RunKeepsHolds(s, before, k, c);
      StepKeepsHolds(s, After(s, before), es[|es| - 1], k, c);
    }
  }

  /** A refreshed transcript is served, and keeps the chapters its row had. */
  lemma Refresh(s: State, k: CacheKey) returns (t: State)
    ensures Enabled(s, Other(P.PutCaptions(k, []))) && t == Apply(s, Other(P.PutCaptions(k, [])))
    ensures t.pending == s.pending && t.replies == s.replies
    ensures GetTranscript(t.base.cache, k, t.base.now).Some?
    ensures t.base.cache[k].chapters == if k in s.base.cache then s.base.cache[k].chapters else None
  {
    t := Apply(s, Other(P.PutCaptions(k, [])));
  }

  lemma Unused(s: State) returns (call: CallId)
    ensures call !in s.pending && call !in s.replies
  {
    call := JobTheorems.FreshId(s.pending.Keys + s.replies.Keys);
  }

  lemma Contradicts(s: State, k: CacheKey, r: Option<seq<Chapter>>, es: seq<Event>, call: CallId)
    requires Reaches(s, es) && PurgeFree(es, k.video) && call !in s.pending && call !in s.replies
    requires call in After(s, es).replies && After(s, es).replies[call].k == k && After(s, es).replies[call].result != r
    ensures !Settled(s, k, r)
  {
  }

  /** With the column NULL or the row missing, a newcomer may end in any way. */
  lemma OpenColumnUnsettles(s: State, k: CacheKey, r: Option<seq<Chapter>>)
    requires k in s.base.cache ==> s.base.cache[k].chapters.None?
    ensures !Settled(s, k, r)
  {
    var t := Refresh(s, k);
    var call := Unused(s);
    var outcome := if r.None? then Some([]) else None;
    var es := [Other(P.PutCaptions(k, []))];
    Extend(s, [], es[0]);
    assert [] + [es[0]] == es;
    Extend(s, es, Read(call, k));
    Extend(s, es + [Read(call, k)], Finish(call, outcome));
    Contradicts(s, k, r, es + [Read(call, k)] + [Finish(call, outcome)], call);
  }

  /** A newcomer answers what the column holds, and no other result is settled. */
  lemma ColumnUnsettlesOthers(s: State, k: CacheKey, r: Option<seq<Chapter>>)
    requires k in s.base.cache && s.base.cache[k].chapters.Some? && s.base.cache[k].chapters != r
    ensures !Settled(s, k, r)
  {
    var t := Refresh(s, k);
    var call := Unused(s);
    var es := [Other(P.PutCaptions(k, []))];
    Extend(s, [], es[0]);
    assert [] + [es[0]] == es;
    Extend(s, es, Read(call, k));
    Contradicts(s, k, r, es + [Read(call, k)], call);
  }

  /** A call that read NULL may still overwrite the column, and newcomers answer that. */
  lemma OverlapUnsettles(s: State, k: CacheKey, r: Option<seq<Chapter>>, p: CallId)
    requires k in s.base.cache && p in s.pending && s.pending[p] == k
    ensures !Settled(s, k, r)
  {
    var other := if r == Some([]) then [Chapter(0.0, 1.0, "Intro")] else [];
    var t := Refresh(s, k);
    var call := Unused(s);
    var es := [Other(P.PutCaptions(k, []))];
    Extend(s, [], es[0]);
    assert [] + [es[0]] == es;
    Extend(s, es, Finish(p, Some(other)));
    Extend(s, es + [Finish(p, Some(other))], Read(call, k));
    Contradicts(s, k, r, es + [Finish(p, Some(other))] + [Read(call, k)], call);
  }

  lemma AloneSettles(s: State, k: CacheKey, c: seq<Chapter>)
    requires k in s.base.cache && s.base.cache[k].chapters == Some(c) && Alone(s, k, {})
    ensures Settled(s, k, Some(c))
  {
    forall es: seq<Event>, call: CallId |
      && Reaches(s, es) && PurgeFree(es, k.video)
      && call !in s.pending && call !in s.replies && call in After(s, es).replies
      ensures After(s, es).replies[call].k == k ==> After(s, es).replies[call].result == Some(c)
    {
      RunKeepsHolds(s, es, k, c);
    }
  }

  /** Every later call repeats a call that ends now, in every continuation without a purge,
      exactly when it returned, its row was still there to be written, and no other call on
      the row had read NULL and was still to end. */
  lemma RepeatedIffReturnedAlone(s: State, call: CallId, outcome: Option<seq<Chapter>>)
    requires Enabled(s, Finish(call, outcome))
    ensures var k := s.pending[call];
      Settled(Apply(s, Finish(call, outcome)), k, outcome) <==>
        outcome.Some? && k in s.base.cache && Alone(s, k, {call})
  {
    var k := s.pending[call];
    var t := Apply(s, Finish(call, outcome));
    if k !in t.base.cache || t.base.cache[k].chapters.None? {
      OpenColumnUnsettles(t, k, outcome);
    } else if t.base.cache[k].chapters != outcome {
      ColumnUnsettlesOthers(t, k, outcome);
    } else if Alone(s, k, {call}) {
      AloneSettles(t, k, outcome.value);
    } else {
      var p :| p in s.pending && p !in {call} && s.pending[p] == k;
      OverlapUnsettles(t, k, outcome, p);
    }
  }

  /** A purge unsettles everything. */
  lemma PurgeUnsettles(s: State, k: CacheKey, r: Option<seq<Chapter>>)
    ensures Enabled(s, Other(P.PurgeVideo(k.video)))
    ensures !Settled(Apply(s, Other(P.PurgeVideo(k.video))), k, r)
  {
    OpenColumnUnsettles(Apply(s, Other(P.PurgeVideo(k.video))), k, r);
  }

  /** The overlap happens: from empty stores, two calls read NULL, and once both have stored,
      the next one contradicts the first. */
  lemma OverlappingCallsDisagree(k: CacheKey, a: seq<Chapter>, b: seq<Chapter>) returns (es: seq<Event>)
    requires a != b
    ensures Reaches(INIT, es) && PurgeFree(es, k.video)
    ensures var t := After(INIT, es);
      && 0 in t.replies && t.replies[0] == Reply(k, Some(a))
      && 2 in t.replies && t.replies[2] == Reply(k, Some(b))
  {
    var t := Refresh(INIT, k);
    es := [Other(P.PutCaptions(k, []))];
    Extend(INIT, [], es[0]);
    assert [] + [es[0]] == es;
    Extend(INIT, es, Read(0, k));
    es := es + [Read(0, k)];
    Extend(INIT, es, Read(1, k));
    es := es + [Read(1, k)];
    assert After(INIT, es) == t.(pending := map[0 := k, 1 := k]);
    BothStore(t, k, a, b);
    Extend(INIT, es, Finish(0, Some(a)));
    es := es + [Finish(0, Some(a))];
    Extend(INIT, es, Finish(1, Some(b)));
    es := es + [Finish(1, Some(b))];
    Extend(INIT, es, Read(2, k));
    es := es + [Read(2, k)];
  }

  lemma BothStore(t: State, k: CacheKey, a: seq<Chapter>, b: seq<Chapter>)
    requires t.replies == map[] && GetTranscript(t.base.cache, k, t.base.now).Some?
    ensures var s0 := t.(pending := map[0 := k, 1 := k]);
      && Enabled(s0, Finish(0, Some(a)))
      && Enabled(Apply(s0, Finish(0, Some(a))), Finish(1, Some(b)))
      && var u := Apply(Apply(s0, Finish(0, Some(a))), Finish(1, Some(b)));
         && u.pending == map[] && u.replies == map[0 := Reply(k, Some(a)), 1 := Reply(k, Some(b))]
         && GetTranscript(u.base.cache, k, u.base.now).Some? && u.base.cache[k].chapters == Some(b)
  {
  }
}
