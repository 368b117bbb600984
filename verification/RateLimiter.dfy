/**
 The fixed-window rate limiter of one key: INCR, then a separate EXPIRE by whoever saw the
 count become 1. Calls interleave freely, and a caller may crash between the two steps.
 Times are clock ticks of any resolution; the key's TTL counts from the EXPIRE.
 */
module RateLimiter {
  import opened Wrappers

  type Caller = nat

  /** A stored counter; no expiry until its creator's EXPIRE. */
  datatype Counter = Counter(count: nat, expiresAt: Option<int>)

  /** An admitted call: when, and in which lifetime of the key. */
  datatype Admission = Admission(at: int, life: nat)

  datatype State = State(
    now: int,
    key: Option<Counter>,
    owing: set<Caller>,            // saw count 1, EXPIRE still to come
    births: seq<int>,              // history: when each lifetime of the key began
    admitted: seq<Admission>)      // history

  datatype Config = Config(limit: int, window: nat)

  datatype Event =
    | Incr(caller: Caller)
    | SetExpiry(caller: Caller)
    | CrashCaller(caller: Caller)
    | Tick(seconds: nat)
    | Lapse

  const INIT: State := State(0, None, {}, [], [])

  predicate Enabled(s: State, e: Event) {
    match e
    case Incr(p) => p !in s.owing
    case SetExpiry(p) => p in s.owing
    case CrashCaller(p) => p in s.owing
    case Tick(d) => s.key.Some? && s.key.value.expiresAt.Some? ==> s.now + d <= s.key.value.expiresAt.value
    case Lapse => s.key.Some? && s.key.value.expiresAt.Some? && s.now >= s.key.value.expiresAt.value
  }

  function Apply(cfg: Config, s: State, e: Event): State
    requires Enabled(s, e)
  {
    match e
    case Incr(p) =>
      var count := if s.key.Some? then s.key.value.count + 1 else 1;
      var births := if s.key.Some? then s.births else s.births + [s.now];
      State(s.now,
            Some(Counter(count, if s.key.Some? then s.key.value.expiresAt else None)),
            if count == 1 then s.owing + {p} else s.owing,
            births,
            if count > cfg.limit then s.admitted
            else s.admitted + [Admission(s.now, if |births| == 0 then 0 else |births| - 1)])
    case SetExpiry(p) =>
      s.(key := if s.key.Some? then Some(s.key.value.(expiresAt := Some(s.now + cfg.window))) else None,
         owing := s.owing - {p})
    case CrashCaller(p) => s.(owing := s.owing - {p})
    case Tick(d) => s.(now := s.now + d)
    case Lapse => s.(key := None)
  }

  ghost predicate Reaches(cfg: Config, s: State, es: seq<Event>)
    decreases |es|, 0
  {
    es == [] || (Reaches(cfg, s, es[..|es| - 1]) && Enabled(After(cfg, s, es[..|es| - 1]), es[|es| - 1]))
  }

  ghost function After(cfg: Config, s: State, es: seq<Event>): State
    requires Reaches(cfg, s, es)
    decreases |es|, 1
  {
    if es == [] then s else Apply(cfg, After(cfg, s, es[..|es| - 1]), es[|es| - 1])
  }

  // ---------- Counting admissions ----------

  function Positive(n: int): nat {
    if n < 0 then 0 else n
  }

  function InLife(a: seq<Admission>, life: nat): nat {
    if a == [] then 0 else InLife(a[..|a| - 1], life) + if a[|a| - 1].life == life then 1 else 0
  }

  /** How many calls were admitted in the half-open interval from `t` of the given length. */
  function Within(a: seq<Admission>, t: int, length: nat): nat {
    if a == [] then 0
    else Within(a[..|a| - 1], t, length) + if t <= a[|a| - 1].at < t + length then 1 else 0
  }

  /** Admissions of an interval that all fall in two lifetimes are counted there. */
  lemma {:induction false} WithinTwoLives(a: seq<Admission>, t: int, length: nat, life: nat)
    requires forall i | 0 <= i < |a| :: t <= a[i].at < t + length ==> a[i].life == life || a[i].life == life + 1
    ensures Within(a, t, length) <= InLife(a, life) + InLife(a, life + 1)
    ensures (exists i | 0 <= i < |a| :: a[i].life == life && a[i].at < t) ==>
              Within(a, t, length) < InLife(a, life) + InLife(a, life + 1)
    decreases |a|
  {
    if a != [] {
      var b := a[..|a| - 1];
      WithinTwoLives(b, t, length, life);
      if i :| 0 <= i < |a| && a[i].life == life && a[i].at < t {
        if i < |b| { assert b[i] == a[i]; }
      }
    }
  }

  lemma {:induction false} WithinOneLife(a: seq<Admission>, t: int, length: nat, life: nat)
    requires forall i | 0 <= i < |a| :: t <= a[i].at < t + length ==> a[i].life == life
    ensures Within(a, t, length) <= InLife(a, life)
    decreases |a|
  {
    if a != [] {
      WithinOneLife(a[..|a| - 1], t, length, life);
    }
  }

  lemma {:induction false} NoneWithin(a: seq<Admission>, t: int, length: nat)
    requires forall i | 0 <= i < |a| :: !(t <= a[i].at < t + length)
    ensures Within(a, t, length) == 0
    decreases |a|
  {
    if a != [] { NoneWithin(a[..|a| - 1], t, length); }
  }

  lemma {:induction false} InLifeNone(a: seq<Admission>, life: nat)
    requires forall i | 0 <= i < |a| :: a[i].life < life
    ensures InLife(a, life) == 0
    decreases |a|
  {
    if a != [] { InLifeNone(a[..|a| - 1], life); }
  }

  lemma InLifeSnoc(a: seq<Admission>, x: Admission, life: nat)
    ensures InLife(a + [x], life) == InLife(a, life) + if x.life == life then 1 else 0
  {
    assert (a + [x])[..|a + [x]| - 1] == a;
  }

  // ---------- The invariant ----------

  /** The key, its creator's debt, and the births of its lifetimes. */
  ghost predicate KeyInv(cfg: Config, s: State) {
    && (s.key.Some? ==> s.births != [] && s.key.value.count >= 1)
    && (forall p | p in s.owing :: s.key.Some? && s.key.value.expiresAt.None?)
    && (forall p, q | p in s.owing && q in s.owing :: p == q)
    && (forall i | 0 <= i < |s.births| :: s.births[i] <= s.now)
    && (forall i | 0 <= i < |s.births| - 1 :: s.births[i] + cfg.window <= s.births[i + 1])
    && (s.key.Some? && s.key.value.expiresAt.Some? ==>
        s.births[|s.births| - 1] + cfg.window <= s.key.value.expiresAt.value)
    && (s.key.None? && s.births != [] ==> s.births[|s.births| - 1] + cfg.window <= s.now)
  }

  /** Every admission lies inside its own lifetime. */
  predicate AdmissionOk(s: State, x: Admission) {
    && x.life < |s.births|
    && s.births[x.life] <= x.at <= s.now
    && (x.life + 1 < |s.births| ==> x.at <= s.births[x.life + 1])
  }

  /** No lifetime admits more than the limit, nor the current one more than its counter. */
  ghost predicate CountInv(cfg: Config, s: State) {
    && (forall life: nat :: InLife(s.admitted, life) <= Positive(cfg.limit))
    && (s.key.Some? && s.births != [] ==> InLife(s.admitted, |s.births| - 1) <= s.key.value.count)
  }

  /** The call that opened a lifetime was admitted, unless nothing ever is. */
  predicate OpenerAdmitted(s: State, life: nat)
    requires life < |s.births|
  {
    Admission(s.births[life], life) in s.admitted
  }

  ghost predicate Inv(cfg: Config, s: State) {
    && KeyInv(cfg, s)
    && (cfg.limit >= 1 ==> forall life | 0 <= life < |s.births| :: OpenerAdmitted(s, life))
    && (forall i | 0 <= i < |s.admitted| :: AdmissionOk(s, s.admitted[i]))
    && CountInv(cfg, s)
  }

  lemma IncrKeepsCounts(cfg: Config, s: State, p: Caller)
    requires Inv(cfg, s) && Enabled(s, Incr(p))
    ensures CountInv(cfg, Apply(cfg, s, Incr(p)))
  {
    var t := Apply(cfg, s, Incr(p));
    var life := |t.births| - 1;
    if s.key.None? {
      forall i | 0 <= i < |s.admitted|
        ensures s.admitted[i].life < life
      {
        assert AdmissionOk(s, s.admitted[i]);
      }
      InLifeNone(s.admitted, life);
    }
    if t.key.value.count <= cfg.limit {
      forall l: nat
        ensures InLife(t.admitted, l) == InLife(s.admitted, l) + if l == life then 1 else 0
      {
        InLifeSnoc(s.admitted, Admission(s.now, life), l);
      }
    }
  }

  lemma IncrKeepsAdmissions(cfg: Config, s: State, p: Caller, i: nat)
    requires KeyInv(cfg, s) && Enabled(s, Incr(p)) && i < |Apply(cfg, s, Incr(p)).admitted|
    requires i < |s.admitted| ==> AdmissionOk(s, s.admitted[i])
    ensures AdmissionOk(Apply(cfg, s, Incr(p)), Apply(cfg, s, Incr(p)).admitted[i])
  {
  }

  lemma IncrKeepsKey(cfg: Config, s: State, p: Caller)
    requires KeyInv(cfg, s) && Enabled(s, Incr(p))
    ensures KeyInv(cfg, Apply(cfg, s, Incr(p)))
  {
  }

  lemma IncrKeepsInv(cfg: Config, s: State, p: Caller)
    requires Inv(cfg, s) && Enabled(s, Incr(p))
    ensures Inv(cfg, Apply(cfg, s, Incr(p)))
  {
    var t := Apply(cfg, s, Incr(p));
    forall life | cfg.limit >= 1 && 0 <= life < |t.births|
      ensures OpenerAdmitted(t, life)
    {
      if life < |s.births| {
        assert OpenerAdmitted(s, life);
      } else {
        assert t.admitted[|s.admitted|] == Admission(t.births[life], life);
      }
    }
    IncrKeepsKey(cfg, s, p);
    IncrKeepsCounts(cfg, s, p);
    forall i | 0 <= i < |t.admitted|
      ensures AdmissionOk(t, t.admitted[i])
    {
      assert i < |s.admitted| ==> AdmissionOk(s, s.admitted[i]);
      IncrKeepsAdmissions(cfg, s, p, i);
    }
  }

  lemma QuietStepKeepsKey(cfg: Config, s: State, e: Event)
    requires KeyInv(cfg, s) && Enabled(s, e) && !e.Incr?
    ensures KeyInv(cfg, Apply(cfg, s, e))
    ensures Apply(cfg, s, e).admitted == s.admitted && Apply(cfg, s, e).births == s.births
    ensures s.now <= Apply(cfg, s, e).now
    ensures Apply(cfg, s, e).key.Some? ==> s.key.Some? && Apply(cfg, s, e).key.value.count == s.key.value.count
  {
  }

  lemma StepKeepsInv(cfg: Config, s: State, e: Event)
    requires Inv(cfg, s) && Enabled(s, e)
    ensures Inv(cfg, Apply(cfg, s, e))
  {
    if e.Incr? {
      IncrKeepsInv(cfg, s, e.caller);
    } else {
      QuietStepKeepsKey(cfg, s, e);
      forall life | cfg.limit >= 1 && 0 <= life < |s.births|
        ensures OpenerAdmitted(Apply(cfg, s, e), life)
      {
        assert OpenerAdmitted(s, life);
      }
      forall i | 0 <= i < |s.admitted|
        ensures AdmissionOk(Apply(cfg, s, e), s.admitted[i])
      {
        assert AdmissionOk(s, s.admitted[i]);
      }
    }
  }

  lemma {:induction false} RunKeepsInv(cfg: Config, es: seq<Event>)
    requires Reaches(cfg, INIT, es)
    ensures Inv(cfg, After(cfg, INIT, es))
    decreases |es|
  {
    if es != [] {
      RunKeepsInv(cfg, es[..|es| - 1]);
      StepKeepsInv(cfg, After(cfg, INIT, es[..|es| - 1]), es[|es| - 1]);
    }
  }

  /** At most `limit` calls are admitted in any one lifetime of the key. */
  lemma LifetimeAdmitsAtMostLimit(cfg: Config, es: seq<Event>, life: nat)
    requires Reaches(cfg, INIT, es)
    ensures InLife(After(cfg, INIT, es).admitted, life) <= Positive(cfg.limit)
  {
    RunKeepsInv(cfg, es);
  }

  lemma BirthsApart(cfg: Config, s: State, i: nat, j: nat)
    requires Inv(cfg, s) && i < j < |s.births|
    ensures s.births[i] + cfg.window <= s.births[j]
    decreases j
  {
    if i + 1 < j { BirthsApart(cfg, s, i, j - 1); }
  }

  /** In every run, any half-open interval one window long admits less than twice the limit. */
  lemma AnyWindowAdmitsLessThanTwiceLimit(cfg: Config, es: seq<Event>, t: int)
    requires Reaches(cfg, INIT, es)
    ensures Within(After(cfg, INIT, es).admitted, t, cfg.window) <= Positive(2 * cfg.limit - 1)
  {
    var s := After(cfg, INIT, es);
    RunKeepsInv(cfg, es);
    if exists i | 0 <= i < |s.admitted| :: t <= s.admitted[i].at < t + cfg.window {
      var life := FirstLifeWithin(s.admitted, t, cfg.window);
      forall i | 0 <= i < |s.admitted| && t <= s.admitted[i].at < t + cfg.window
        ensures s.admitted[i].life == life || s.admitted[i].life == life + 1
      {
        LaterLivesAreOutside(cfg, s, t, life, i);
      }
      WithinFromLife(cfg, s, t, life);
    } else {
      NoneWithin(s.admitted, t, cfg.window);
    }
  }

  /** Two lifetimes can share the interval only when the first began before it, and then
      the call that opened the first lies outside. */
  lemma WithinFromLife(cfg: Config, s: State, t: int, life: nat)
    requires Inv(cfg, s)
    requires exists i | 0 <= i < |s.admitted| :: t <= s.admitted[i].at < t + cfg.window && s.admitted[i].life == life
    requires forall i | 0 <= i < |s.admitted| && t <= s.admitted[i].at < t + cfg.window ::
               s.admitted[i].life == life || s.admitted[i].life == life + 1
    ensures Within(s.admitted, t, cfg.window) <= Positive(2 * cfg.limit - 1)
  {
    var k :| 0 <= k < |s.admitted| && t <= s.admitted[k].at < t + cfg.window && s.admitted[k].life == life;
    assert AdmissionOk(s, s.admitted[k]);
    SomeAdmissionNeedsLimit(s.admitted, k);
    assert InLife(s.admitted, life) <= Positive(cfg.limit) && InLife(s.admitted, life + 1) <= Positive(cfg.limit);
    if i :| 0 <= i < |s.admitted| && t <= s.admitted[i].at < t + cfg.window && s.admitted[i].life == life + 1 {
      assert AdmissionOk(s, s.admitted[i]);
      BirthsApart(cfg, s, life, life + 1);
      assert OpenerAdmitted(s, life);
      WithinTwoLives(s.admitted, t, cfg.window, life);
    } else {
      WithinOneLife(s.admitted, t, cfg.window, life);
    }
  }

  lemma {:induction false} SomeAdmissionNeedsLimit(a: seq<Admission>, k: nat)
    requires k < |a|
    ensures InLife(a, a[k].life) >= 1
    decreases |a|
  {
    if k < |a| - 1 { SomeAdmissionNeedsLimit(a[..|a| - 1], k); }
  }

  /** The lowest lifetime with an admission in the interval. */
  lemma {:induction false} FirstLifeWithin(a: seq<Admission>, t: int, length: nat) returns (life: nat)
    requires exists i | 0 <= i < |a| :: t <= a[i].at < t + length
    ensures exists i | 0 <= i < |a| :: t <= a[i].at < t + length && a[i].life == life
    ensures forall i | 0 <= i < |a| && t <= a[i].at < t + length :: life <= a[i].life
    decreases |a|
  {
    var n := |a| - 1;
    var last := a[n];
    if exists i | 0 <= i < n :: t <= a[..n][i].at < t + length {
      life := FirstLifeWithin(a[..n], t, length);
      var i :| 0 <= i < n && t <= a[..n][i].at < t + length && a[..n][i].life == life;
      assert a[i].life == life;
      assert forall j | 0 <= j < n :: a[j] == a[..n][j];
      if t <= last.at < t + length && last.life < life {
        life := last.life;
      }
    } else {
      life := last.life;
      assert forall j | 0 <= j < n :: a[j] == a[..n][j];
    }
  }

  lemma LaterLivesAreOutside(cfg: Config, s: State, t: int, life: nat, i: nat)
    requires Inv(cfg, s) && i < |s.admitted| && t <= s.admitted[i].at < t + cfg.window && life <= s.admitted[i].life
    requires exists k | 0 <= k < |s.admitted| :: t <= s.admitted[k].at < t + cfg.window && s.admitted[k].life == life
    ensures s.admitted[i].life <= life + 1
  {
    var k :| 0 <= k < |s.admitted| && t <= s.admitted[k].at < t + cfg.window && s.admitted[k].life == life;
    assert AdmissionOk(s, s.admitted[i]) && AdmissionOk(s, s.admitted[k]);
    if s.admitted[i].life > life + 1 {
      BirthsApart(cfg, s, life + 1, s.admitted[i].life);
      assert false;
    }
  }

  // ---------- The bound is exact ----------

  lemma LastApart(a: seq<Event>, b: seq<Event>)
    requires b != []
    ensures a + b == a + b[..|b| - 1] + [b[|b| - 1]]
  {
  }

  lemma {:induction false} ReachesThen(cfg: Config, s: State, a: seq<Event>, b: seq<Event>)
    requires Reaches(cfg, s, a) && Reaches(cfg, After(cfg, s, a), b)
    ensures Reaches(cfg, s, a + b) && After(cfg, s, a + b) == After(cfg, After(cfg, s, a), b)
    decreases |b|
  {
    if b == [] {
      assert a + b == a;
    } else {
      var n := |b| - 1;
      ReachesThen(cfg, s, a, b[..n]);
      Extend(cfg, s, a + b[..n], b[n]);
      LastApart(a, b);
    }
  }

  lemma Extend(cfg: Config, s: State, es: seq<Event>, e: Event)
    requires Reaches(cfg, s, es) && Enabled(After(cfg, s, es), e)
    ensures Reaches(cfg, s, es + [e]) && After(cfg, s, es + [e]) == Apply(cfg, After(cfg, s, es), e)
  {
    assert (es + [e])[..|es + [e]| - 1] == es;
  }

  /** `n` further calls of one caller, all within the limit of a live window. */
  lemma {:induction false} CallMany(cfg: Config, s: State, n: nat) returns (es: seq<Event>)
    requires s.owing == {} && s.key.Some? && 1 <= s.key.value.count <= cfg.limit - n && s.births != []
    ensures Reaches(cfg, s, es)
    ensures var t := After(cfg, s, es);
      && t.owing == {} && t.now == s.now && t.births == s.births
      && t.key == Some(s.key.value.(count := s.key.value.count + n))
      && forall from: int, length: nat :: Within(t.admitted, from, length) ==
           Within(s.admitted, from, length) + if from <= s.now < from + length then n else 0
  {
    es := [];
    if n > 0 {
      es := CallMany(cfg, s, n - 1);
      var t := After(cfg, s, es);
      Extend(cfg, s, es, Incr(0));
      es := es + [Incr(0)];
      forall from: int, length: nat
        ensures Within(Apply(cfg, t, Incr(0)).admitted, from, length) ==
                Within(t.admitted, from, length) + if from <= s.now < from + length then 1 else 0
      {
        var a := t.admitted;
        var x := Admission(t.now, |t.births| - 1);
        assert (a + [x])[..|a + [x]| - 1] == a;
      }
    }
  }

  /** A caller opens a window and sets its expiry. */
  lemma OpenWindow(cfg: Config, s: State) returns (es: seq<Event>)
    requires s.owing == {} && s.key.None? && cfg.limit >= 1
    ensures Reaches(cfg, s, es)
    ensures var t := After(cfg, s, es);
      && t.owing == {} && t.now == s.now && t.births != []
      && t.key == Some(Counter(1, Some(s.now + cfg.window)))
      && forall from: int, length: nat :: Within(t.admitted, from, length) ==
           Within(s.admitted, from, length) + if from <= s.now < from + length then 1 else 0
  {
    Extend(cfg, s, [], Incr(0));
    es := [] + [Incr(0)];
    var t := Apply(cfg, s, Incr(0));
    Extend(cfg, s, es, SetExpiry(0));
    es := es + [SetExpiry(0)];
    assert After(cfg, s, es) == Apply(cfg, t, SetExpiry(0));
    forall from: int, length: nat
      ensures Within(t.admitted, from, length) ==
              Within(s.admitted, from, length) + if from <= s.now < from + length then 1 else 0
    {
      assert (s.admitted + [t.admitted[|s.admitted|]])[..|t.admitted| - 1] == s.admitted;
    }
  }

  /** One call, a burst as the window ends and a full burst of the next window fit into
      one window's length. */
  lemma BoundIsReached(cfg: Config) returns (es: seq<Event>)
    requires cfg.limit >= 1 && cfg.window >= 1
    ensures Reaches(cfg, INIT, es)
    ensures Within(After(cfg, INIT, es).admitted, cfg.window, cfg.window) == 2 * cfg.limit - 1
  {
    es := OpenWindow(cfg, INIT);
    var s := After(cfg, INIT, es);
    Extend(cfg, INIT, es, Tick(cfg.window));
    es := es + [Tick(cfg.window)];
    s := Apply(cfg, s, Tick(cfg.window));
    var burst := CallMany(cfg, s, cfg.limit - 1);
    ReachesThen(cfg, INIT, es, burst);
    es := es + burst;
    s := After(cfg, s, burst);
    Extend(cfg, INIT, es, Lapse);
    es := es + [Lapse];
    s := Apply(cfg, s, Lapse);
    var open := OpenWindow(cfg, s);
    ReachesThen(cfg, INIT, es, open);
    es := es + open;
    s := After(cfg, s, open);
    var again := CallMany(cfg, s, cfg.limit - 1);
    ReachesThen(cfg, INIT, es, again);
    es := es + again;
    assert Within(INIT.admitted, cfg.window, cfg.window) == 0;
  }

  /** What a sliding window promises: no interval one window long admits more than the limit. */
  ghost predicate Slides(cfg: Config) {
    forall es: seq<Event>, t: int | Reaches(cfg, INIT, es) ::
      Within(After(cfg, INIT, es).admitted, t, cfg.window) <= Positive(cfg.limit)
  }

  /** The limiter acts as a sliding window exactly for limits up to one (or a window of no
      length at all). */
  lemma SlidesIffLimitAtMostOne(cfg: Config)
    ensures Slides(cfg) <==> cfg.limit <= 1 || cfg.window == 0
  {
    if cfg.limit <= 1 || cfg.window == 0 {
      forall es: seq<Event>, t: int | Reaches(cfg, INIT, es)
        ensures Within(After(cfg, INIT, es).admitted, t, cfg.window) <= Positive(cfg.limit)
      {
        if cfg.window == 0 {
          NoneWithin(After(cfg, INIT, es).admitted, t, 0);
        } else {
          AnyWindowAdmitsLessThanTwiceLimit(cfg, es, t);
        }
      }
    } else {
      var es := BoundIsReached(cfg);
      assert !(Within(After(cfg, INIT, es).admitted, cfg.window, cfg.window) <= Positive(cfg.limit));
    }
  }

  // ---------- A crash before EXPIRE ----------

  /** The key has no TTL and nobody is left to set one. */
  predicate Stuck(s: State) {
    s.key.Some? && s.key.value.expiresAt.None? && s.owing == {}
  }

  /** A caller that crashes between INCR and EXPIRE leaves the key without a TTL for good:
      from then on its principal is admitted only what was left of that one window. */
  lemma {:induction false} CrashedWindowNeverReopens(cfg: Config, s: State, es: seq<Event>)
    requires Inv(cfg, s) && Stuck(s) && Reaches(cfg, s, es)
    ensures Stuck(After(cfg, s, es)) && After(cfg, s, es).births == s.births
    ensures After(cfg, s, es).key.value.count >= s.key.value.count
    ensures |After(cfg, s, es).admitted| <= |s.admitted| + Positive(cfg.limit - s.key.value.count)
    ensures |After(cfg, s, es).admitted| - |s.admitted| <= After(cfg, s, es).key.value.count - s.key.value.count
    decreases |es|
  {
    if es != [] {
      CrashedWindowNeverReopens(cfg, s, es[..|es| - 1]);
    }
  }

  /** Only a crash of the caller that opened the window gets a key stuck. */
  lemma StepToStuck(cfg: Config, s: State, e: Event)
    requires KeyInv(cfg, s) && Enabled(s, e)
    ensures Stuck(Apply(cfg, s, e)) <==> Stuck(s) || e.CrashCaller?
  {
  }

  /** A crash can happen only between INCR and EXPIRE of the call that opened the window.
      A run leaves the key without a TTL, and nobody to set one, exactly when it contains
      such a crash; so a run without one always has an expiry set or about to be. */
  lemma {:induction false} StuckIffOpenerCrashed(cfg: Config, es: seq<Event>)
    requires Reaches(cfg, INIT, es)
    ensures Stuck(After(cfg, INIT, es)) <==> exists i | 0 <= i < |es| :: es[i].CrashCaller?
    decreases |es|
  {
    if es != [] {
      var before, e := es[..|es| - 1], es[|es| - 1];
      StuckIffOpenerCrashed(cfg, before);
      RunKeepsInv(cfg, before);
      StepToStuck(cfg, After(cfg, INIT, before), e);
      assert forall i | 0 <= i < |before| :: before[i] == es[i];
    }
  }

  /** One crash, from an empty store. */
  lemma OneCrashGetsStuck(cfg: Config, p: Caller)
    ensures Reaches(cfg, INIT, [Incr(p), CrashCaller(p)])
    ensures Stuck(After(cfg, INIT, [Incr(p), CrashCaller(p)]))
  {
    var es := [Incr(p), CrashCaller(p)];
    assert es[..1] == [Incr(p)];
    assert es[..1][..0] == [];
    var s1 := Apply(cfg, INIT, Incr(p));
    assert After(cfg, INIT, es[..1]) == s1;
  }

  // ---------- The call as the routes make it ----------

  datatype Outcome = Admitted | RateLimited(retryAfter: int)

  /** An undisturbed call as the machine makes it: INCR, and EXPIRE if it opened the window. */
  function WholeCall(cfg: Config, s: State, p: Caller): State
    requires p !in s.owing
  {
    var t := Apply(cfg, s, Incr(p));
    if p in t.owing then Apply(cfg, t, SetExpiry(p)) else t
  }

  class Limiter {
    var clock: int
    var keys: map<string, Counter>

    constructor ()
      ensures Valid() && keys == map[] && clock == 0
    {
      clock, keys := 0, map[];
    }

    predicate Valid()
      reads this
    {
      forall k | k in keys :: keys[k].count >= 1
    }

    /** A key whose expiry has come counts as absent. */
    ghost function Live(k: string): Option<Counter>
      reads this
    {
      if k in keys && (keys[k].expiresAt.Some? ==> clock < keys[k].expiresAt.value) then Some(keys[k]) else None
    }

    method Increment(k: string) returns (count: nat)
      requires Valid()
      modifies this`keys
      ensures Valid()
      ensures count == (if old(Live(k)).Some? then old(Live(k)).value.count else 0) + 1
      ensures Live(k) == Some(Counter(count, if old(Live(k)).Some? then old(Live(k)).value.expiresAt else None))
      ensures keys == old(keys)[k := keys[k]]
    {
      if k in keys && (keys[k].expiresAt.None? || clock < keys[k].expiresAt.value) {
        count := keys[k].count + 1;
        keys := keys[k := keys[k].(count := count)];
      } else {
        count := 1;
        keys := keys[k := Counter(1, None)];
      }
    }

    method SetTtl(k: string, window: nat)
      requires k in keys
      modifies this`keys
      ensures keys == old(keys)[k := old(keys)[k].(expiresAt := Some(clock + window))]
    {
      keys := keys[k := keys[k].(expiresAt := Some(clock + window))];
    }

    /** Seconds left, or -1 without an expiry. */
    method Ttl(k: string) returns (ttl: int)
      requires k in keys
      ensures ttl == if keys[k].expiresAt.Some? then keys[k].expiresAt.value - clock else -1
    {
      ttl := if keys[k].expiresAt.Some? then keys[k].expiresAt.value - clock else -1;
    }

    /** Count the call; admit it while the window's count is within the limit. A refused
        caller is told to come back when the window ends. On its key this is an undisturbed
        call of the machine. */
    method Enforce(k: string, limit: int, window: nat) returns (r: Outcome)
      requires Valid() && window > 0
      modifies this`keys
      ensures Valid()
      ensures var before := if old(Live(k)).Some? then old(Live(k)).value.count else 0;
        && (r.Admitted? <==> before < limit)
        && Live(k).Some? && Live(k).value.count == before + 1
        && (old(Live(k)).None? ==> Live(k).value.expiresAt == Some(clock + window))
        && (old(Live(k)).Some? ==> Live(k).value.expiresAt == old(Live(k)).value.expiresAt)
      ensures r.RateLimited? ==>
                && r.retryAfter > 0
                && r.retryAfter == (match Live(k).value.expiresAt
                                    case Some(t) => t - clock
                                    case None => window)
      ensures forall other | other != k && other in old(keys) :: other in keys && keys[other] == old(keys)[other]
      ensures var t := WholeCall(Config(limit, window), State(clock, old(Live(k)), {}, [], []), 0);
        Live(k) == t.key && (r.Admitted? <==> t.admitted != [])
    {
      var count := Increment(k);
      if count == 1 {
        SetTtl(k, window);
      }
      if count > limit {
        var ttl := Ttl(k);
        return RateLimited(if ttl > 0 then ttl else window);
      }
      return Admitted;
    }
  }
}
