/**
 The per-IP rate limiter in front of the challenges: a token bucket per address,
 kept in a map from which addresses not seen for ten minutes are swept.
*/
module Limiter {
  import opened Config

  const EVICT_AFTER: real := 600.0

  datatype Bucket = Bucket(tokens: real, last: real)

  /** ipLimiter. */
  datatype Entry = Entry(bucket: Bucket, lastSeen: real)

  type Limiters = map<string, Entry>

  predicate Sane(p: RateLimitConfig) {
    p.requestsPerSecond > 0.0 && p.burst > 0
  }

  /** What the sustained rate brings in a while. */
  function Refill(p: RateLimitConfig, elapsed: real): real {
    elapsed * p.requestsPerSecond
  }

  /** A validated rate limit is one that the results below are about. */
  lemma ValidatedIsSane(cfg: Config)
    requires Complaint(cfg).None? && cfg.rateLimit.Some?
    ensures Sane(cfg.rateLimit.value)
  {
    NoComplaintIff(cfg);
  }

  /** The tokens in the bucket at `now`: refilled at the sustained rate, up to the burst. */
  function Level(p: RateLimitConfig, b: Bucket, now: real): real {
    var elapsed := if now < b.last then 0.0 else now - b.last;
    var tokens := b.tokens + Refill(p, elapsed);
    if tokens > p.burst as real then p.burst as real else tokens
  }

  /** Allow: one token, or a denial that leaves the bucket as it was. */
  function Take(p: RateLimitConfig, b: Bucket, now: real): (Bucket, bool) {
    var level := Level(p, b, now);
    if level >= 1.0 then (Bucket(level - 1.0, now), true) else (b, false)
  }

  /** getLimiter and Allow, at one reading of the clock. */
  function Request(p: RateLimitConfig, m: Limiters, ip: string, now: real): (Limiters, bool) {
    var b := if ip in m then m[ip].bucket else Bucket(p.burst as real, now);
    var (b', ok) := Take(p, b, now);
    (m[ip := Entry(b', now)], ok)
  }

  /** One round of the cleanup. */
  function Swept(m: Limiters, now: real): Limiters {
    map ip | ip in m && !(m[ip].lastSeen < now - EVICT_AFTER) :: m[ip]
  }

  datatype Event = Challenge(ip: string, now: real) | Sweep(now: real)

  function After(p: RateLimitConfig, m: Limiters, e: Event, evict: bool): Limiters {
    match e
    case Challenge(ip, now) => Request(p, m, ip, now).0
    case Sweep(now) => if evict then Swept(m, now) else m
  }

  function Run(p: RateLimitConfig, m: Limiters, events: seq<Event>, evict: bool): Limiters
    decreases |events|
  {
    if events == [] then m else Run(p, After(p, m, events[0], evict), events[1..], evict)
  }

  /** The verdicts in the order of the requests. */
  function Answers(p: RateLimitConfig, m: Limiters, events: seq<Event>, evict: bool): seq<bool>
    decreases |events|
  {
    if events == [] then []
    else
      (match events[0]
       case Challenge(ip, now) => [Request(p, m, ip, now).1]
       case Sweep(_) => [])
      + Answers(p, After(p, m, events[0], evict), events[1..], evict)
  }

  /** The clock does not go back, and ends no later than `until`. */
  predicate Timely(events: seq<Event>, from: real, until: real) {
    if events == [] then from <= until
    else from <= events[0].now && Timely(events[1..], events[0].now, until)
  }

  // --- Sweeping goes unnoticed ---

  predicate WellFormed(m: Limiters, now: real) {
    forall ip :: ip in m ==> m[ip].bucket.tokens >= 0.0 && m[ip].bucket.last <= m[ip].lastSeen <= now
  }

  lemma RefillGrows(p: RateLimitConfig, a: real, b: real)
    requires Sane(p) && a <= b
    ensures Refill(p, a) <= Refill(p, b)
    ensures Refill(p, b) == Refill(p, a) + Refill(p, b - a)
    ensures Refill(p, 0.0) == 0.0
  {
  }

  lemma LevelGrows(p: RateLimitConfig, b: Bucket, t: real, u: real)
    requires Sane(p) && b.last <= t <= u
    ensures Level(p, b, t) <= Level(p, b, u) <= Level(p, b, t) + Refill(p, u - t)
  {
    hide Refill;
    RefillGrows(p, t - b.last, u - b.last);
    assert u - b.last - (t - b.last) == u - t;
  }

  /** Ten minutes refill any bucket, provided the burst is no more than they bring. */
  lemma StaleIsFull(p: RateLimitConfig, e: Entry, now: real)
    requires Sane(p) && p.burst as real <= Refill(p, EVICT_AFTER)
    requires e.bucket.tokens >= 0.0 && e.bucket.last <= e.lastSeen < now - EVICT_AFTER
    ensures Level(p, e.bucket, now) == p.burst as real
  {
    hide Refill;
    RefillGrows(p, EVICT_AFTER, now - e.bucket.last);
    RefillGrows(p, 0.0, now - e.bucket.last);
  }

  /** What the swept map lacks is full in the map that keeps everything. */
  predicate Agree(p: RateLimitConfig, swept: Limiters, kept: Limiters, now: real) {
    && (forall ip :: ip in swept ==> ip in kept && kept[ip] == swept[ip])
    && (forall ip :: ip in kept && ip !in swept ==> Level(p, kept[ip].bucket, now) == p.burst as real)
  }

  lemma AgreeLater(p: RateLimitConfig, swept: Limiters, kept: Limiters, now: real, later: real)
    requires Sane(p) && Agree(p, swept, kept, now) && WellFormed(kept, now) && now <= later
    ensures Agree(p, swept, kept, later) && WellFormed(kept, later)
  {
    forall ip | ip in kept && ip !in swept ensures Level(p, kept[ip].bucket, later) == p.burst as real {
      LevelGrows(p, kept[ip].bucket, now, later);
    }
  }

  lemma StepAgrees(p: RateLimitConfig, swept: Limiters, kept: Limiters, e: Event)
    requires Sane(p) && p.burst as real <= Refill(p, EVICT_AFTER)
    requires Agree(p, swept, kept, e.now) && WellFormed(kept, e.now)
    ensures Agree(p, After(p, swept, e, true), After(p, kept, e, false), e.now)
    ensures WellFormed(After(p, kept, e, false), e.now)
    ensures e.Challenge? ==> Request(p, swept, e.ip, e.now).1 == Request(p, kept, e.ip, e.now).1
  {
    if e.Sweep? {
      forall ip | ip in swept && ip !in Swept(swept, e.now)
        ensures Level(p, kept[ip].bucket, e.now) == p.burst as real
      {
        StaleIsFull(p, kept[ip], e.now);
      }
    }
  }

  lemma {:induction false} SweepingGoesUnnoticed(
    p: RateLimitConfig, swept: Limiters, kept: Limiters, events: seq<Event>, from: real, until: real)
    requires Sane(p) && p.burst as real <= Refill(p, EVICT_AFTER)
    requires Agree(p, swept, kept, from) && WellFormed(kept, from) && Timely(events, from, until)
    ensures Answers(p, swept, events, true) == Answers(p, kept, events, false)
    decreases |events|
  {
    if events == [] {
    } else {
      var e := events[0];
      AgreeLater(p, swept, kept, from, e.now);
      StepAgrees(p, swept, kept, e);
      SweepingGoesUnnoticed(p, After(p, swept, e, true), After(p, kept, e, false), events[1..], e.now, until);
    }
  }

  // --- Unless the burst is larger ---

  lemma {:induction false} AnswersAppend(
    p: RateLimitConfig, m: Limiters, first: seq<Event>, second: seq<Event>, evict: bool)
    ensures Answers(p, m, first + second, evict) ==
            Answers(p, m, first, evict) + Answers(p, Run(p, m, first, evict), second, evict)
    decreases |first|
  {
    if first == [] {
      assert first + second == second;
    } else {
      assert (first + second)[1..] == first[1..] + second;
      AnswersAppend(p, After(p, m, first[0], evict), first[1..], second, evict);
    }
  }

  /** n requests from one address at one moment. */
  function Volley(ip: string, now: real, n: nat): seq<Event> {
    if n == 0 then [] else [Challenge(ip, now)] + Volley(ip, now, n - 1)
  }

  function Available(p: RateLimitConfig, m: Limiters, ip: string, now: real): real {
    if ip in m then Level(p, m[ip].bucket, now) else p.burst as real
  }

  lemma RequestTakesAToken(p: RateLimitConfig, m: Limiters, ip: string, now: real)
    requires Sane(p)
    ensures var (m', ok) := Request(p, m, ip, now);
            && (ok <==> Available(p, m, ip, now) >= 1.0)
            && Available(p, m', ip, now) == Available(p, m, ip, now) - (if ok then 1.0 else 0.0)
  {
  }

  lemma VolleyAnswers(p: RateLimitConfig, m: Limiters, ip: string, now: real, n: nat, evict: bool)
    requires n > 0
    ensures var (m', ok) := Request(p, m, ip, now);
            && Answers(p, m, Volley(ip, now, n), evict) == [ok] + Answers(p, m', Volley(ip, now, n - 1), evict)
            && Run(p, m, Volley(ip, now, n), evict) == Run(p, m', Volley(ip, now, n - 1), evict)
  {
    assert Volley(ip, now, n)[1..] == Volley(ip, now, n - 1);
  }

  /** A volley of n is let through exactly if n tokens are there. */
  lemma {:induction false} VolleyPassesIff(p: RateLimitConfig, m: Limiters, ip: string, now: real, n: nat, evict: bool)
    requires Sane(p) && Available(p, m, ip, now) >= 0.0
    ensures (false !in Answers(p, m, Volley(ip, now, n), evict)) <==> n as real <= Available(p, m, ip, now)
    ensures n as real <= Available(p, m, ip, now) ==>
              Available(p, Run(p, m, Volley(ip, now, n), evict), ip, now) == Available(p, m, ip, now) - n as real
    decreases n
  {
    if n == 0 {
    } else {
      hide Request, Available;
      RequestTakesAToken(p, m, ip, now);
      VolleyAnswers(p, m, ip, now, n, evict);
      VolleyPassesIff(p, Request(p, m, ip, now).0, ip, now, n - 1, evict);
    }
  }

  lemma {:induction false} VolleyIsSeen(p: RateLimitConfig, m: Limiters, ip: string, now: real, n: nat, evict: bool)
    requires Sane(p) && n > 0 && WellFormed(m, now)
    ensures var m' := Run(p, m, Volley(ip, now, n), evict);
            WellFormed(m', now) && ip in m' && m'[ip].lastSeen == now
    decreases n
  {
    var m' := Request(p, m, ip, now).0;
    VolleyAnswers(p, m, ip, now, n, evict);
    if n > 1 { VolleyIsSeen(p, m', ip, now, n - 1, evict); }
  }

  lemma {:induction false} VolleyIsTimely(ip: string, now: real, n: nat, rest: seq<Event>, from: real, until: real)
    requires from <= now && Timely(rest, now, until)
    ensures Timely(Volley(ip, now, n) + rest, from, until)
    decreases n
  {
    if n == 0 {
      assert Volley(ip, now, 0) + rest == rest;
    } else {
      VolleyIsTimely(ip, now, n - 1, rest, now, until);
      assert (Volley(ip, now, n) + rest)[1..] == Volley(ip, now, n - 1) + rest;
    }
  }

  /** Drain the bucket, be swept before it has refilled, and drain a second one. */
  function Respray(p: RateLimitConfig, gap: real): seq<Event>
    requires Sane(p)
  {
    Volley("", 0.0, p.burst) + ([Sweep(gap)] + Volley("", gap, p.burst))
  }

  lemma ResprayAnswers(p: RateLimitConfig, gap: real, evict: bool)
    requires Sane(p)
    ensures var drained := Run(p, map[], Volley("", 0.0, p.burst), evict);
            Answers(p, map[], Respray(p, gap), evict) ==
            Answers(p, map[], Volley("", 0.0, p.burst), evict)
            + Answers(p, After(p, drained, Sweep(gap), evict), Volley("", gap, p.burst), evict)
  {
    AnswersAppend(p, map[], Volley("", 0.0, p.burst), [Sweep(gap)] + Volley("", gap, p.burst), evict);
    assert ([Sweep(gap)] + Volley("", gap, p.burst))[1..] == Volley("", gap, p.burst);
  }

  lemma ResprayIsNoticed(p: RateLimitConfig, gap: real)
    requires Sane(p) && gap > EVICT_AFTER && Refill(p, gap) < p.burst as real
    ensures Answers(p, map[], Respray(p, gap), true) != Answers(p, map[], Respray(p, gap), false)
  {
    ResprayPasses(p, gap);
    ResprayIsStopped(p, gap);
  }

  lemma ResprayPasses(p: RateLimitConfig, gap: real)
    requires Sane(p) && gap > EVICT_AFTER
    ensures false !in Answers(p, map[], Respray(p, gap), true)
  {
    var drained := Run(p, map[], Volley("", 0.0, p.burst), true);
    ResprayAnswers(p, gap, true);
    VolleyPassesIff(p, map[], "", 0.0, p.burst, true);
    VolleyIsSeen(p, map[], "", 0.0, p.burst, true);
    VolleyPassesIff(p, Swept(drained, gap), "", gap, p.burst, true);
  }

  lemma ResprayIsStopped(p: RateLimitConfig, gap: real)
    requires Sane(p) && gap > EVICT_AFTER && Refill(p, gap) < p.burst as real
    ensures false in Answers(p, map[], Respray(p, gap), false)
  {
    var drained := Run(p, map[], Volley("", 0.0, p.burst), false);
    ResprayAnswers(p, gap, false);
    VolleyPassesIff(p, map[], "", 0.0, p.burst, false);
    VolleyIsSeen(p, map[], "", 0.0, p.burst, false);
    LevelGrows(p, drained[""].bucket, 0.0, gap);
    RefillGrows(p, 0.0, gap - drained[""].bucket.last);
    VolleyPassesIff(p, drained, "", gap, p.burst, false);
  }

  predicate Unnoticed(p: RateLimitConfig, events: seq<Event>, until: real) {
    Timely(events, 0.0, until) ==> Answers(p, map[], events, true) == Answers(p, map[], events, false)
  }

  /**
   Forgetting an address changes no verdict, whatever the traffic and whenever the
   cleanup comes round, exactly if ten minutes at the sustained rate bring the burst.
  */
  lemma SweepingUnnoticedIff(p: RateLimitConfig)
    requires Sane(p)
    ensures (forall events, until :: Unnoticed(p, events, until))
            <==> p.burst as real <= 600.0 * p.requestsPerSecond
  {
    RefillIs(p, EVICT_AFTER);
    if p.burst as real <= Refill(p, EVICT_AFTER) {
      forall events, until ensures Unnoticed(p, events, until) {
        if Timely(events, 0.0, until) { SweepingGoesUnnoticed(p, map[], map[], events, 0.0, until); }
      }
    } else {
      var gap := Between(p);
      VolleyIsTimely("", gap, p.burst, [], gap, gap);
      assert Volley("", gap, p.burst) + [] == Volley("", gap, p.burst);
      assert ([Sweep(gap)] + Volley("", gap, p.burst))[1..] == Volley("", gap, p.burst);
      VolleyIsTimely("", 0.0, p.burst, [Sweep(gap)] + Volley("", gap, p.burst), 0.0, gap);
      ResprayIsNoticed(p, gap);
      assert !Unnoticed(p, Respray(p, gap), gap);
    }
  }

  lemma Between(p: RateLimitConfig) returns (gap: real)
    requires Sane(p) && p.burst as real > Refill(p, EVICT_AFTER)
    ensures gap > EVICT_AFTER && Refill(p, gap) < p.burst as real
  {
    gap := MidWay(EVICT_AFTER, p.requestsPerSecond, p.burst as real);
  }

  lemma MidWay(t: real, rate: real, amount: real) returns (later: real)
    requires rate > 0.0 && t * rate < amount
    ensures later > t && later * rate < amount
  {
    var spare := (amount - t * rate) / (2.0 * rate);
    later := t + spare;
    assert spare * (2.0 * rate) == amount - t * rate;
    assert spare > 0.0;
    assert later * rate == t * rate + spare * rate;
  }

  // --- How much gets through ---

  /** The requests of one address that were let through. */
  function Granted(p: RateLimitConfig, m: Limiters, events: seq<Event>, evict: bool, ip: string): nat
    decreases |events|
  {
    if events == [] then 0
    else
      var e := events[0];
      (if e.Challenge? && e.ip == ip && Request(p, m, ip, e.now).1 then 1 else 0)
      + Granted(p, After(p, m, e, evict), events[1..], evict, ip)
  }

  lemma StepIsWellFormed(p: RateLimitConfig, m: Limiters, e: Event, evict: bool, from: real)
    requires Sane(p) && WellFormed(m, from) && from <= e.now
    ensures WellFormed(After(p, m, e, evict), e.now)
  {
  }

  lemma AvailableGrows(p: RateLimitConfig, m: Limiters, ip: string, t: real, u: real)
    requires Sane(p) && WellFormed(m, t) && t <= u
    ensures Available(p, m, ip, u) <= Available(p, m, ip, t) + Refill(p, u - t)
  {
    hide Refill;
    RefillGrows(p, 0.0, u - t);
    if ip in m { LevelGrows(p, m[ip].bucket, t, u); }
  }

  lemma StepGrants(p: RateLimitConfig, m: Limiters, e: Event, evict: bool, ip: string)
    requires Sane(p) && (evict ==> p.burst as real <= Refill(p, EVICT_AFTER))
    requires WellFormed(m, e.now)
    ensures Available(p, After(p, m, e, evict), ip, e.now) ==
            Available(p, m, ip, e.now)
            - (if e.Challenge? && e.ip == ip && Request(p, m, ip, e.now).1 then 1.0 else 0.0)
  {
    hide Refill;
    match e
    case Challenge(other, now) =>
      RequestTakesAToken(p, m, other, now);
    case Sweep(now) =>
      if evict && ip in m && m[ip].lastSeen < now - EVICT_AFTER { StaleIsFull(p, m[ip], now); }
  }

  lemma {:induction false} GrantedIsRefilled(
    p: RateLimitConfig, m: Limiters, events: seq<Event>, evict: bool, ip: string, from: real, until: real)
    requires Sane(p) && (evict ==> p.burst as real <= Refill(p, EVICT_AFTER))
    requires WellFormed(m, from) && Timely(events, from, until)
    ensures Granted(p, m, events, evict, ip) as real
            <= Available(p, m, ip, from) + Refill(p, until - from)
    decreases |events|
  {
    hide Refill;
    if events == [] {
      RefillGrows(p, 0.0, until - from);
      AvailableIsNonNegative(p, m, ip, from);
    } else {
      hide Available, WellFormed, Request, After;
      var e := events[0];
      TimelyEnds(events[1..], e.now, until);
      StepIsWellFormed(p, m, e, evict, from);
      AvailableGrows(p, m, ip, from, e.now);
      WellFormedLater(m, from, e.now);
      StepGrants(p, m, e, evict, ip);
      GrantedIsRefilled(p, After(p, m, e, evict), events[1..], evict, ip, e.now, until);
      RefillGrows(p, e.now - from, until - from);
      assert until - from - (e.now - from) == until - e.now;
    }
  }

  lemma AvailableIsNonNegative(p: RateLimitConfig, m: Limiters, ip: string, now: real)
    requires Sane(p) && WellFormed(m, now)
    ensures Available(p, m, ip, now) >= 0.0
  {
    hide Refill;
    if ip in m { RefillGrows(p, 0.0, now - m[ip].bucket.last); }
  }

  lemma WellFormedLater(m: Limiters, now: real, later: real)
    requires WellFormed(m, now) && now <= later
    ensures WellFormed(m, later)
  {
  }

  lemma {:induction false} TimelyEnds(events: seq<Event>, from: real, until: real)
    requires Timely(events, from, until)
    ensures from <= until
  {
    if events == [] {
    } else {
      TimelyEnds(events[1..], events[0].now, until);
    }
  }

  lemma RefillIs(p: RateLimitConfig, elapsed: real)
    ensures Refill(p, elapsed) == p.requestsPerSecond * elapsed
  {
  }

  /**
   However the requests and the sweeps fall, one address gets no more than a burst
   plus the sustained rate times the time that has passed.
  */
  lemma GrantedIsBounded(
    p: RateLimitConfig, m: Limiters, events: seq<Event>, evict: bool, ip: string, from: real, until: real)
    requires Sane(p) && (evict ==> p.burst as real <= 600.0 * p.requestsPerSecond)
    requires WellFormed(m, from) && Timely(events, from, until)
    ensures Granted(p, m, events, evict, ip) as real <= p.burst as real + p.requestsPerSecond * (until - from)
  {
    hide Refill, Granted;
    RefillIs(p, EVICT_AFTER);
    RefillIs(p, until - from);
    GrantedIsRefilled(p, m, events, evict, ip, from, until);
    AvailableIsAtMostBurst(p, m, ip, from);
  }

  lemma AvailableIsAtMostBurst(p: RateLimitConfig, m: Limiters, ip: string, now: real)
    ensures Available(p, m, ip, now) <= p.burst as real
  {
  }

  /** An address that is not kept may send a burst at once, and no more. */
  lemma FreshVolleyPassesIff(p: RateLimitConfig, m: Limiters, ip: string, now: real, n: nat, evict: bool)
    requires Sane(p) && ip !in m
    ensures (false !in Answers(p, m, Volley(ip, now, n), evict)) <==> n <= p.burst
  {
    hide Answers;
    VolleyPassesIff(p, m, ip, now, n, evict);
  }

  /** After a burst, what passes is what the sustained rate has brought since, up to another burst. */
  lemma DrainedVolleyPassesIff(p: RateLimitConfig, ip: string, now: real, later: real, n: nat)
    requires Sane(p) && now <= later
    ensures (false !in Answers(p, Run(p, map[], Volley(ip, now, p.burst), false), Volley(ip, later, n), false))
            <==> n <= p.burst && n as real <= p.requestsPerSecond * (later - now)
  {
    hide Refill, Answers, Run, Available;
    var drained := Run(p, map[], Volley(ip, now, p.burst), false);
    RefillIs(p, later - now);
    RefillGrows(p, 0.0, later - now);
    DrainedAvailable(p, ip, now, later);
    VolleyPassesIff(p, drained, ip, later, n, false);
  }

  lemma DrainedAvailable(p: RateLimitConfig, ip: string, now: real, later: real)
    requires Sane(p) && now <= later
    ensures Available(p, Run(p, map[], Volley(ip, now, p.burst), false), ip, later) ==
            if Refill(p, later - now) > p.burst as real then p.burst as real else Refill(p, later - now)
  {
    hide Refill, Answers, Run, Level;
    var drained := Run(p, map[], Volley(ip, now, p.burst), false);
    VolleyPassesIff(p, map[], ip, now, p.burst, false);
    VolleyIsSeen(p, map[], ip, now, p.burst, false);
    EmptyLevel(p, drained[ip].bucket, now, later);
  }

  /** A bucket that is empty at some time holds what has come in since. */
  lemma EmptyLevel(p: RateLimitConfig, b: Bucket, now: real, later: real)
    requires Sane(p) && b.last <= now <= later && Level(p, b, now) == 0.0
    ensures Level(p, b, later) ==
            if Refill(p, later - now) > p.burst as real then p.burst as real else Refill(p, later - now)
  {
    hide Refill;
    RefillGrows(p, now - b.last, later - b.last);
    assert later - b.last - (now - b.last) == later - now;
  }

  /** Whoever has waited for one token's time is let through, whatever was before. */
  lemma WaitingIsEnough(p: RateLimitConfig, m: Limiters, ip: string, last: real, now: real)
    requires Sane(p) && WellFormed(m, last) && last <= now && p.requestsPerSecond * (now - last) >= 1.0
    ensures Request(p, m, ip, now).1
  {
    hide Refill;
    RefillIs(p, now - last);
    RefillGrows(p, 0.0, 0.0);
    if ip in m {
      var b := m[ip].bucket;
      RefillGrows(p, now - last, now - b.last);
      assert Level(p, b, now) >= 1.0;
    }
  }

  // --- The map as the handler keeps it ---

  class IpLimiters {
    const policy: RateLimitConfig
    var limiters: Limiters

    constructor (policy: RateLimitConfig)
      ensures this.policy == policy && limiters == map[]
    {
      this.policy, limiters := policy, map[];
    }

    /** getLimiter(ip).Allow(). */
    method Allow(ip: string, now: real) returns (ok: bool)
      modifies this
      ensures (limiters, ok) == Request(policy, old(limiters), ip, now)
    {
      if ip !in limiters {
        limiters := limiters[ip := Entry(Bucket(policy.burst as real, now), now)];
      }
      limiters := limiters[ip := limiters[ip].(lastSeen := now)];
      var b := limiters[ip].bucket;
      var tokens := Level(policy, b, now) - 1.0;
      ok := tokens >= 0.0;
      if ok {
        limiters := limiters[ip := limiters[ip].(bucket := Bucket(tokens, now))];
      }
      assert limiters == old(limiters)[ip := limiters[ip]];
    }

    /** One tick of startLimiterCleanup. */
    method Cleanup(now: real)
      modifies this
      ensures limiters == Swept(old(limiters), now)
    {
      var cutoff := now - EVICT_AFTER;
      var left := limiters.Keys;
      while left != {}
        invariant left <= limiters.Keys <= old(limiters).Keys
        invariant forall ip :: ip in limiters ==> limiters[ip] == old(limiters)[ip]
        invariant forall ip :: ip in old(limiters) && ip !in left ==>
                    (ip in limiters <==> !(old(limiters)[ip].lastSeen < cutoff))
        decreases |left|
      {
        var ip :| ip in left;
        left := left - {ip};
        if limiters[ip].lastSeen < cutoff {
          limiters := limiters - {ip};
        }
      }
    }
  }
}
