/**
 Credentialed requests at the grain of the principal store's lock: any number of
 handlers, each reading the request count, verifying its payment and then
 counting the request, interleaved in any order.
*/
module Metering {
  import opened Pricing
  import opened Config
  import Metered

  /** Where a handler is in the credentialed tier of serveMetered. */
  datatype Pc =
    | Arrived
    | Verifying
    | Counting
    | Forwarded(count: int)
    | Challenged(price: int)
    | Refused

  datatype Handler = Handler(principal: string, hasToken: bool, pc: Pc)

  /** What the store answered, in the order of its critical sections. */
  datatype Entry =
    | Quoted(principal: string, price: int)
    | Counted(principal: string, count: int)

  datatype State = State(counts: map<string, int>, handlers: map<nat, Handler>, history: seq<Entry>)

  datatype Event =
    | Create(principal: string)
    | Arrive(id: nat, principal: string, hasToken: bool)
    | Get(id: nat)
    | Verify(id: nat, verdict: Metered.Verdict)
    | Increment(id: nat)

  const INIT := State(map[], map[], [])

  predicate At(s: State, id: nat, pc: Pc) {
    id in s.handlers && s.handlers[id].pc == pc
  }

  function Goto(s: State, id: nat, pc: Pc): State
    requires id in s.handlers
  {
    s.(handlers := s.handlers[id := s.handlers[id].(pc := pc)])
  }

  /** GetPrincipal, and the price computed from what it returned. */
  function DoGet(c: CurveConfig, s: State, id: nat): State
    requires id in s.handlers
  {
    var h := s.handlers[id];
    if h.principal !in s.counts then Goto(s, id, Refused)
    else
      var price := Metered.NextPrice(c, s.counts[h.principal]);
      var s := s.(history := s.history + [Quoted(h.principal, price)]);
      Goto(s, id, if h.hasToken then Verifying else Challenged(price))
  }

  /** IncrementRequestCount: an unknown principal is not an error, and counts nothing. */
  function DoIncrement(s: State, id: nat): State
    requires id in s.handlers
  {
    var p := s.handlers[id].principal;
    if p !in s.counts then Goto(s, id, Forwarded(0))
    else
      var n := s.counts[p] + 1;
      Goto(s.(counts := s.counts[p := n], history := s.history + [Counted(p, n)]), id, Forwarded(n))
  }

  /** Events that cannot happen leave the state alone; random identifiers do not collide. */
  function Step(c: CurveConfig, s: State, e: Event): State {
    match e
    case Create(p) => if p in s.counts then s else s.(counts := s.counts[p := 0])
    case Arrive(id, p, hasToken) =>
      if id in s.handlers then s else s.(handlers := s.handlers[id := Handler(p, hasToken, Arrived)])
    case Get(id) => if At(s, id, Arrived) then DoGet(c, s, id) else s
    case Verify(id, verdict) =>
      if At(s, id, Verifying) then Goto(s, id, if verdict.Valid? then Counting else Refused) else s
    case Increment(id) => if At(s, id, Counting) then DoIncrement(s, id) else s
  }

  function Run(c: CurveConfig, s: State, events: seq<Event>): State
    decreases |events|
  {
    if events == [] then s else Run(c, Step(c, s, events[0]), events[1..])
  }

  // --- The history is that of a sequential meter ---

  /** How often a principal has been counted. */
  function Requests(history: seq<Entry>, p: string): nat {
    if history == [] then 0
    else
      var last := history[|history| - 1];
      Requests(history[..|history| - 1], p) + (if last.Counted? && last.principal == p then 1 else 0)
  }

  /** The answer a meter that serves one request at a time gives after `before`. */
  predicate Answers(c: CurveConfig, before: seq<Entry>, e: Entry) {
    match e
    case Quoted(p, price) => price == Metered.NextPrice(c, Requests(before, p))
    case Counted(p, count) => count == Requests(before, p) + 1
  }

  predicate Sequential(c: CurveConfig, history: seq<Entry>) {
    forall i :: 0 <= i < |history| ==> Answers(c, history[..i], history[i])
  }

  function ForwardedFor(s: State, p: string): set<nat> {
    set id | id in s.handlers && s.handlers[id].principal == p && s.handlers[id].pc.Forwarded?
  }

  ghost predicate Counts(s: State) {
    && (forall p :: p in s.counts ==> s.counts[p] == Requests(s.history, p))
    && (forall p :: p !in s.counts ==> Requests(s.history, p) == 0)
    && (forall id :: id in s.handlers && (s.handlers[id].pc.Verifying? || s.handlers[id].pc.Counting?) ==>
          s.handlers[id].principal in s.counts)
  }

  /** These forwarded requests carry the numbers 1 to k, each once. */
  predicate NumberedTo(handlers: map<nat, Handler>, ids: set<nat>, k: int) {
    && |ids| == k
    && (forall id :: id in ids ==> id in handlers && handlers[id].pc.Forwarded? && 1 <= handlers[id].pc.count <= k)
    && (forall i, j :: i in ids && j in ids && i != j ==> handlers[i].pc.count != handlers[j].pc.count)
  }

  ghost predicate Numbered(s: State) {
    forall p :: NumberedTo(s.handlers, ForwardedFor(s, p), Requests(s.history, p))
  }

  ghost predicate Inv(c: CurveConfig, s: State) {
    Sequential(c, s.history) && Counts(s) && Numbered(s)
  }

  lemma RequestsAppend(history: seq<Entry>, e: Entry, p: string)
    ensures Requests(history + [e], p) == Requests(history, p) + (if e.Counted? && e.principal == p then 1 else 0)
  {
    assert (history + [e])[..|history|] == history;
  }

  lemma SequentialAppend(c: CurveConfig, history: seq<Entry>, e: Entry)
    requires Sequential(c, history) && Answers(c, history, e)
    ensures Sequential(c, history + [e])
  {
    forall i | 0 <= i < |history + [e]| ensures Answers(c, (history + [e])[..i], (history + [e])[i]) {
      assert (history + [e])[..i] == history[..i];
    }
  }

  /** A move that forwards nothing and counts nothing. */
  lemma GotoKeepsNumbered(s: State, s': State, id: nat)
    requires Numbered(s)
    requires forall p :: Requests(s'.history, p) == Requests(s.history, p)
    requires s'.handlers.Keys == s.handlers.Keys + {id} && !s'.handlers[id].pc.Forwarded?
    requires id in s.handlers ==> !s.handlers[id].pc.Forwarded?
    requires forall other :: other in s.handlers && other != id ==> s'.handlers[other] == s.handlers[other]
    ensures Numbered(s')
  {
    hide Requests, NumberedTo;
    forall p ensures NumberedTo(s'.handlers, ForwardedFor(s', p), Requests(s'.history, p)) {
      assert ForwardedFor(s', p) == ForwardedFor(s, p);
      SameNumbers(s.handlers, s'.handlers, ForwardedFor(s, p), Requests(s.history, p));
    }
  }

  lemma SameNumbers(before: map<nat, Handler>, after: map<nat, Handler>, ids: set<nat>, k: int)
    requires NumberedTo(before, ids, k)
    requires forall id :: id in ids ==> id in before && id in after && after[id] == before[id]
    ensures NumberedTo(after, ids, k)
  {
  }

  lemma NextNumber(before: map<nat, Handler>, after: map<nat, Handler>, ids: set<nat>, k: int, id: nat)
    requires NumberedTo(before, ids, k) && id !in ids && id in after && after[id].pc == Forwarded(k + 1)
    requires forall other :: other in ids ==> other in before && other in after && after[other] == before[other]
    ensures NumberedTo(after, ids + {id}, k + 1)
  {
  }

  lemma GetKeepsInv(c: CurveConfig, s: State, id: nat)
    requires Inv(c, s) && At(s, id, Arrived)
    ensures Inv(c, DoGet(c, s, id))
  {
    hide Metered.NextPrice, Numbered;
    var s', p := DoGet(c, s, id), s.handlers[id].principal;
    if p in s.counts {
      var e := Quoted(p, Metered.NextPrice(c, s.counts[p]));
      forall q ensures Requests(s'.history, q) == Requests(s.history, q) { RequestsAppend(s.history, e, q); }
      SequentialAppend(c, s.history, e);
    }
    GotoKeepsNumbered(s, s', id);
  }

  lemma IncrementKeepsNumbered(s: State, id: nat)
    requires Counts(s) && Numbered(s) && At(s, id, Counting)
    requires var p := s.handlers[id].principal;
             forall q :: Requests(DoIncrement(s, id).history, q) == Requests(s.history, q) + (if q == p then 1 else 0)
    ensures Numbered(DoIncrement(s, id))
  {
    hide Requests, NumberedTo;
    var s', p := DoIncrement(s, id), s.handlers[id].principal;
    forall q ensures NumberedTo(s'.handlers, ForwardedFor(s', q), Requests(s'.history, q)) {
      assert NumberedTo(s.handlers, ForwardedFor(s, q), Requests(s.history, q));
      if q == p {
        assert ForwardedFor(s', q) == ForwardedFor(s, q) + {id};
        NextNumber(s.handlers, s'.handlers, ForwardedFor(s, q), Requests(s.history, q), id);
      } else {
        assert ForwardedFor(s', q) == ForwardedFor(s, q);
        SameNumbers(s.handlers, s'.handlers, ForwardedFor(s, q), Requests(s.history, q));
      }
    }
  }

  lemma IncrementKeepsInv(c: CurveConfig, s: State, id: nat)
    requires Inv(c, s) && At(s, id, Counting)
    ensures Inv(c, DoIncrement(s, id))
  {
    hide Metered.NextPrice, Numbered, Requests;
    var s', p := DoIncrement(s, id), s.handlers[id].principal;
    var e := Counted(p, s.counts[p] + 1);
    forall q ensures Requests(s'.history, q) == Requests(s.history, q) + (if q == p then 1 else 0) {
      RequestsAppend(s.history, e, q);
    }
    SequentialAppend(c, s.history, e);
    IncrementKeepsNumbered(s, id);
  }

  lemma StepKeepsInv(c: CurveConfig, s: State, e: Event)
    requires Inv(c, s)
    ensures Inv(c, Step(c, s, e))
  {
    hide NumberedTo, Metered.NextPrice, Requests;
    match e
    case Create(p) =>
      assert forall q :: ForwardedFor(Step(c, s, e), q) == ForwardedFor(s, q);
    case Arrive(id, p, hasToken) => if id !in s.handlers { GotoKeepsNumbered(s, Step(c, s, e), id); }
    case Get(id) => if At(s, id, Arrived) { GetKeepsInv(c, s, id); }
    case Verify(id, verdict) => if At(s, id, Verifying) { GotoKeepsNumbered(s, Step(c, s, e), id); }
    case Increment(id) => if At(s, id, Counting) { IncrementKeepsInv(c, s, id); }
  }

  lemma {:induction false} RunKeepsInv(c: CurveConfig, s: State, events: seq<Event>)
    requires Inv(c, s)
    ensures Inv(c, Run(c, s, events))
    decreases |events|
  {
    if events == [] {
    } else {
      StepKeepsInv(c, s, events[0]);
      RunKeepsInv(c, Step(c, s, events[0]), events[1..]);
    }
  }

  lemma InitInv(c: CurveConfig)
    ensures Inv(c, INIT)
  {
  }

  // --- Results ---

  /**
   No request is forwarded without being counted and none is counted twice: the
   requests forwarded for a principal are as many as its RequestCount, and the
   numbers that IncrementRequestCount gave them are 1 up to that count.
  */
  lemma NoLostMetering(c: CurveConfig, events: seq<Event>, p: string)
    ensures var s := Run(c, INIT, events);
            && (p in s.counts ==> s.counts[p] == |ForwardedFor(s, p)|)
            && (p !in s.counts ==> ForwardedFor(s, p) == {})
            && (forall id :: id in ForwardedFor(s, p) ==> 1 <= s.handlers[id].pc.count <= |ForwardedFor(s, p)|)
            && (forall i, j :: i in ForwardedFor(s, p) && j in ForwardedFor(s, p) && i != j ==>
                  s.handlers[i].pc.count != s.handlers[j].pc.count)
  {
    InitInv(c);
    RunKeepsInv(c, INIT, events);
  }

  /**
   Every interleaving is linearizable: each quoted price and each returned count
   is what a meter serving one request at a time would have answered there.
  */
  lemma EveryAnswerIsSequential(c: CurveConfig, events: seq<Event>, i: nat)
    requires i < |Run(c, INIT, events).history|
    ensures var history := Run(c, INIT, events).history;
            Answers(c, history[..i], history[i])
  {
    InitInv(c);
    RunKeepsInv(c, INIT, events);
  }

  lemma StepNeverLowers(c: CurveConfig, s: State, e: Event, p: string)
    requires p in s.counts
    ensures p in Step(c, s, e).counts && Step(c, s, e).counts[p] >= s.counts[p]
  {
  }

  lemma {:induction false} CountsNeverFall(c: CurveConfig, s: State, events: seq<Event>, p: string)
    requires p in s.counts
    ensures p in Run(c, s, events).counts && Run(c, s, events).counts[p] >= s.counts[p]
    decreases |events|
  {
    if events == [] {
    } else {
      StepNeverLowers(c, s, events[0], p);
      CountsNeverFall(c, Step(c, s, events[0]), events[1..], p);
    }
  }

  lemma {:induction false} RequestsGrow(history: seq<Entry>, i: nat, j: nat, p: string)
    requires i <= j <= |history|
    ensures Requests(history[..i], p) <= Requests(history[..j], p)
    decreases j
  {
    if i == j {
    } else {
      assert history[..j][..j - 1] == history[..j - 1];
      RequestsGrow(history, i, j - 1, p);
    }
  }

  /**
   In the order of the reads, the prices quoted to a principal do not fall, and
   rise exactly where a request of that principal was counted in between.
  */
  lemma QuotesRise(c: CurveConfig, events: seq<Event>, i: nat, j: nat, p: string)
    requires Sound(c) && i < j < |Run(c, INIT, events).history|
    requires Run(c, INIT, events).history[i].Quoted? && Run(c, INIT, events).history[i].principal == p
    requires Run(c, INIT, events).history[j].Quoted? && Run(c, INIT, events).history[j].principal == p
    requires c.escalationSlope * Requests(Run(c, INIT, events).history[..j], p) <= MAX_INT64 - c.floorTollSats
    ensures var history := Run(c, INIT, events).history;
            && history[i].price <= history[j].price
            && (history[i].price < history[j].price
                <==> Requests(history[..i], p) < Requests(history[..j], p))
  {
    var history := Run(c, INIT, events).history;
    EveryAnswerIsSequential(c, events, i);
    EveryAnswerIsSequential(c, events, j);
    RequestsGrow(history, i, j, p);
    var m, n := Requests(history[..i], p), Requests(history[..j], p);
    Metered.AtMostProduct(c.escalationSlope, n);
    CurvePrice64Rises(m + 1, n + 1, c.floorTollSats, c.escalationSlope);
  }

  /** Two handlers that read before either has counted are quoted one price between them. */
  lemma ConcurrentQuotesCoincide(c: CurveConfig)
    requires Sound(c)
    ensures var events := [Create("p"), Arrive(0, "p", false), Arrive(1, "p", false), Get(0), Get(1)];
            Run(c, INIT, events).history == [Quoted("p", c.floorTollSats), Quoted("p", c.floorTollSats)]
  {
    var s0 := Step(c, INIT, Create("p"));
    var s1 := Step(c, s0, Arrive(0, "p", false));
    var s2 := Step(c, s1, Arrive(1, "p", false));
    var s3 := Step(c, s2, Get(0));
    var s4 := Step(c, s3, Get(1));
    assert Run(c, s3, [Get(1)]) == s4;
    assert Run(c, s2, [Get(0), Get(1)]) == s4;
    assert Run(c, s1, [Arrive(1, "p", false), Get(0), Get(1)]) == s4;
    assert Run(c, s0, [Arrive(0, "p", false), Arrive(1, "p", false), Get(0), Get(1)]) == s4;
  }

  // --- The way of every handler ---

  /** Whether an event happens, or finds the handler elsewhere. */
  predicate Happens(s: State, e: Event) {
    match e
    case Create(p) => p !in s.counts
    case Arrive(id, _, _) => id !in s.handlers
    case Get(id) => At(s, id, Arrived)
    case Verify(id, _) => At(s, id, Verifying)
    case Increment(id) => At(s, id, Counting)
  }

  /** The events of a run that happen. */
  function Log(c: CurveConfig, s: State, events: seq<Event>): seq<Event>
    decreases |events|
  {
    if events == [] then []
    else (if Happens(s, events[0]) then [events[0]] else []) + Log(c, Step(c, s, events[0]), events[1..])
  }

  predicate Concerns(e: Event, id: nat) {
    !e.Create? && e.id == id
  }

  /** What has happened to one handler. */
  function Path(log: seq<Event>, id: nat): seq<Event> {
    if log == [] then []
    else
      var last := log[|log| - 1];
      Path(log[..|log| - 1], id) + (if Concerns(last, id) then [last] else [])
  }

  lemma PathAppend(log: seq<Event>, e: Event, id: nat)
    ensures Path(log + [e], id) == Path(log, id) + (if Concerns(e, id) then [e] else [])
  {
    assert (log + [e])[..|log|] == log;
  }

  /** The one way to each place, with what the handler got there. */
  predicate OnPath(id: nat, h: Handler, path: seq<Event>, history: seq<Entry>) {
    var arrived := [Arrive(id, h.principal, h.hasToken)];
    match h.pc
    case Arrived => path == arrived
    case Verifying => h.hasToken && path == arrived + [Get(id)]
    case Counting => h.hasToken && path == arrived + [Get(id), Verify(id, Metered.Valid)]
    case Forwarded(n) =>
      && h.hasToken && path == arrived + [Get(id), Verify(id, Metered.Valid), Increment(id)]
      && Counted(h.principal, n) in history
    case Challenged(price) =>
      !h.hasToken && path == arrived + [Get(id)] && Quoted(h.principal, price) in history
    case Refused =>
      || path == arrived + [Get(id)]
      || (h.hasToken && |path| == 3 && path[..2] == arrived + [Get(id)]
          && path[2].Verify? && path[2].id == id && !path[2].verdict.Valid?)
  }

  ghost predicate OnPaths(s: State, log: seq<Event>) {
    forall id :: if id in s.handlers then OnPath(id, s.handlers[id], Path(log, id), s.history) else Path(log, id) == []
  }

  /** A step of one handler moves it along its path and leaves the others where they are. */
  lemma MoveKeepsPaths(s: State, s': State, log: seq<Event>, e: Event, id: nat)
    requires OnPaths(s, log) && Concerns(e, id) && Counts(s)
    requires s'.handlers.Keys == s.handlers.Keys + {id}
    requires forall other :: other in s.handlers && other != id ==> s'.handlers[other] == s.handlers[other]
    requires forall x :: x in s.history ==> x in s'.history
    requires OnPath(id, s'.handlers[id], Path(log, id) + [e], s'.history)
    ensures OnPaths(s', log + [e])
  {
    hide Path, Counts;
    forall other
      ensures if other in s'.handlers then OnPath(other, s'.handlers[other], Path(log + [e], other), s'.history)
              else Path(log + [e], other) == []
    {
      PathAppend(log, e, other);
      if other != id && other in s.handlers {
        OnPathLater(other, s.handlers[other], Path(log, other), s.history, s'.history);
      }
    }
  }

  lemma OnPathLater(id: nat, h: Handler, path: seq<Event>, history: seq<Entry>, later: seq<Entry>)
    requires OnPath(id, h, path, history) && forall x :: x in history ==> x in later
    ensures OnPath(id, h, path, later)
  {
  }

  lemma CreateKeepsPaths(c: CurveConfig, s: State, log: seq<Event>, p: string)
    requires OnPaths(s, log)
    ensures OnPaths(Step(c, s, Create(p)), log + [Create(p)])
  {
    hide Path, OnPath;
    forall id ensures Path(log + [Create(p)], id) == Path(log, id) { PathAppend(log, Create(p), id); }
  }

  lemma StepKeepsPaths(c: CurveConfig, s: State, log: seq<Event>, e: Event)
    requires OnPaths(s, log) && Counts(s) && Happens(s, e)
    ensures OnPaths(Step(c, s, e), log + [e])
  {
    hide Path, OnPath, OnPaths, Counts, Metered.NextPrice;
    match e
    case Create(p) => CreateKeepsPaths(c, s, log, p);
    case Arrive(id, _, _) => ArriveKeepsPaths(c, s, log, e);
    case Get(id) => GetKeepsPaths(c, s, log, id);
    case Verify(id, verdict) => VerifyKeepsPaths(c, s, log, id, verdict);
    case Increment(id) => IncrementKeepsPaths(c, s, log, id);
  }

  lemma ArriveKeepsPaths(c: CurveConfig, s: State, log: seq<Event>, e: Event)
    requires OnPaths(s, log) && Counts(s) && e.Arrive? && e.id !in s.handlers
    ensures OnPaths(Step(c, s, e), log + [e])
  {
    hide Path, Counts;
    MoveKeepsPaths(s, Step(c, s, e), log, e, e.id);
  }

  lemma GetKeepsPaths(c: CurveConfig, s: State, log: seq<Event>, id: nat)
    requires OnPaths(s, log) && Counts(s) && At(s, id, Arrived)
    ensures OnPaths(DoGet(c, s, id), log + [Get(id)])
  {
    hide Path, Counts, Metered.NextPrice;
    assert OnPath(id, s.handlers[id], Path(log, id), s.history);
    MoveKeepsPaths(s, DoGet(c, s, id), log, Get(id), id);
  }

  lemma VerifyKeepsPaths(c: CurveConfig, s: State, log: seq<Event>, id: nat, verdict: Metered.Verdict)
    requires OnPaths(s, log) && Counts(s) && At(s, id, Verifying)
    ensures OnPaths(Step(c, s, Verify(id, verdict)), log + [Verify(id, verdict)])
  {
    hide Path, Counts;
    assert OnPath(id, s.handlers[id], Path(log, id), s.history);
    MoveKeepsPaths(s, Step(c, s, Verify(id, verdict)), log, Verify(id, verdict), id);
  }

  lemma IncrementKeepsPaths(c: CurveConfig, s: State, log: seq<Event>, id: nat)
    requires OnPaths(s, log) && Counts(s) && At(s, id, Counting)
    ensures OnPaths(DoIncrement(s, id), log + [Increment(id)])
  {
    hide Path, Requests;
    assert OnPath(id, s.handlers[id], Path(log, id), s.history);
    assert s.handlers[id].principal in s.counts;
    MoveKeepsPaths(s, DoIncrement(s, id), log, Increment(id), id);
  }

  lemma {:induction false} RunKeepsPaths(c: CurveConfig, s: State, log: seq<Event>, events: seq<Event>)
    requires OnPaths(s, log) && Inv(c, s)
    ensures OnPaths(Run(c, s, events), log + Log(c, s, events))
    decreases |events|
  {
    hide OnPaths, Inv, Step, Counts;
    if events == [] {
      assert log + [] == log;
    } else {
      var e := events[0];
      StepKeepsInv(c, s, e);
      if Happens(s, e) {
        InvCounts(c, s);
        StepKeepsPaths(c, s, log, e);
        RunKeepsPaths(c, Step(c, s, e), log + [e], events[1..]);
        assert (log + [e]) + Log(c, Step(c, s, e), events[1..]) == log + Log(c, s, events);
      } else {
        NothingHappens(c, s, e);
        RunKeepsPaths(c, s, log, events[1..]);
        assert Log(c, s, events) == Log(c, s, events[1..]);
      }
    }
  }

  lemma InvCounts(c: CurveConfig, s: State)
    requires Inv(c, s)
    ensures Counts(s)
  {
  }

  lemma NothingHappens(c: CurveConfig, s: State, e: Event)
    requires !Happens(s, e)
    ensures Step(c, s, e) == s
  {
  }

  /**
   In every run a handler that counts or has forwarded has read the count, had its
   payment found valid and, to forward, counted the request under the number it
   got; one that has been challenged was quoted that price; one that was refused
   found no account or had its payment found not valid.
  */
  lemma EveryHandlerIsOnPath(c: CurveConfig, events: seq<Event>, id: nat)
    requires id in Run(c, INIT, events).handlers
    ensures var s := Run(c, INIT, events);
            OnPath(id, s.handlers[id], Path(Log(c, INIT, events), id), s.history)
  {
    hide OnPath, Path, Log;
    var none: seq<Event> := [];
    InitInv(c);
    InitOnPaths();
    RunKeepsPaths(c, INIT, none, events);
    assert none + Log(c, INIT, events) == Log(c, INIT, events);
  }

  lemma InitOnPaths()
    ensures OnPaths(INIT, [])
  {
  }

  /** Counting for an account that is not there answers 0 and changes no count. */
  lemma UnknownIsNotCounted(c: CurveConfig, s: State, id: nat)
    requires At(s, id, Counting) && s.handlers[id].principal !in s.counts
    ensures var s' := Step(c, s, Increment(id));
            s'.handlers[id].pc == Forwarded(0) && s'.counts == s.counts && s'.history == s.history
  {
  }

  /** A handler is turned away when it reads the count exactly if there is no account. */
  lemma GetRefusesIff(c: CurveConfig, s: State, id: nat)
    requires At(s, id, Arrived)
    ensures Step(c, s, Get(id)).handlers[id].pc.Refused? <==> s.handlers[id].principal !in s.counts
  {
  }
}
