/**
 How far the results about the metered proxy reach: the revenue floor, single use
 and the loss of payments, each with the condition under which all runs keep it
 and a run that breaks it otherwise.
*/
module Limits {
  import opened Wrappers
  import opened Stores
  import opened Pricing
  import opened Config
  import opened Credentials
  import opened Wire
  import opened Sums
  import opened Names
  import opened Metered

  // --- Revenue ---

  function SettledPrices(invoices: map<string, Invoice>): map<string, int> {
    map k | k in invoices && invoices[k].settled :: invoices[k].price
  }

  /** The satoshis that have arrived at the lnd node. */
  ghost function Received(s: State): int {
    SumValues(SettledPrices(s.invoices))
  }

  lemma {:induction false} LedgerRevenue(
    c: CurveConfig, ledger: seq<Purchase>, foreign: set<string>, prices: map<string, int>)
    requires Distinct(ledger) && Sound(c)
    requires forall x :: x in ledger ==> x.key in prices
    requires forall x :: x in ledger && x.key !in foreign ==> prices[x.key] >= Cheapest(c)
    requires forall x :: x in ledger && x.use.Enrolling? ==> prices[x.key] == c.enrollmentStakeSats
    requires forall k :: k in prices ==> prices[k] >= 0
    ensures SumValues(prices) >=
            c.enrollmentStakeSats * Enrollments(ledger) + Cheapest(c) * OwnForwards(ledger, foreign)
  {
    if ledger == [] {
      SumNonNegative(prices);
    } else {
      var rest, last := ledger[..|ledger| - 1], ledger[|ledger| - 1];
      assert forall x :: x in rest ==> x.key != last.key;
      LedgerRevenue(c, rest, foreign, prices - {last.key});
      SumWithout(prices, last.key);
      LastPurchase(c, ledger, rest, last, foreign, prices[last.key]);
    }
  }

  lemma LastPurchase(
    c: CurveConfig, ledger: seq<Purchase>, rest: seq<Purchase>, last: Purchase, foreign: set<string>, price: int)
    requires Sound(c) && price >= 0 && (last.key !in foreign ==> price >= Cheapest(c))
    requires last.use.Enrolling? ==> price == c.enrollmentStakeSats
    requires ledger == rest + [last]
    ensures c.enrollmentStakeSats * Enrollments(rest) + Cheapest(c) * OwnForwards(rest, foreign) + price
            >= c.enrollmentStakeSats * Enrollments(ledger) + Cheapest(c) * OwnForwards(ledger, foreign)
  {
    CountAppend(rest, last, IsEnrolling);
    CountAppend(rest, last, x => IsOwnForward(x, foreign));
    Distribute(c.enrollmentStakeSats, Enrollments(rest), Enrollments(ledger) - Enrollments(rest));
    Distribute(Cheapest(c), OwnForwards(rest, foreign), OwnForwards(ledger, foreign) - OwnForwards(rest, foreign));
  }

  predicate OnlyOwn(ledger: seq<Purchase>, foreign: set<string>) {
    forall x :: x in ledger ==> x.key !in foreign
  }

  lemma {:induction false} OwnForwardsAreAll(ledger: seq<Purchase>, foreign: set<string>)
    requires OnlyOwn(ledger, foreign)
    ensures OwnForwards(ledger, foreign) == Forwards(ledger)
  {
    if ledger == [] {
    } else {
      OwnForwardsAreAll(ledger[..|ledger| - 1], foreign);
    }
  }

  /** What the operator may count on, for the payments that the store remembers. */
  ghost predicate FloorMet(c: CurveConfig, s: State) {
    Received(s) >= c.enrollmentStakeSats * Enrollments(Live(s)) + Cheapest(c) * Forwards(Live(s))
  }

  /**
   Whatever clients do, in whatever order, the operator has received a stake for
   every enrollment and at least the cheaper of floor and stake for every forward
   that was paid with an invoice of the proxy.
  */
  lemma RevenueFloor(c: CurveConfig, durable: bool, events: seq<Event>)
    requires Sound(c) && NeverUnderpriced(c, Run(c, Init(durable), events))
    ensures var s := Run(c, Init(durable), events);
            && Received(s) >= c.enrollmentStakeSats * Enrollments(Live(s))
                              + Cheapest(c) * OwnForwards(Live(s), s.foreign)
            && (OnlyOwn(Live(s), s.foreign) ==> FloorMet(c, s))
  {
    InitInv(c, durable);
    RunKeepsInv(c, Init(durable), events);
    var s := Run(c, Init(durable), events);
    LedgerRevenue(c, Live(s), s.foreign, SettledPrices(s.invoices));
    if OnlyOwn(Live(s), s.foreign) { OwnForwardsAreAll(Live(s), s.foreign); }
  }

  /** Invoices of somebody else on the same node are worth at least this; None: there are none. */
  predicate WorthAtLeast(events: seq<Event>, worth: Option<nat>) {
    forall e :: e in events && e.ForeignInvoice? ==> worth.Some? && e.amount >= worth.value
  }

  /** No principal is forwarded more often than this. */
  ghost predicate AtMost(s: State, limit: nat) {
    forall p :: ForwardsOf(Everything(s), p) <= limit
  }

  predicate ForeignWorth(s: State, worth: Option<nat>) {
    forall k :: k in s.foreign ==> worth.Some? && k in s.invoices && s.invoices[k].price >= worth.value
  }

  lemma StepKeepsWorth(c: CurveConfig, s: State, e: Event, worth: Option<nat>)
    requires ForeignWorth(s, worth) && (e.ForeignInvoice? ==> worth.Some? && e.amount >= worth.value)
    ensures ForeignWorth(Step(c, s, e), worth)
  {
    hide Serve;
    if e.Http? { ServeFrame(c, s, e.req, e.env.On(BackendOf(s))); }
  }

  lemma {:induction false} RunKeepsWorth(c: CurveConfig, s: State, events: seq<Event>, worth: Option<nat>)
    requires ForeignWorth(s, worth) && WorthAtLeast(events, worth)
    ensures ForeignWorth(Run(c, s, events), worth)
    decreases |events|
  {
    hide Step;
    if events == [] {
    } else {
      StepKeepsWorth(c, s, events[0], worth);
      RunKeepsWorth(c, Step(c, s, events[0]), events[1..], worth);
    }
  }

  /** Foreign invoices that are worth the cheapest price do no harm, nor do prices that never drop below it. */
  lemma FloorHolds(c: CurveConfig, durable: bool, events: seq<Event>, limit: nat, worth: Option<nat>)
    requires Sound(c) && SafeUpTo(c, limit) && (worth.Some? ==> worth.value >= Cheapest(c))
    requires WorthAtLeast(events, worth) && AtMost(Run(c, Init(durable), events), limit)
    ensures FloorMet(c, Run(c, Init(durable), events))
  {
    hide SafeUpTo, Step, Cheapest;
    InitInv(c, durable);
    RunKeepsInv(c, Init(durable), events);
    RunKeepsWorth(c, Init(durable), events, worth);
    var s := Run(c, Init(durable), events);
    forall p ensures SafeUpTo(c, ForwardsOf(Everything(s), p)) {
      SafeBelow(c, ForwardsOf(Everything(s), p), limit);
    }
    LedgerRevenue(c, Live(s), {}, SettledPrices(s.invoices));
    OwnForwardsAreAll(Live(s), {});
  }

  // --- Runs, one event after the other ---

  lemma {:induction false} RunAppend(c: CurveConfig, s: State, events: seq<Event>, e: Event)
    ensures Run(c, s, events + [e]) == Step(c, Run(c, s, events), e)
    decreases |events|
  {
    hide Step;
    if events == [] {
      assert events + [e] == [e] && [e][1..] == [];
      assert Run(c, Step(c, s, e), []) == Step(c, s, e);
    } else {
      assert (events + [e])[1..] == events[1..] + [e];
      RunAppend(c, Step(c, s, events[0]), events[1..], e);
    }
  }

  /** Within one process, among the proxy's own invoices, and without failures. */
  predicate Plain(e: Event) {
    !e.ForeignInvoice? && !e.Restart? && (e.Http? ==> e.env.markFault.NoFault? && !e.env.randomFails)
  }

  predicate AllPlain(events: seq<Event>) {
    forall e :: e in events ==> Plain(e)
  }

  ghost predicate Leads(c: CurveConfig, durable: bool, events: seq<Event>, s: State) {
    AllPlain(events) && Run(c, Init(durable), events) == s
  }

  ghost predicate Reached(c: CurveConfig, durable: bool, s: State) {
    Inv(c, s) && s.past == [] && s.durable == durable && exists events :: Leads(c, durable, events, s)
  }

  lemma StepKeepsPast(c: CurveConfig, s: State, e: Event)
    requires !e.Restart?
    ensures Step(c, s, e).past == s.past
  {
    hide Serve;
    if e.Http? { ServeFrame(c, s, e.req, e.env.On(BackendOf(s))); }
  }

  lemma StepReaches(c: CurveConfig, durable: bool, s: State, e: Event)
    requires Sound(c) && Reached(c, durable, s) && Plain(e)
    ensures Reached(c, durable, Step(c, s, e))
  {
    hide Inv, Step;
    var events :| Leads(c, durable, events, s);
    RunAppend(c, Init(durable), events, e);
    assert Leads(c, durable, events + [e], Step(c, s, e));
    StepKeepsInv(c, s, e);
    StepKeepsDurable(c, s, e);
    StepKeepsPast(c, s, e);
  }

  lemma InitReached(c: CurveConfig, durable: bool)
    ensures Reached(c, durable, Init(durable))
  {
    InitInv(c, durable);
    assert Leads(c, durable, [], Init(durable));
  }

  // --- Purchases ---

  /** Names not taken yet, and no failure. */
  ghost function Quiet(s: State): Env {
    Env(Unseen(s.invoices.Keys), Unseen(Identifiers(s.minted)), true, false, false, NoFault, NoFault, false)
  }

  /** A challenge has been issued for this price and its invoice paid. */
  function Paid(s: State, key: string, price: int, kind: Kind): State {
    s.(invoices := s.invoices[key := Invoice(price, true)],
       minted := s.minted + {(RootKey(s.epoch), key)},
       pendingEnrollments := if kind.Enrollment? then s.pendingEnrollments + {key} else s.pendingEnrollments,
       challenged := if kind.Enrollment? then s.challenged + {key} else s.challenged)
  }

  lemma AskAndPay(c: CurveConfig, durable: bool, s: State, req: Request, price: int, kind: Kind) returns (key: string)
    requires Sound(c) && Reached(c, durable, s) && price > 0
    requires req.credential.Credential? ==> Derivable(req.credential.m.signature, s.minted)
    requires Serve(c, s, req, Quiet(s)) == Challenge(s, price, kind, Quiet(s))
    ensures key !in s.invoices && key !in s.used && key !in s.pendingEnrollments
    ensures Reached(c, durable, Paid(s, key, price, kind))
  {
    hide Serve, Reached;
    key := Unseen(s.invoices.Keys);
    UnseenIsNew(s.invoices.Keys);
    UnseenIsNew(Identifiers(s.minted));
    NewKeyIsUnused(c, durable, s, key);
    var e := Http(req, Quiet(s));
    assert Quiet(s).On(BackendOf(s)) == Quiet(s);
    StepReaches(c, durable, s, e);
    var s1 := Step(c, s, e);
    assert s1 == Challenge(s, price, kind, Quiet(s)).0;
    StepReaches(c, durable, s1, Settle(key));
    assert s1.invoices[key := Invoice(price, true)] == s.invoices[key := Invoice(price, true)];
    assert Step(c, s1, Settle(key)) == Paid(s, key, price, kind);
  }

  lemma NewKeyIsUnused(c: CurveConfig, durable: bool, s: State, key: string)
    requires Reached(c, durable, s) && key !in s.invoices
    ensures key !in s.used && key !in s.pendingEnrollments
  {
    assert forall x :: x in Live(s) ==> x in Everything(s);
  }

  /** A paid key is handed in. */
  lemma Redeem(c: CurveConfig, durable: bool, s: State, ip: string, credential: Presented, key: string, use: Use)
    requires Sound(c) && Reached(c, durable, s)
    requires credential.Credential? ==> Derivable(credential.m.signature, s.minted)
    requires Serve(c, s, Request(ip, credential, Token(key, true)), Quiet(s)).0 == Spend(s, key, use)
    ensures Reached(c, durable, Spend(s, key, use))
  {
    hide Serve, Reached, Spend;
    UnseenIsNew(s.invoices.Keys);
    UnseenIsNew(Identifiers(s.minted));
    assert Quiet(s).On(BackendOf(s)) == Quiet(s);
    StepReaches(c, durable, s, Http(Request(ip, credential, Token(key, true)), Quiet(s)));
  }

  /** What has come in above the floor so far. */
  ghost function Slack(c: CurveConfig, s: State): int {
    Received(s) - c.enrollmentStakeSats * Enrollments(s.ledger) - Cheapest(c) * Forwards(s.ledger)
  }

  lemma PurchaseSlack(c: CurveConfig, s: State, s': State, key: string, price: int, use: Use)
    requires key !in s.invoices && s'.invoices == s.invoices[key := Invoice(price, true)]
    requires s'.ledger == s.ledger + [Purchase(key, use)] && (use.Anonymous? || use.ForPrincipal?)
    ensures Slack(c, s') == Slack(c, s) + price - Cheapest(c)
    ensures forall q :: ForwardsOf(s'.ledger, q) == ForwardsOf(s.ledger, q) + (if use == ForPrincipal(q) then 1 else 0)
  {
    var x := Purchase(key, use);
    assert SettledPrices(s'.invoices) == SettledPrices(s.invoices)[key := price];
    SumUpdate(SettledPrices(s.invoices), key, price);
    CountAppend(s.ledger, x, IsEnrolling);
    CountAppend(s.ledger, x, IsAnonymous);
    CountAppend(s.ledger, x, IsForPrincipal);
    Distribute(Cheapest(c), Forwards(s.ledger), 1);
    forall q { CountAppend(s.ledger, x, y => IsFor(y, q)); }
  }

  ghost predicate Uncounted(s: State) {
    forall q :: ForwardsOf(s.ledger, q) == 0
  }

  /** One anonymous request, challenged, paid and forwarded. */
  lemma BuyAnonymously(c: CurveConfig, durable: bool, s: State, ip: string) returns (s': State)
    requires Sound(c) && Reached(c, durable, s) && AnonCount(s, ip) < c.anonymousCap && Uncounted(s)
    ensures Reached(c, durable, s') && Uncounted(s')
    ensures forall other :: AnonCount(s', other) == AnonCount(s, other) + (if other == ip then 1 else 0)
  {
    hide Reached;
    var key := AskAndPay(c, durable, s, Request(ip, NoCredential, NoToken), c.floorTollSats, Toll);
    var s1 := Paid(s, key, c.floorTollSats, Toll);
    Redeem(c, durable, s1, ip, NoCredential, key, Anonymous(ip));
    s' := Spend(s1, key, Anonymous(ip));
    PurchaseSlack(c, s, s', key, c.floorTollSats, Anonymous(ip));
  }

  /** Requests from one address up to the cap. */
  lemma {:induction false} ReachCap(c: CurveConfig, durable: bool, ip: string, k: nat) returns (s: State)
    requires Sound(c) && k <= c.anonymousCap
    ensures Reached(c, durable, s) && Uncounted(s)
    ensures forall other :: AnonCount(s, other) == (if other == ip then k else 0)
  {
    hide Reached;
    if k == 0 {
      s := Init(durable);
      InitReached(c, durable);
    } else {
      s := ReachCap(c, durable, ip, k - 1);
      s := BuyAnonymously(c, durable, s, ip);
    }
  }

  /** p has an account and a credential, and is alone in having been counted, n times. */
  ghost predicate Holds(s: State, p: string, n: nat) {
    && p in s.principals && (CredentialKey(s.epoch), p) in s.minted
    && forall q :: ForwardsOf(s.ledger, q) == if q == p then n else 0
  }

  /** An address at the cap is challenged for the stake, pays it and enrolls. */
  lemma EnrollFrom(c: CurveConfig, durable: bool, s: State, ip: string) returns (s': State, p: string)
    requires Sound(c) && Reached(c, durable, s) && Uncounted(s) && AnonCount(s, ip) == c.anonymousCap
    ensures Reached(c, durable, s') && Holds(s', p, 0) && s'.anonCounts == s.anonCounts
  {
    hide Reached;
    var key := AskAndPay(c, durable, s, Request(ip, NoCredential, NoToken), c.enrollmentStakeSats, Enrollment);
    var s1 := Paid(s, key, c.enrollmentStakeSats, Enrollment);
    p := Quiet(s1).newPrincipal;
    Redeem(c, durable, s1, ip, NoCredential, key, Enrolling(p));
    s' := Spend(s1, key, Enrolling(p));
    EnrollingCountsNobody(s.ledger, key, p);
  }

  lemma EnrollingCountsNobody(ledger: seq<Purchase>, key: string, p: string)
    ensures forall q :: ForwardsOf(ledger + [Purchase(key, Enrolling(p))], q) == ForwardsOf(ledger, q)
  {
    forall q { CountAppend(ledger, Purchase(key, Enrolling(p)), y => IsFor(y, q)); }
  }

  lemma EnrollOne(c: CurveConfig, durable: bool, ip: string) returns (s: State, p: string)
    requires Sound(c)
    ensures Reached(c, durable, s) && Holds(s, p, 0)
    ensures forall other :: other != ip ==> AnonCount(s, other) == 0
  {
    hide Reached, Holds;
    var s0 := ReachCap(c, durable, ip, c.anonymousCap);
    s, p := EnrollFrom(c, durable, s0, ip);
    assert forall other :: AnonCount(s, other) == AnonCount(s0, other);
  }

  function Of(s: State, p: string): Presented {
    Credential(MintCredential(s.epoch, p))
  }

  /** A floor invoice asked for anonymously and handed in with a credential. */
  lemma BuyAsMember(c: CurveConfig, durable: bool, s: State, p: string, n: nat, ip: string) returns (s': State)
    requires Sound(c) && Reached(c, durable, s) && Holds(s, p, n) && AnonCount(s, ip) < c.anonymousCap
    ensures Reached(c, durable, s') && Holds(s', p, n + 1) && AnonCount(s', ip) == AnonCount(s, ip)
  {
    hide Reached;
    var key := AskAndPay(c, durable, s, Request(ip, NoCredential, NoToken), c.floorTollSats, Toll);
    var s1 := Paid(s, key, c.floorTollSats, Toll);
    Redeem(c, durable, s1, ip, Of(s1, p), key, ForPrincipal(p));
    s' := Spend(s1, key, ForPrincipal(p));
    PurchaseSlack(c, s, s', key, c.floorTollSats, ForPrincipal(p));
  }

  lemma {:induction false} CountUp(c: CurveConfig, durable: bool, n: nat) returns (s: State, p: string)
    requires Sound(c)
    ensures Reached(c, durable, s) && Holds(s, p, n) && AnonCount(s, "b") == 0
  {
    hide Reached, Holds;
    if n == 0 {
      s, p := EnrollOne(c, durable, "a");
    } else {
      s, p := CountUp(c, durable, n - 1);
      s := BuyAsMember(c, durable, s, p, n - 1, "b");
    }
  }

  // --- Below the floor ---

  /** An invoice asked for with a credential and handed in without: the count stays where it is. */
  lemma BuyForAnother(c: CurveConfig, durable: bool, s: State, p: string, n: nat) returns (s': State)
    requires Sound(c) && Reached(c, durable, s) && Holds(s, p, n) && NextPrice(c, n) > 0
    ensures Reached(c, durable, s') && Holds(s', p, n)
    ensures Slack(c, s') == Slack(c, s) + NextPrice(c, n) - Cheapest(c)
  {
    hide Reached, NextPrice, Slack;
    HeldCount(c, durable, s, p, n);
    var price := NextPrice(c, n);
    var key := AskAndPay(c, durable, s, Request("b", Of(s, p), NoToken), price, Toll);
    var s1 := Paid(s, key, price, Toll);
    Redeem(c, durable, s1, "b", NoCredential, key, Anonymous("b"));
    s' := Spend(s1, key, Anonymous("b"));
    PurchaseSlack(c, s, s', key, price, Anonymous("b"));
  }

  lemma HeldCount(c: CurveConfig, durable: bool, s: State, p: string, n: nat)
    requires Reached(c, durable, s) && Holds(s, p, n)
    ensures s.principals[p] == n
  {
  }

  lemma {:induction false} Drain(c: CurveConfig, durable: bool, s: State, p: string, n: nat) returns (s': State)
    requires Sound(c) && Reached(c, durable, s) && Holds(s, p, n) && Underpriced(c, n)
    ensures Reached(c, durable, s') && Holds(s', p, n) && Slack(c, s') < 0
    decreases Slack(c, s)
  {
    hide Reached, Holds, NextPrice, Slack, Cheapest;
    s' := s;
    if Slack(c, s) >= 0 {
      s' := BuyForAnother(c, durable, s, p, n);
      s' := Drain(c, durable, s', p, n);
    }
  }

  /** A principal that has come to such a price breaks the floor. */
  lemma UnderpricedBreaksFloor(c: CurveConfig, durable: bool, n: nat) returns (events: seq<Event>)
    requires Sound(c) && Underpriced(c, n)
    ensures AllPlain(events) && AtMost(Run(c, Init(durable), events), n)
    ensures !FloorMet(c, Run(c, Init(durable), events))
  {
    hide Underpriced, Inv;
    var s, p := CountUp(c, durable, n);
    s := Drain(c, durable, s, p, n);
    events :| Leads(c, durable, events, s);
    assert Everything(s) == s.ledger == Live(s);
  }

  // --- Foreign invoices ---

  function ForeignRun(amount: nat): seq<Event> {
    [ForeignInvoice("k", amount), Settle("k"),
     Http(Request("ip", NoCredential, Token("k", true)), Env("l", "p", true, false, false, NoFault, NoFault, false))]
  }

  /**
   A client who has somebody else's invoice on the same node paid is forwarded for
   it, since the macaroon that carries its hash is not checked for the proxy's
   signature.  That breaks the floor if the invoice is worth less.
  */
  lemma ForeignInvoicesPass(c: CurveConfig, durable: bool, amount: nat)
    requires Sound(c)
    ensures var s := Run(c, Init(durable), ForeignRun(amount));
            && Received(s) == amount && Forwards(Live(s)) == 1 && OwnForwards(Live(s), s.foreign) == 0
            && AtMost(s, 0)
            && (FloorMet(c, s) <==> amount >= Cheapest(c))
  {
    var use := ForeignRun(amount)[2];
    var s1 := Step(c, Init(durable), ForeignInvoice("k", amount));
    var s2 := Step(c, s1, Settle("k"));
    var s3 := Step(c, s2, use);
    assert use.env.On(BackendOf(s2)) == use.env;
    assert s3.ledger == [Purchase("k", Anonymous("ip"))] && s3.past == [] && s3.foreign == {"k"};
    assert s3.invoices == map["k" := Invoice(amount, true)];
    hide Step;
    assert Run(c, s2, [use]) == Run(c, s3, []) == s3;
    assert [Settle("k"), use][1..] == [use];
    assert ForeignRun(amount)[1..] == [Settle("k"), use];
    OneForeignForward(c, s3, amount);
  }

  lemma OneForeignForward(c: CurveConfig, s: State, amount: nat)
    requires s.ledger == [Purchase("k", Anonymous("ip"))] && s.past == [] && s.foreign == {"k"}
    requires s.invoices == map["k" := Invoice(amount, true)]
    ensures Received(s) == amount && Forwards(Live(s)) == 1 && OwnForwards(Live(s), s.foreign) == 0
    ensures Enrollments(Live(s)) == 0 && AtMost(s, 0)
  {
    var none: seq<Purchase>, x := [], Purchase("k", Anonymous("ip"));
    assert SettledPrices(s.invoices) == map["k" := amount];
    SumUpdate(map[], "k", amount);
    assert Live(s) == none + [x] == Everything(s);
    CountAppend(none, x, IsAnonymous);
    CountAppend(none, x, IsForPrincipal);
    CountAppend(none, x, IsEnrolling);
    CountAppend(none, x, y => IsOwnForward(y, s.foreign));
    forall p { CountAppend(none, x, y => IsFor(y, p)); }
  }

  // --- The exact condition ---

  /** A wrapped increment that the floor lifts to less than the cheapest price. */
  lemma UnderpricedIff(c: CurveConfig, count: nat)
    requires Sound(c)
    ensures Underpriced(c, count) <==>
            TWO_TO_64 - c.floorTollSats < (c.escalationSlope * count) % TWO_TO_64
            < TWO_TO_64 - c.floorTollSats + Cheapest(c)
  {
    hide CurvePrice64;
    CurvePrice64Is(count + 1, c.floorTollSats, c.escalationSlope);
  }

  ghost predicate KeepsFloor(c: CurveConfig, durable: bool, limit: nat, worth: Option<nat>, events: seq<Event>) {
    WorthAtLeast(events, worth) && AtMost(Run(c, Init(durable), events), limit) ==>
      FloorMet(c, Run(c, Init(durable), events))
  }

  /**
   All runs in which no principal is forwarded more than `limit` times and foreign
   invoices are worth at least `worth`, if there are any, keep the revenue floor
   exactly if such invoices are worth the cheapest price and no price up to that
   count has wrapped around to less: a test on the configuration.
  */
  lemma FloorHoldsIff(c: CurveConfig, durable: bool, limit: nat, worth: Option<nat>)
    requires Sound(c)
    ensures (forall events :: KeepsFloor(c, durable, limit, worth, events))
            <==> (worth.Some? ==> worth.value >= Cheapest(c)) && SafeUpTo(c, limit)
  {
    hide FloorMet, Underpriced, Step, Cheapest;
    if worth.Some? && worth.value < Cheapest(c) {
      ForeignInvoicesPass(c, durable, worth.value);
      assert !KeepsFloor(c, durable, limit, worth, ForeignRun(worth.value));
    } else if !SafeUpTo(c, limit) {
      var n: nat :| n <= limit && Underpriced(c, n);
      var events := UnderpricedBreaksFloor(c, durable, n);
      assert !KeepsFloor(c, durable, limit, worth, events);
    } else {
      forall events ensures KeepsFloor(c, durable, limit, worth, events) {
        if WorthAtLeast(events, worth) && AtMost(Run(c, Init(durable), events), limit) {
          FloorHolds(c, durable, events, limit, worth);
        }
      }
    }
  }

  // --- Single use ---

  ghost predicate SpentOnce(c: CurveConfig, durable: bool, events: seq<Event>) {
    Distinct(Everything(Run(c, Init(durable), events)))
  }

  /** Over all processes a payment hash is spent once, exactly if the store is SQLite. */
  lemma SpentOnceIff(c: CurveConfig, durable: bool)
    requires Sound(c)
    ensures (forall events :: SpentOnce(c, durable, events)) <==> durable
  {
    if durable {
      forall events ensures SpentOnce(c, durable, events) {
        Conservation(c, durable, events);
        RunKeepsDurable(c, Init(durable), events);
      }
    } else {
      var events := SpendTwice(c);
      assert !SpentOnce(c, durable, events);
    }
  }

  lemma SpendTwice(c: CurveConfig) returns (events: seq<Event>)
    requires Sound(c)
    ensures !Distinct(Everything(Run(c, Init(false), events)))
  {
    hide Step;
    var env := Env("k", "p", true, false, false, NoFault, NoFault, false);
    MemStoreForgets(c, env);
    events := [Http(Request("ip", NoCredential, NoToken), env.(newKey := "k")), Settle("k"),
               Http(Request("ip", NoCredential, Token("k", true)), env.(newKey := "other", newPrincipal := "p")),
               Restart,
               Http(Request("ip", NoCredential, Token("k", true)), env.(newKey := "other", newPrincipal := "p"))];
    var s := Run(c, Init(false), events);
    assert Everything(s)[0] == s.past[0] == s.ledger[0] == Everything(s)[1];
  }

  // --- Lost payments ---

  /** The handler calls of a run meet no failures, or these. */
  predicate Meets(events: seq<Event>, mark: Fault, randomFails: bool) {
    forall e :: e in events && e.Http? ==>
      || (e.env.markFault.NoFault? && !e.env.randomFails)
      || (e.env.markFault == mark && e.env.randomFails == randomFails)
  }

  ghost predicate LosesNothing(c: CurveConfig, durable: bool, mark: Fault, randomFails: bool, events: seq<Event>) {
    Meets(events, mark, randomFails) ==> LostPayments(Everything(Run(c, Init(durable), events))) == 0
  }

  /**
   A payment can be marked used without buying anything exactly if the reply to the
   mark can be lost, or the mark succeeds and the random source fails.
  */
  lemma NothingLostIff(c: CurveConfig, durable: bool, mark: Fault, randomFails: bool)
    requires Sound(c)
    ensures (forall events :: LosesNothing(c, durable, mark, randomFails, events))
            <==> HandsOver(Effective(if durable then SQLite else Mem, mark), randomFails)
  {
    hide Step;
    var backend := if durable then SQLite else Mem;
    if HandsOver(Effective(backend, mark), randomFails) {
      forall events ensures LosesNothing(c, durable, mark, randomFails, events) {
        if Meets(events, mark, randomFails) {
          assert Harmless(backend, events);
          NothingLost(c, Init(durable), events);
        }
      }
    } else {
      var events := LoseOne(c, durable, mark, randomFails);
      assert !LosesNothing(c, durable, mark, randomFails, events);
    }
  }

  /** The last event of a plain run loses the payment it hands in. */
  lemma LoseOne(c: CurveConfig, durable: bool, mark: Fault, randomFails: bool) returns (events: seq<Event>)
    requires Sound(c) && !HandsOver(Effective(if durable then SQLite else Mem, mark), randomFails)
    ensures Meets(events, mark, randomFails) && LostPayments(Everything(Run(c, Init(durable), events))) == 1
  {
    hide Reached;
    var s := ReachCap(c, durable, "a", c.anonymousCap);
    var key := AskAndPay(c, durable, s, Request("a", NoCredential, NoToken), c.enrollmentStakeSats, Enrollment);
    var s1 := Paid(s, key, c.enrollmentStakeSats, Enrollment);
    var env := Quiet(s1).(markFault := mark, randomFails := randomFails);
    var e := Http(Request("a", NoCredential, Token(key, true)), env);
    BackendReached(c, durable, s1);
    LosingStep(c, durable, s1, key, e);
    events := PlainRun(c, durable, s1);
    RunAppend(c, Init(durable), events, e);
    events := events + [e];
  }

  lemma BackendReached(c: CurveConfig, durable: bool, s: State)
    requires Reached(c, durable, s)
    ensures BackendOf(s) == if durable then SQLite else Mem
  {
  }

  lemma PlainRun(c: CurveConfig, durable: bool, s: State) returns (events: seq<Event>)
    requires Reached(c, durable, s)
    ensures Leads(c, durable, events, s)
  {
    events :| Leads(c, durable, events, s);
  }

  lemma LosingStep(c: CurveConfig, durable: bool, s: State, key: string, e: Event)
    requires Sound(c) && Reached(c, durable, s) && key in s.pendingEnrollments && key !in s.used
    requires key in s.invoices && s.invoices[key].settled
    requires e.Http? && e.req == Request("a", NoCredential, Token(key, true))
    requires e.env == Quiet(s).(markFault := e.env.markFault, randomFails := e.env.randomFails)
    requires !HandsOver(Effective(BackendOf(s), e.env.markFault), e.env.randomFails)
    ensures LostPayments(Everything(Step(c, s, e))) == 1
  {
    UnseenIsNew(s.invoices.Keys);
    UnseenIsNew(Identifiers(s.minted));
    assert Step(c, s, e) == Spend(s, key, Lost);
    SpendAppends(s, key, Lost);
    CountAppend(Everything(s), Purchase(key, Lost), IsLost);
    NoneLostYet(c, durable, s);
  }

  lemma NoneLostYet(c: CurveConfig, durable: bool, s: State)
    requires Reached(c, durable, s)
    ensures LostPayments(Everything(s)) == 0
  {
    hide Inv, Step;
    var events :| Leads(c, durable, events, s);
    NothingLost(c, Init(durable), events);
  }
}
