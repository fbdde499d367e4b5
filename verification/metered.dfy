/**
 The metered proxy as a state machine over whole runs: one handler call, one
 settlement in lnd, one sweep of the anonymous counters or one restart at a time.
 Handler calls are atomic here, because the Lightning verifier takes no lock
 between IsUsed and MarkUsed.
*/
module Metered {
  import opened Wrappers
  import opened Stores
  import opened Pricing
  import opened Config
  import opened Credentials
  import opened Wire
  import opened Sums

  datatype Invoice = Invoice(price: int, settled: bool)

  /** What a payment was spent on.  Lost: marked used, but the caller got an error. */
  datatype Use =
    | Anonymous(ip: string)
    | ForPrincipal(principal: string)
    | Enrolling(principal: string)
    | Lost

  datatype Purchase = Purchase(key: string, use: Use)

  datatype State = State(
    durable: bool,                        // SQLite: the used keys survive a restart
    invoices: map<string, Invoice>,       // lnd, by payment hash
    used: set<string>,
    principals: map<string, int>,         // request counts
    pendingEnrollments: set<string>,
    anonCounts: map<string, int>,
    epoch: nat,                           // the process, and so the keys
    minted: Minted,
    challenged: set<string>,              // payment hashes of this process's enrollment challenges
    ledger: seq<Purchase>,                // the payments spent in this process, in order
    past: seq<Purchase>,                  // and those of earlier processes
    foreign: set<string>)                 // invoices on the same lnd node that the proxy did not create

  datatype Presented = NoCredential | Garbled | Credential(m: Macaroon)

  datatype Request = Request(ip: string, credential: Presented, token: TokenView)

  /** What the outside contributes to one handler call. */
  datatype Env = Env(
    newKey: string,            // the payment hash that lnd gives a new invoice
    newPrincipal: string,      // the random principal identifier
    allowed: bool,             // the rate limiter's verdict
    addInvoiceFails: bool,
    lookupFails: bool,
    isUsedFault: Fault,
    markFault: Fault,
    randomFails: bool)
  {
    function On(backend: Backend): Env {
      this.(isUsedFault := Effective(backend, isUsedFault), markFault := Effective(backend, markFault))
    }
  }

  datatype Response =
    | TollChallenge(key: string, price: int)
    | EnrollmentChallenge(key: string, price: int)
    | Forwarded
    | Enrolled(credential: Macaroon, principal: string)
    | InvalidCredential
    | UnknownPrincipal
    | InvalidToken
    | EnrollmentFailed
    | RateLimited
    | VerificationError
    | ChallengeError

  function Init(durable: bool): State {
    State(durable, map[], {}, map[], {}, map[], 0, {}, {}, [], [], {})
  }

  datatype Verdict = Valid | Invalid | Broken | BrokenAfterMark

  /** The three checks of VerifyProof and CompleteEnrollment, and how the mark goes. */
  function Check(invoices: map<string, Invoice>, used: set<string>, token: TokenView, env: Env): Verdict {
    if !token.Token? then Broken
    else if !token.preimageOk then Invalid
    else if env.lookupFails || token.key !in invoices then Broken
    else if !invoices[token.key].settled then Invalid
    else if !env.isUsedFault.NoFault? then Broken
    else if token.key in used then Invalid
    else match env.markFault
      case NoFault => Valid
      case Refused => Broken
      case LostReply => BrokenAfterMark
  }

  /** A payment is marked used, and what it bought is handed over. */
  function Spend(s: State, key: string, use: Use): State {
    var s := s.(used := s.used + {key}, ledger := s.ledger + [Purchase(key, use)]);
    match use
    case Anonymous(ip) => s.(anonCounts := s.anonCounts[ip := AnonCount(s, ip) + 1])
    case ForPrincipal(p) => if p in s.principals then s.(principals := s.principals[p := s.principals[p] + 1]) else s
    case Enrolling(p) =>
      s.(pendingEnrollments := s.pendingEnrollments - {key},
         principals := s.principals[p := 0],
         minted := s.minted + {(CredentialKey(s.epoch), p)})
    case Lost => s
  }

  function AnonCount(s: State, ip: string): int {
    if ip in s.anonCounts then s.anonCounts[ip] else 0
  }

  /** IssueChallenge and IssueEnrollmentChallenge. */
  function Challenge(s: State, price: int, kind: Kind, env: Env): (State, Response) {
    if price <= 0 || env.addInvoiceFails then (s, ChallengeError)
    else
      var s := s.(invoices := s.invoices[env.newKey := Invoice(price, false)],
                  minted := s.minted + {(RootKey(s.epoch), env.newKey)});
      match kind
      case Toll => (s, TollChallenge(env.newKey, price))
      case Enrollment =>
        (s.(pendingEnrollments := s.pendingEnrollments + {env.newKey}, challenged := s.challenged + {env.newKey}),
         EnrollmentChallenge(env.newKey, price))
  }

  /** VerifyProof for a request that is to be forwarded. */
  function Buy(s: State, token: TokenView, use: Use, env: Env): (State, Response) {
    match Check(s.invoices, s.used, token, env)
    case Valid => (Spend(s, token.key, use), Forwarded)
    case Invalid => (s, InvalidToken)
    case Broken => (s, VerificationError)
    case BrokenAfterMark => (Spend(s, token.key, Lost), VerificationError)
  }

  /** completeEnrollment. */
  function Enroll(s: State, token: TokenView, env: Env): (State, Response) {
    match Check(s.invoices, s.used, token, env)
    case Valid =>
      if env.randomFails then (Spend(s, token.key, Lost), EnrollmentFailed)
      else (Spend(s, token.key, Enrolling(env.newPrincipal)),
            Enrolled(MintCredential(s.epoch, env.newPrincipal), env.newPrincipal))
    case BrokenAfterMark => (Spend(s, token.key, Lost), EnrollmentFailed)
    case _ => (s, EnrollmentFailed)
  }

  /** What the next request of a principal costs. */
  function NextPrice(c: CurveConfig, count: int): int {
    CurvePrice64(count + 1, c.floorTollSats, c.escalationSlope)
  }

  /** serveMetered. */
  function Serve(c: CurveConfig, s: State, req: Request, env: Env): (State, Response) {
    match req.credential
    case Garbled => (s, InvalidCredential)
    case Credential(m) => (
      match ValidateCredential(s.epoch, m)
      case Err => (s, InvalidCredential)
      case Ok(p) =>
        if p !in s.principals then (s, UnknownPrincipal)
        else if req.token.NoToken? then Challenge(s, NextPrice(c, s.principals[p]), Toll, env)
        else Buy(s, req.token, ForPrincipal(p), env))
    case NoCredential =>
      if req.token.Token? && req.token.key in s.pendingEnrollments then Enroll(s, req.token, env)
      else if !req.token.NoToken? then Buy(s, req.token, Anonymous(req.ip), env)
      else if !env.allowed then (s, RateLimited)
      else if AnonCount(s, req.ip) >= c.anonymousCap then Challenge(s, c.enrollmentStakeSats, Enrollment, env)
      else Challenge(s, c.floorTollSats, Toll, env)
  }

  datatype Event =
    | Http(req: Request, env: Env)
    | Settle(key: string)
    | ForeignInvoice(key: string, amount: nat)   // somebody else's, on the same node
    | SweepAnonymous
    | Restart

  function Identifiers(minted: Minted): set<string> {
    set k | k in minted :: k.1
  }

  /**
   lnd never repeats a payment hash, random identifiers do not collide, and a
   credential carries a signature that can be had without the proxy's keys.
  */
  predicate Possible(s: State, req: Request, env: Env) {
    && env.newKey !in s.invoices
    && env.newPrincipal !in Identifiers(s.minted)
    && (req.credential.Credential? ==> Derivable(req.credential.m.signature, s.minted))
  }

  function BackendOf(s: State): Backend {
    if s.durable then SQLite else Mem
  }

  /** Events that cannot happen leave the state alone. */
  function Step(c: CurveConfig, s: State, e: Event): State {
    match e
    case Http(req, env) => if Possible(s, req, env) then Serve(c, s, req, env.On(BackendOf(s))).0 else s
    case Settle(key) =>
      if key in s.invoices then s.(invoices := s.invoices[key := s.invoices[key].(settled := true)]) else s
    case ForeignInvoice(key, amount) =>
      if key in s.invoices then s
      else s.(invoices := s.invoices[key := Invoice(amount, false)], foreign := s.foreign + {key})
    case SweepAnonymous => s.(anonCounts := map[])
    case Restart =>
      s.(used := if s.durable then s.used else {}, principals := map[], pendingEnrollments := {},
         anonCounts := map[], epoch := s.epoch + 1, challenged := {}, past := s.past + s.ledger, ledger := [])
  }

  function Run(c: CurveConfig, s: State, events: seq<Event>): State
    decreases |events|
  {
    if events == [] then s else Run(c, Step(c, s, events[0]), events[1..])
  }

  // --- Counting the ledger ---

  function Count(ledger: seq<Purchase>, which: Purchase -> bool): nat {
    if ledger == [] then 0
    else Count(ledger[..|ledger| - 1], which) + (if which(ledger[|ledger| - 1]) then 1 else 0)
  }

  function IsAnonymous(x: Purchase): bool { x.use.Anonymous? }
  function IsForPrincipal(x: Purchase): bool { x.use.ForPrincipal? }
  function IsEnrolling(x: Purchase): bool { x.use.Enrolling? }
  function IsLost(x: Purchase): bool { x.use.Lost? }
  function IsFor(x: Purchase, p: string): bool { x.use == ForPrincipal(p) }
  function IsOwnForward(x: Purchase, foreign: set<string>): bool {
    (IsAnonymous(x) || IsForPrincipal(x)) && x.key !in foreign
  }

  function AnonymousForwards(ledger: seq<Purchase>): nat { Count(ledger, IsAnonymous) }
  function PrincipalForwards(ledger: seq<Purchase>): nat { Count(ledger, IsForPrincipal) }
  function Enrollments(ledger: seq<Purchase>): nat { Count(ledger, IsEnrolling) }
  function LostPayments(ledger: seq<Purchase>): nat { Count(ledger, IsLost) }
  function Forwards(ledger: seq<Purchase>): nat { AnonymousForwards(ledger) + PrincipalForwards(ledger) }
  function ForwardsOf(ledger: seq<Purchase>, p: string): nat { Count(ledger, x => IsFor(x, p)) }

  /** The forwards that were paid with invoices of the proxy. */
  function OwnForwards(ledger: seq<Purchase>, foreign: set<string>): nat {
    Count(ledger, x => IsOwnForward(x, foreign))
  }

  lemma CountAppend(ledger: seq<Purchase>, x: Purchase, which: Purchase -> bool)
    ensures Count(ledger + [x], which) == Count(ledger, which) + (if which(x) then 1 else 0)
  {
    assert (ledger + [x])[..|ledger|] == ledger;
  }

  lemma {:induction false} CountConcat(first: seq<Purchase>, second: seq<Purchase>, which: Purchase -> bool)
    ensures Count(first + second, which) == Count(first, which) + Count(second, which)
  {
    if second == [] {
      assert first + second == first;
    } else {
      var rest, last := second[..|second| - 1], second[|second| - 1];
      CountConcat(first, rest, which);
      assert first + second == (first + rest) + [last];
      CountAppend(first + rest, last, which);
    }
  }

  lemma {:induction false} CountNone(ledger: seq<Purchase>, which: Purchase -> bool)
    requires forall i :: 0 <= i < |ledger| ==> !which(ledger[i])
    ensures Count(ledger, which) == 0
  {
    if ledger == [] {
    } else {
      CountNone(ledger[..|ledger| - 1], which);
    }
  }

  /** Every payment went to exactly one of four uses. */
  lemma {:induction false} CountsAddUp(ledger: seq<Purchase>)
    ensures |ledger| == Forwards(ledger) + Enrollments(ledger) + LostPayments(ledger)
  {
    if ledger == [] {
    } else {
      CountsAddUp(ledger[..|ledger| - 1]);
    }
  }

  // --- Invariants ---

  /** All that was ever spent. */
  function Everything(s: State): seq<Purchase> {
    s.past + s.ledger
  }

  /** What the store still knows to be spent: a restart empties MemStore. */
  function Live(s: State): seq<Purchase> {
    if s.durable then Everything(s) else s.ledger
  }

  function Keys(ledger: seq<Purchase>): set<string> {
    set x | x in ledger :: x.key
  }

  predicate Distinct(ledger: seq<Purchase>) {
    forall i, j :: 0 <= i < j < |ledger| ==> ledger[i].key != ledger[j].key
  }

  /** The used keys are the keys of the live payments, each of which occurs once. */
  predicate LedgerInv(s: State) {
    s.used == Keys(Live(s)) && Distinct(Live(s))
  }

  /** Whatever was spent is a settled invoice; whatever is pending is an own invoice for the stake. */
  predicate InvoiceInv(c: CurveConfig, s: State) {
    && (forall x :: x in Everything(s) ==> x.key in s.invoices && s.invoices[x.key].settled)
    && (forall x :: x in Everything(s) && x.use.Enrolling? ==> s.invoices[x.key].price == c.enrollmentStakeSats)
    && (forall k :: k in s.challenged ==> k in s.invoices && s.invoices[k].price == c.enrollmentStakeSats)
    && (forall k :: k in s.invoices ==> s.invoices[k].price >= 0)
    && s.foreign <= s.invoices.Keys
  }

  /** A request count is the number of payments spent in that principal's name. */
  predicate CountInv(s: State) {
    && (forall p :: p in s.principals ==> s.principals[p] == ForwardsOf(s.ledger, p))
    && (forall x :: x in s.ledger && x.use.ForPrincipal? ==> x.use.principal in Identifiers(s.minted))
  }

  ghost predicate TotalInv(s: State) {
    SumValues(s.principals) == PrincipalForwards(s.ledger) && |s.principals| == Enrollments(s.ledger)
  }

  predicate OfEpoch(key: Key, epoch: nat) {
    !key.ForeignKey? && key.epoch <= epoch
  }

  /** Nobody holds a credential of this process without an account. */
  predicate MintInv(s: State) {
    && (forall x :: x in s.minted ==> OfEpoch(x.0, s.epoch))
    && (forall x :: x in s.minted && x.0 == CredentialKey(s.epoch) ==> x.1 in s.principals)
    && (forall p :: p in s.principals ==> p in Identifiers(s.minted))
  }

  /** A challenged enrollment is pending until it is used. */
  predicate EnrollmentInv(s: State) {
    s.pendingEnrollments <= s.challenged <= s.pendingEnrollments + s.used
  }

  /** A payment hash enrolls once, even when a restart has wiped the used keys. */
  predicate EnrolledOnce(ledger: seq<Purchase>) {
    forall i, j :: 0 <= i < j < |ledger| && ledger[i].use.Enrolling? && ledger[j].use.Enrolling? ==>
      ledger[i].key != ledger[j].key
  }

  predicate EnrolledInv(s: State) {
    && EnrolledOnce(Everything(s))
    && (forall x :: x in Everything(s) && x.use.Enrolling? ==> x.key !in s.pendingEnrollments)
  }

  /** The int64 price of the next request after `count` is still exact. */
  predicate Fits(c: CurveConfig, count: int) {
    c.escalationSlope * count <= MAX_INT64 - c.floorTollSats
  }

  function Cheapest(c: CurveConfig): int {
    if c.floorTollSats < c.enrollmentStakeSats then c.floorTollSats else c.enrollmentStakeSats
  }

  /** The price after `count` requests has wrapped around to less than either price would be. */
  predicate Underpriced(c: CurveConfig, count: int) {
    0 < NextPrice(c, count) < Cheapest(c)
  }

  predicate SafeUpTo(c: CurveConfig, count: nat) {
    forall n: nat :: n <= count ==> !Underpriced(c, n)
  }

  /** No principal has come to a count with such a price. */
  ghost predicate NeverUnderpriced(c: CurveConfig, s: State) {
    forall p :: SafeUpTo(c, ForwardsOf(Everything(s), p))
  }

  ghost predicate PriceInv(c: CurveConfig, s: State) {
    NeverUnderpriced(c, s) ==> forall k :: k in s.invoices && k !in s.foreign ==> s.invoices[k].price >= Cheapest(c)
  }

  ghost predicate Inv(c: CurveConfig, s: State) {
    && LedgerInv(s) && InvoiceInv(c, s) && CountInv(s) && TotalInv(s)
    && MintInv(s) && EnrollmentInv(s) && EnrolledInv(s) && PriceInv(c, s)
  }

  // --- Spending keeps the invariants ---

  /** When Spend is called. */
  predicate MaySpend(s: State, key: string, use: Use) {
    && key in s.invoices && s.invoices[key].settled && key !in s.used
    && (use.ForPrincipal? ==> use.principal in s.principals)
    && (use.Enrolling? ==> key in s.pendingEnrollments && use.principal !in Identifiers(s.minted))
  }

  lemma KeysAppend(ledger: seq<Purchase>, x: Purchase)
    ensures Keys(ledger + [x]) == Keys(ledger) + {x.key}
  {
    assert forall y :: y in ledger + [x] <==> y in ledger || y == x;
  }

  /** A payment is spent at the end of everything, and of what is live. */
  lemma SpendAppends(s: State, key: string, use: Use)
    ensures Everything(Spend(s, key, use)) == Everything(s) + [Purchase(key, use)]
    ensures Live(Spend(s, key, use)) == Live(s) + [Purchase(key, use)]
  {
  }

  lemma SpendKeepsLedger(s: State, key: string, use: Use)
    requires LedgerInv(s) && MaySpend(s, key, use)
    ensures LedgerInv(Spend(s, key, use))
  {
    SpendAppends(s, key, use);
    KeysAppend(Live(s), Purchase(key, use));
    forall i | 0 <= i < |Live(s)| ensures Live(s)[i].key != key {
      assert Live(s)[i].key in Keys(Live(s));
    }
  }

  lemma SpendKeepsInvoices(c: CurveConfig, s: State, key: string, use: Use)
    requires InvoiceInv(c, s) && EnrollmentInv(s) && MaySpend(s, key, use)
    ensures InvoiceInv(c, Spend(s, key, use)) && EnrollmentInv(Spend(s, key, use))
  {
    SpendAppends(s, key, use);
  }

  lemma IdentifiersAppend(minted: Minted, key: Key, id: string)
    ensures Identifiers(minted + {(key, id)}) == Identifiers(minted) + {id}
  {
    forall k | k in Identifiers(minted) + {id} ensures k in Identifiers(minted + {(key, id)}) {
      if k == id {
        assert (key, id) in minted + {(key, id)};
      } else {
        var x :| x in minted && x.1 == k;
        assert x in minted + {(key, id)};
      }
    }
  }

  lemma SpendKeepsMint(s: State, key: string, use: Use)
    requires MintInv(s) && MaySpend(s, key, use)
    ensures MintInv(Spend(s, key, use))
  {
    if use.Enrolling? { IdentifiersAppend(s.minted, CredentialKey(s.epoch), use.principal); }
  }

  lemma SpendCounts(s: State, key: string, use: Use, p: string)
    ensures ForwardsOf(Spend(s, key, use).ledger, p) ==
            ForwardsOf(s.ledger, p) + (if use == ForPrincipal(p) then 1 else 0)
  {
    CountAppend(s.ledger, Purchase(key, use), x => IsFor(x, p));
  }

  lemma UnknownHasNoForwards(s: State, p: string)
    requires CountInv(s) && p !in Identifiers(s.minted)
    ensures ForwardsOf(s.ledger, p) == 0
  {
    CountNone(s.ledger, x => IsFor(x, p));
  }

  lemma SpendKeepsCounts(s: State, key: string, use: Use)
    requires CountInv(s) && MintInv(s) && MaySpend(s, key, use)
    ensures CountInv(Spend(s, key, use))
  {
    var s' := Spend(s, key, use);
    if use.Enrolling? {
      IdentifiersAppend(s.minted, CredentialKey(s.epoch), use.principal);
      UnknownHasNoForwards(s, use.principal);
    }
    forall p | p in s'.principals ensures s'.principals[p] == ForwardsOf(s'.ledger, p) {
      SpendCounts(s, key, use, p);
    }
  }

  lemma SpendKeepsSum(s: State, key: string, use: Use)
    requires TotalInv(s) && MintInv(s) && MaySpend(s, key, use)
    ensures SumValues(Spend(s, key, use).principals) == PrincipalForwards(Spend(s, key, use).ledger)
  {
    CountAppend(s.ledger, Purchase(key, use), IsForPrincipal);
    match use
    case ForPrincipal(p) => SumUpdate(s.principals, p, s.principals[p] + 1);
    case Enrolling(p) => SumUpdate(s.principals, p, 0);
    case _ =>
  }

  lemma SpendKeepsEnrollments(s: State, key: string, use: Use)
    requires TotalInv(s) && MintInv(s) && MaySpend(s, key, use)
    ensures |Spend(s, key, use).principals| == Enrollments(Spend(s, key, use).ledger)
  {
    hide Count;
    CountAppend(s.ledger, Purchase(key, use), IsEnrolling);
    match use
    case ForPrincipal(p) => assert s.principals[p := s.principals[p] + 1].Keys == s.principals.Keys;
    case Enrolling(p) =>
      assert p !in s.principals;
      assert s.principals[p := 0].Keys == s.principals.Keys + {p};
    case _ =>
  }

  lemma SpendKeepsEnrolled(s: State, key: string, use: Use)
    requires EnrolledInv(s) && MaySpend(s, key, use)
    ensures EnrolledInv(Spend(s, key, use))
  {
    SpendAppends(s, key, use);
  }

  lemma SpendKeepsPrices(c: CurveConfig, s: State, key: string, use: Use)
    requires PriceInv(c, s) && Sound(c)
    ensures PriceInv(c, Spend(s, key, use))
  {
    hide SafeUpTo, Cheapest;
    SpendAppends(s, key, use);
    var s' := Spend(s, key, use);
    if NeverUnderpriced(c, s') {
      forall p ensures SafeUpTo(c, ForwardsOf(Everything(s), p)) {
        assert SafeUpTo(c, ForwardsOf(Everything(s'), p));
        CountAppend(Everything(s), Purchase(key, use), x => IsFor(x, p));
        SafeBelow(c, ForwardsOf(Everything(s), p), ForwardsOf(Everything(s'), p));
      }
    }
  }

  lemma SafeBelow(c: CurveConfig, k: nat, n: nat)
    requires SafeUpTo(c, n) && k <= n
    ensures SafeUpTo(c, k)
  {
  }

  lemma SpendKeepsInv(c: CurveConfig, s: State, key: string, use: Use)
    requires Inv(c, s) && Sound(c) && MaySpend(s, key, use)
    ensures Inv(c, Spend(s, key, use))
  {
    SpendKeepsLedger(s, key, use);
    SpendKeepsInvoices(c, s, key, use);
    SpendKeepsMint(s, key, use);
    SpendKeepsCounts(s, key, use);
    SpendKeepsSum(s, key, use);
    SpendKeepsEnrollments(s, key, use);
    SpendKeepsEnrolled(s, key, use);
    SpendKeepsPrices(c, s, key, use);
  }

  // --- So do challenges, settlements, sweeps and restarts ---

  lemma ChallengeKeepsInv(c: CurveConfig, s: State, price: int, kind: Kind, env: Env)
    requires Inv(c, s) && env.newKey !in s.invoices
    requires kind.Enrollment? ==> price == c.enrollmentStakeSats
    requires NeverUnderpriced(c, s) ==> price <= 0 || price >= Cheapest(c)
    ensures Inv(c, Challenge(s, price, kind, env).0)
  {
    ChallengeKeepsInvoices(c, s, price, kind, env);
    ChallengeKeepsMint(s, price, kind, env);
  }

  lemma ChallengeKeepsMint(s: State, price: int, kind: Kind, env: Env)
    requires MintInv(s) && CountInv(s)
    ensures MintInv(Challenge(s, price, kind, env).0) && CountInv(Challenge(s, price, kind, env).0)
  {
    IdentifiersAppend(s.minted, RootKey(s.epoch), env.newKey);
  }

  lemma ChallengeKeepsInvoices(c: CurveConfig, s: State, price: int, kind: Kind, env: Env)
    requires InvoiceInv(c, s) && EnrollmentInv(s) && EnrolledInv(s) && env.newKey !in s.invoices
    requires kind.Enrollment? ==> price == c.enrollmentStakeSats
    ensures var s' := Challenge(s, price, kind, env).0;
            InvoiceInv(c, s') && EnrollmentInv(s') && EnrolledInv(s')
  {
  }

  /** The next price of a principal is the curve's, and no less than the floor. */
  lemma NextPriceIsExact(c: CurveConfig, s: State, p: string)
    requires CountInv(s) && Sound(c) && p in s.principals && Fits(c, s.principals[p])
    ensures NextPrice(c, s.principals[p]) == CurvePrice(s.principals[p] + 1, c.floorTollSats, c.escalationSlope)
            >= c.floorTollSats
  {
    var n := s.principals[p];
    AtMostProduct(c.escalationSlope, n);
    CurvePrice64Exact(n + 1, c.floorTollSats, c.escalationSlope);
  }

  lemma NextPriceIsSafe(c: CurveConfig, s: State, p: string)
    requires CountInv(s) && p in s.principals && NeverUnderpriced(c, s)
    ensures NextPrice(c, s.principals[p]) <= 0 || NextPrice(c, s.principals[p]) >= Cheapest(c)
  {
    hide NextPrice, Cheapest;
    CountConcat(s.past, s.ledger, x => IsFor(x, p));
    assert SafeUpTo(c, ForwardsOf(Everything(s), p));
    assert !Underpriced(c, s.principals[p]);
  }

  lemma AtMostProduct(a: int, n: nat)
    requires a >= 1
    ensures n <= a * n
  {
  }

  lemma CheckedMaySpend(s: State, token: TokenView, env: Env)
    requires Check(s.invoices, s.used, token, env).Valid? || Check(s.invoices, s.used, token, env).BrokenAfterMark?
    ensures token.Token? && MaySpend(s, token.key, Lost)
  {
  }

  lemma ServeKeepsInv(c: CurveConfig, s: State, req: Request, env: Env)
    requires Inv(c, s) && Sound(c) && Possible(s, req, env)
    ensures Inv(c, Serve(c, s, req, env).0)
  {
    match req.credential
    case Garbled =>
    case Credential(m) =>
      if ValidateCredential(s.epoch, m).Ok? && m.id in s.principals {
        if req.token.NoToken? {
          if NeverUnderpriced(c, s) { NextPriceIsSafe(c, s, m.id); }
          ChallengeKeepsInv(c, s, NextPrice(c, s.principals[m.id]), Toll, env);
        } else {
          BuyKeepsInv(c, s, req.token, ForPrincipal(m.id), env);
        }
      }
    case NoCredential =>
      if req.token.Token? && req.token.key in s.pendingEnrollments {
        EnrollKeepsInv(c, s, req.token, env);
      } else if !req.token.NoToken? {
        BuyKeepsInv(c, s, req.token, Anonymous(req.ip), env);
      } else {
        ChallengeKeepsInv(c, s, c.enrollmentStakeSats, Enrollment, env);
        ChallengeKeepsInv(c, s, c.floorTollSats, Toll, env);
      }
  }

  lemma BuyKeepsInv(c: CurveConfig, s: State, token: TokenView, use: Use, env: Env)
    requires Inv(c, s) && Sound(c)
    requires use.Anonymous? || (use.ForPrincipal? && use.principal in s.principals)
    ensures Inv(c, Buy(s, token, use, env).0)
  {
    match Check(s.invoices, s.used, token, env)
    case Valid => CheckedMaySpend(s, token, env); SpendKeepsInv(c, s, token.key, use);
    case BrokenAfterMark => CheckedMaySpend(s, token, env); SpendKeepsInv(c, s, token.key, Lost);
    case _ =>
  }

  lemma EnrollKeepsInv(c: CurveConfig, s: State, token: TokenView, env: Env)
    requires Inv(c, s) && Sound(c)
    requires token.Token? && token.key in s.pendingEnrollments && env.newPrincipal !in Identifiers(s.minted)
    ensures Inv(c, Enroll(s, token, env).0)
  {
    match Check(s.invoices, s.used, token, env)
    case Valid =>
      CheckedMaySpend(s, token, env);
      SpendKeepsInv(c, s, token.key, if env.randomFails then Lost else Enrolling(env.newPrincipal));
    case BrokenAfterMark => CheckedMaySpend(s, token, env); SpendKeepsInv(c, s, token.key, Lost);
    case _ =>
  }

  lemma SettleKeepsInvoices(c: CurveConfig, s: State, key: string)
    requires InvoiceInv(c, s) && PriceInv(c, s)
    ensures InvoiceInv(c, Step(c, s, Settle(key))) && PriceInv(c, Step(c, s, Settle(key)))
  {
    hide SafeUpTo, ForwardsOf;
    assert Everything(Step(c, s, Settle(key))) == Everything(s);
  }

  lemma SettleKeepsInv(c: CurveConfig, s: State, key: string)
    requires Inv(c, s)
    ensures Inv(c, Step(c, s, Settle(key)))
  {
    hide InvoiceInv, PriceInv, Count, Distinct, Keys, EnrolledOnce, SumValues;
    SettleKeepsInvoices(c, s, key);
  }

  lemma RestartKeepsInv(c: CurveConfig, s: State)
    requires Inv(c, s)
    ensures Inv(c, Step(c, s, Restart))
  {
    assert Everything(Step(c, s, Restart)) == Everything(s);
  }

  lemma ForeignKeepsInvoices(c: CurveConfig, s: State, key: string, amount: nat)
    requires InvoiceInv(c, s) && PriceInv(c, s)
    ensures InvoiceInv(c, Step(c, s, ForeignInvoice(key, amount)))
    ensures PriceInv(c, Step(c, s, ForeignInvoice(key, amount)))
  {
    hide SafeUpTo, ForwardsOf;
    assert Everything(Step(c, s, ForeignInvoice(key, amount))) == Everything(s);
  }

  lemma ForeignKeepsInv(c: CurveConfig, s: State, key: string, amount: nat)
    requires Inv(c, s)
    ensures Inv(c, Step(c, s, ForeignInvoice(key, amount)))
  {
    hide InvoiceInv, PriceInv, Count, Distinct, Keys, EnrolledOnce, SumValues;
    ForeignKeepsInvoices(c, s, key, amount);
  }

  lemma StepKeepsInv(c: CurveConfig, s: State, e: Event)
    requires Inv(c, s) && Sound(c)
    ensures Inv(c, Step(c, s, e))
  {
    match e
    case Http(req, env) => if Possible(s, req, env) { ServeKeepsInv(c, s, req, env.On(BackendOf(s))); }
    case Settle(key) => SettleKeepsInv(c, s, key);
    case ForeignInvoice(key, amount) => ForeignKeepsInv(c, s, key, amount);
    case SweepAnonymous =>
    case Restart => RestartKeepsInv(c, s);
  }

  lemma {:induction false} RunKeepsInv(c: CurveConfig, s: State, events: seq<Event>)
    requires Inv(c, s) && Sound(c)
    ensures Inv(c, Run(c, s, events))
    decreases |events|
  {
    if events == [] {
    } else {
      StepKeepsInv(c, s, events[0]);
      RunKeepsInv(c, Step(c, s, events[0]), events[1..]);
    }
  }

  lemma InitInv(c: CurveConfig, durable: bool)
    ensures Inv(c, Init(durable))
  {
  }

  /** What no handler call touches. */
  predicate Framed(s: State, s': State, newKey: string) {
    && s'.durable == s.durable && s'.past == s.past && s'.foreign == s.foreign && s'.epoch == s.epoch
    && (forall k :: k in s.invoices && k != newKey ==> k in s'.invoices && s'.invoices[k] == s.invoices[k])
  }

  lemma SpendFrame(s: State, key: string, use: Use, newKey: string)
    ensures Framed(s, Spend(s, key, use), newKey)
  {
  }

  lemma ChallengeFrame(s: State, price: int, kind: Kind, env: Env)
    ensures Framed(s, Challenge(s, price, kind, env).0, env.newKey)
  {
  }

  lemma BuyFrame(s: State, token: TokenView, use: Use, env: Env)
    ensures Framed(s, Buy(s, token, use, env).0, env.newKey)
  {
    hide Spend;
    if token.Token? {
      SpendFrame(s, token.key, use, env.newKey);
      SpendFrame(s, token.key, Lost, env.newKey);
    }
  }

  lemma EnrollFrame(s: State, token: TokenView, env: Env)
    ensures Framed(s, Enroll(s, token, env).0, env.newKey)
  {
    hide Spend;
    if token.Token? {
      SpendFrame(s, token.key, Enrolling(env.newPrincipal), env.newKey);
      SpendFrame(s, token.key, Lost, env.newKey);
    }
  }

  lemma ServeFrame(c: CurveConfig, s: State, req: Request, env: Env)
    ensures Framed(s, Serve(c, s, req, env).0, env.newKey)
  {
    hide Framed, Buy, Enroll, Challenge, NextPrice;
    FramedSelf(s, env.newKey);
    EnrollFrame(s, req.token, env);
    BuyFrame(s, req.token, Anonymous(req.ip), env);
    if req.credential.Credential? {
      var p := req.credential.m.id;
      BuyFrame(s, req.token, ForPrincipal(p), env);
      if p in s.principals { ChallengeFrame(s, NextPrice(c, s.principals[p]), Toll, env); }
    }
    ChallengeFrame(s, c.floorTollSats, Toll, env);
    ChallengeFrame(s, c.enrollmentStakeSats, Enrollment, env);
  }

  lemma FramedSelf(s: State, newKey: string)
    ensures Framed(s, s, newKey)
  {
  }

  lemma {:induction false} RunKeepsDurable(c: CurveConfig, s: State, events: seq<Event>)
    ensures Run(c, s, events).durable == s.durable
    decreases |events|
  {
    if events == [] {
    } else {
      StepKeepsDurable(c, s, events[0]);
      RunKeepsDurable(c, Step(c, s, events[0]), events[1..]);
    }
  }

  lemma StepKeepsDurable(c: CurveConfig, s: State, e: Event)
    ensures Step(c, s, e).durable == s.durable
  {
    hide Serve;
    if e.Http? { ServeFrame(c, s, e.req, e.env.On(BackendOf(s))); }
  }

  // --- The results ---

  /**
   One settled invoice buys one forward or one credential, never both, never two,
   as long as the store remembers: the used keys are those of the live payments,
   without repetition, and each went into a forward, a credential or a failed
   call.  In every process the request counts add up to the principals' forwards
   and the accounts are the enrollments.
  */
  lemma Conservation(c: CurveConfig, durable: bool, events: seq<Event>)
    requires Sound(c)
    ensures var s := Run(c, Init(durable), events);
            && s.used == Keys(Live(s)) && Distinct(Live(s))
            && |s.used| == Forwards(Live(s)) + Enrollments(Live(s)) + LostPayments(Live(s))
            && Forwards(s.ledger) == SumValues(s.principals) + AnonymousForwards(s.ledger)
            && Enrollments(s.ledger) == |s.principals|
            && (forall p :: p in s.principals ==> s.principals[p] == ForwardsOf(s.ledger, p))
  {
    InitInv(c, durable);
    RunKeepsInv(c, Init(durable), events);
    var s := Run(c, Init(durable), events);
    CountsAddUp(Live(s));
    DistinctKeys(Live(s));
  }

  lemma {:induction false} DistinctKeys(ledger: seq<Purchase>)
    requires Distinct(ledger)
    ensures |Keys(ledger)| == |ledger|
  {
    if ledger == [] {
    } else {
      var rest, last := ledger[..|ledger| - 1], ledger[|ledger| - 1];
      DistinctKeys(rest);
      assert ledger == rest + [last];
      KeysAppend(rest, last);
      assert last.key !in Keys(rest);
    }
  }

  /** The payment is either not marked used at all, or what it bought is handed over. */
  predicate HandsOver(mark: Fault, randomFails: bool) {
    match mark
    case NoFault => !randomFails
    case Refused => true
    case LostReply => false
  }

  predicate Harmless(backend: Backend, events: seq<Event>) {
    forall e :: e in events && e.Http? ==> HandsOver(Effective(backend, e.env.markFault), e.env.randomFails)
  }

  lemma {:induction false} NothingLost(c: CurveConfig, s: State, events: seq<Event>)
    requires Harmless(BackendOf(s), events) && LostPayments(Everything(s)) == 0
    ensures LostPayments(Everything(Run(c, s, events))) == 0
    decreases |events|
  {
    if events == [] {
    } else {
      StepLosesNothing(c, s, events[0]);
      StepKeepsDurable(c, s, events[0]);
      NothingLost(c, Step(c, s, events[0]), events[1..]);
    }
  }

  lemma StepLosesNothing(c: CurveConfig, s: State, e: Event)
    requires LostPayments(Everything(s)) == 0
    requires e.Http? ==> HandsOver(Effective(BackendOf(s), e.env.markFault), e.env.randomFails)
    ensures LostPayments(Everything(Step(c, s, e))) == 0
  {
    hide Serve, HandsOver;
    if e.Http? {
      if Possible(s, e.req, e.env) { ServeLosesNothing(c, s, e.req, e.env.On(BackendOf(s))); }
    } else {
      assert Everything(Step(c, s, e)) == Everything(s);
    }
  }

  lemma ServeLosesNothing(c: CurveConfig, s: State, req: Request, env: Env)
    requires HandsOver(env.markFault, env.randomFails)
    ensures LostPayments(Everything(Serve(c, s, req, env).0)) == LostPayments(Everything(s))
  {
    hide Buy, Enroll, NextPrice, HandsOver;
    assert !env.markFault.LostReply? by { MarkReplied(env.markFault, env.randomFails); }
    if req.credential.Credential? { BuyLosesNothing(s, req.token, ForPrincipal(req.credential.m.id), env); }
    BuyLosesNothing(s, req.token, Anonymous(req.ip), env);
    EnrollLosesNothing(s, req.token, env);
  }

  lemma MarkReplied(mark: Fault, randomFails: bool)
    requires HandsOver(mark, randomFails)
    ensures !mark.LostReply?
  {
  }

  lemma BuyLosesNothing(s: State, token: TokenView, use: Use, env: Env)
    requires !use.Lost? && !env.markFault.LostReply?
    ensures LostPayments(Everything(Buy(s, token, use, env).0)) == LostPayments(Everything(s))
  {
    if Check(s.invoices, s.used, token, env).Valid? {
      SpendAppends(s, token.key, use);
      CountAppend(Everything(s), Purchase(token.key, use), IsLost);
    }
  }

  lemma EnrollLosesNothing(s: State, token: TokenView, env: Env)
    requires HandsOver(env.markFault, env.randomFails)
    ensures LostPayments(Everything(Enroll(s, token, env).0)) == LostPayments(Everything(s))
  {
    if Check(s.invoices, s.used, token, env).Valid? {
      SpendAppends(s, token.key, Enrolling(env.newPrincipal));
      CountAppend(Everything(s), Purchase(token.key, Enrolling(env.newPrincipal)), IsLost);
    }
  }

  /**
   Where nothing fails half-way, every used key is a forward or a principal; in
   every process those it used itself are its request counts, its anonymous
   forwards and its accounts.
  */
  lemma ConservationWithoutLoss(c: CurveConfig, durable: bool, events: seq<Event>)
    requires Sound(c) && Harmless(if durable then SQLite else Mem, events)
    ensures var s := Run(c, Init(durable), events);
            && |s.used| == Forwards(Live(s)) + Enrollments(Live(s))
            && |s.used| == SumValues(s.principals) + AnonymousForwards(s.ledger) + |s.principals|
                           + (if durable then |s.past| else 0)
  {
    var s := Run(c, Init(durable), events);
    Conservation(c, durable, events);
    NothingLost(c, Init(durable), events);
    RunKeepsDurable(c, Init(durable), events);
    CountConcat(s.past, s.ledger, IsLost);
    CountsAddUp(s.ledger);
    DistinctKeys(Live(s));
  }

  /** What the store forgets can be spent again: with MemStore a paid token works again after one. */
  lemma MemStoreForgets(c: CurveConfig, env: Env)
    requires Sound(c) && env.allowed && !env.addInvoiceFails && !env.lookupFails
    ensures var ask := Http(Request("ip", NoCredential, NoToken), env.(newKey := "k"));
            var other := env.(newKey := "other", newPrincipal := "p");
            var use := Http(Request("ip", NoCredential, Token("k", true)), other);
            var s := Run(c, Init(false), [ask, Settle("k"), use, Restart, use]);
            |s.past| == 1 && s.ledger == s.past
  {
    var ask := Http(Request("ip", NoCredential, NoToken), env.(newKey := "k"));
    var use := Http(Request("ip", NoCredential, Token("k", true)), env.(newKey := "other", newPrincipal := "p"));
    var s1 := Step(c, Init(false), ask);
    assert s1 == Init(false).(invoices := map["k" := Invoice(c.floorTollSats, false)], minted := {(RootKey(0), "k")});
    var s2 := Step(c, s1, Settle("k"));
    var s3 := Step(c, s2, use);
    assert s3.ledger == [Purchase("k", Anonymous("ip"))];
    var s4 := Step(c, s3, Restart);
    var s5 := Step(c, s4, use);
    assert s5.past == s3.ledger == s5.ledger;
    assert [ask, Settle("k"), use, Restart, use][1..] == [Settle("k"), use, Restart, use];
    assert [Settle("k"), use, Restart, use][1..] == [use, Restart, use];
    assert [use, Restart, use][1..] == [Restart, use];
    assert [Restart, use][1..] == [use];
    assert Run(c, s3, [Restart, use]) == Run(c, s4, [use]) == Run(c, s5, []) == s5;
    assert Run(c, s1, [Settle("k"), use, Restart, use]) == Run(c, s2, [use, Restart, use]) == s5;
  }

  /** Every hash that this process asked to enroll is pending or used, and enrolls at most one principal, ever. */
  lemma EnrollmentLifecycle(c: CurveConfig, durable: bool, events: seq<Event>)
    requires Sound(c)
    ensures var s := Run(c, Init(durable), events);
            && s.challenged <= s.pendingEnrollments + s.used
            && s.pendingEnrollments <= s.challenged
            && EnrolledOnce(Everything(s))
  {
    InitInv(c, durable);
    RunKeepsInv(c, Init(durable), events);
  }

  /** A hash leaves the pending set by being used, or with the process. */
  lemma LeavesPendingUsed(c: CurveConfig, s: State, e: Event, key: string)
    requires key in s.pendingEnrollments && key !in Step(c, s, e).pendingEnrollments
    ensures e.Restart? || key in Step(c, s, e).used
  {
    hide Serve;
    if e.Http? { ServeLeavesPendingUsed(c, s, e.req, e.env.On(BackendOf(s)), key); }
  }

  lemma ServeLeavesPendingUsed(c: CurveConfig, s: State, req: Request, env: Env, key: string)
    requires key in s.pendingEnrollments
    ensures var s' := Serve(c, s, req, env).0; key in s'.pendingEnrollments || key in s'.used
  {
    hide NextPrice, Check;
  }

  /** Across restarts and keys, whoever shows a valid credential has an account. */
  lemma NeverUnknownPrincipal(c: CurveConfig, durable: bool, events: seq<Event>, req: Request, env: Env)
    requires Sound(c)
    requires Possible(Run(c, Init(durable), events), req, env)
    ensures Serve(c, Run(c, Init(durable), events), req, env).1 != UnknownPrincipal
  {
    InitInv(c, durable);
    RunKeepsInv(c, Init(durable), events);
    HoldersHaveAccounts(c, Run(c, Init(durable), events), req, env);
  }

  lemma HoldersHaveAccounts(c: CurveConfig, s: State, req: Request, env: Env)
    requires MintInv(s) && Possible(s, req, env)
    ensures Serve(c, s, req, env).1 != UnknownPrincipal
  {
    if req.credential.Credential? { CredentialSoundness(s.epoch, req.credential.m, s.minted); }
  }

  /** A principal asks for its next price, given how often it has been counted. */
  predicate AsksPrice(s: State, req: Request, count: int) {
    && req.credential.Credential? && ValidateCredential(s.epoch, req.credential.m).Ok?
    && req.credential.m.id in s.principals && s.principals[req.credential.m.id] == count
    && req.token.NoToken?
  }

  /**
   In every reachable state a challenge that lnd does not fail is refused exactly
   if it would be for a principal whose int64 price is not positive, and is below
   the floor exactly if that price is; both are tests on the request count alone.
   Where the price fits into int64 neither happens.
  */
  lemma PricesArePositive(c: CurveConfig, durable: bool, events: seq<Event>, req: Request, env: Env)
    requires Sound(c)
    ensures var s := Run(c, Init(durable), events);
            var r := Serve(c, s, req, env).1;
            && (!env.addInvoiceFails ==>
                 (r == ChallengeError <==>
                   exists n :: AsksPrice(s, req, n) && !StaysPositive(n, c.floorTollSats, c.escalationSlope)))
            && (r.TollChallenge? ==>
                 && r.price > 0
                 && (r.price < c.floorTollSats <==>
                     exists n :: AsksPrice(s, req, n) && !MeetsFloor(n, c.floorTollSats, c.escalationSlope)))
            && (r.EnrollmentChallenge? ==> r.price == c.enrollmentStakeSats)
  {
    InitInv(c, durable);
    RunKeepsInv(c, Init(durable), events);
    AskedPrices(c, Run(c, Init(durable), events), req, env);
  }

  lemma AskedPrices(c: CurveConfig, s: State, req: Request, env: Env)
    requires Sound(c) && CountInv(s)
    ensures var r := Serve(c, s, req, env).1;
            && (!env.addInvoiceFails ==>
                 (r == ChallengeError <==>
                   exists n :: AsksPrice(s, req, n) && !StaysPositive(n, c.floorTollSats, c.escalationSlope)))
            && (r.TollChallenge? ==>
                 && r.price > 0
                 && (r.price < c.floorTollSats <==>
                     exists n :: AsksPrice(s, req, n) && !MeetsFloor(n, c.floorTollSats, c.escalationSlope)))
            && (r.EnrollmentChallenge? ==> r.price == c.enrollmentStakeSats)
  {
    hide NextPrice, CountInv, StaysPositive, MeetsFloor;
    if req.credential.Credential? && req.credential.m.id in s.principals {
      var n := s.principals[req.credential.m.id];
      NextPriceSign(c, s, req.credential.m.id);
      assert forall k :: AsksPrice(s, req, k) ==> k == n;
    }
  }

  lemma NextPriceSign(c: CurveConfig, s: State, p: string)
    requires Sound(c) && CountInv(s) && p in s.principals
    ensures var n := s.principals[p];
            && (NextPrice(c, n) > 0 <==> StaysPositive(n, c.floorTollSats, c.escalationSlope))
            && (NextPrice(c, n) >= c.floorTollSats <==> MeetsFloor(n, c.floorTollSats, c.escalationSlope))
  {
    CurvePrice64SignIff(s.principals[p] + 1, c.floorTollSats, c.escalationSlope);
  }

  /** Where the true prices fit into int64 none is too low. */
  lemma FittingIsSafe(c: CurveConfig, count: nat)
    requires Sound(c) && Fits(c, count)
    ensures SafeUpTo(c, count)
  {
    forall n: nat | n <= count ensures !Underpriced(c, n) {
      MulMonotone(c.escalationSlope, n, count);
      FittingPricesPass(c, n);
      CurvePrice64SignIff(n + 1, c.floorTollSats, c.escalationSlope);
    }
  }

  /** Where the true price fits into int64 the tests are met. */
  lemma FittingPricesPass(c: CurveConfig, count: nat)
    requires Sound(c) && Fits(c, count)
    ensures MeetsFloor(count, c.floorTollSats, c.escalationSlope)
    ensures StaysPositive(count, c.floorTollSats, c.escalationSlope)
  {
    MulMonotone(c.escalationSlope, 0, count);
  }
}
