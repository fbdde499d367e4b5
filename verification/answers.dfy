/**
 What the metered proxy answers, against what the caller has paid: nothing is
 handed out without a payment, no good payment is turned away, and over a whole
 run as much is handed out as was paid for.
*/
module Answers {
  import opened Wrappers
  import opened Stores
  import opened Config
  import opened Credentials
  import opened Encodings
  import opened Wire
  import opened Metered

  // --- One request ---

  /** A paid and unspent invoice, with its preimage. */
  predicate Good(s: State, token: TokenView) {
    && token.Token? && token.preimageOk
    && token.key in s.invoices && s.invoices[token.key].settled && token.key !in s.used
  }

  predicate Granted(r: Response) {
    r.Forwarded? || r.Enrolled?
  }

  /** The caller shows no credential, or one of this process with an account. */
  predicate Admitted(s: State, req: Request) {
    match req.credential
    case NoCredential => true
    case Garbled => false
    case Credential(m) => ValidateCredential(s.epoch, m) == Ok(m.id) && m.id in s.principals
  }

  predicate CompletesEnrollment(s: State, req: Request) {
    req.credential.NoCredential? && req.token.Token? && req.token.key in s.pendingEnrollments
  }

  /** lnd answers, the store answers, and there is randomness. */
  predicate Working(env: Env) {
    !env.lookupFails && env.isUsedFault.NoFault? && env.markFault.NoFault? && !env.randomFails
  }

  /** What is handed out has been paid for with the preimage of a settled, unspent invoice, now spent. */
  lemma GrantedIsPaid(c: CurveConfig, s: State, req: Request, env: Env)
    ensures var (s', r) := Serve(c, s, req, env);
            Granted(r) ==>
              && Good(s, req.token) && Admitted(s, req)
              && s'.used == s.used + {req.token.key} && s'.invoices == s.invoices
              && (r.Enrolled? <==> CompletesEnrollment(s, req))
  {
    hide NextPrice;
  }

  /** A good payment is honoured whenever nothing fails, and the right account is charged for it. */
  lemma PaidIsGranted(c: CurveConfig, s: State, req: Request, env: Env)
    requires Good(s, req.token) && Working(env)
    ensures var (s', r) := Serve(c, s, req, env);
            && (Granted(r) <==> Admitted(s, req))
            && (Admitted(s, req) && req.credential.Credential? ==>
                 && r == Forwarded && s'.anonCounts == s.anonCounts
                 && s'.principals ==
                    s.principals[req.credential.m.id := s.principals[req.credential.m.id] + 1])
            && (CompletesEnrollment(s, req) ==>
                 && r == Enrolled(MintCredential(s.epoch, env.newPrincipal), env.newPrincipal)
                 && s'.anonCounts == s.anonCounts && s'.principals == s.principals[env.newPrincipal := 0])
            && (req.credential.NoCredential? && !CompletesEnrollment(s, req) ==>
                 && r == Forwarded && s'.principals == s.principals
                 && s'.anonCounts == s.anonCounts[req.ip := AnonCount(s, req.ip) + 1])
  {
    hide NextPrice;
  }

  /** Who is turned away, and with which answer. */
  lemma RefusalsIff(c: CurveConfig, s: State, req: Request, env: Env)
    ensures var r := Serve(c, s, req, env).1;
            && (r == InvalidCredential <==>
                 || req.credential.Garbled?
                 || (req.credential.Credential? && ValidateCredential(s.epoch, req.credential.m).Err?))
            && (r == UnknownPrincipal <==>
                 && req.credential.Credential? && ValidateCredential(s.epoch, req.credential.m).Ok?
                 && req.credential.m.id !in s.principals)
            && (r == RateLimited <==> req.credential.NoCredential? && req.token.NoToken? && !env.allowed)
            && (r == EnrollmentFailed <==>
                 CompletesEnrollment(s, req) && !(Good(s, req.token) && Working(env)))
            && (r == InvalidToken || r == VerificationError <==>
                 && Admitted(s, req) && !req.token.NoToken? && !CompletesEnrollment(s, req)
                 && !(Good(s, req.token) && Working(env.(randomFails := false))))
            && (r == InvalidToken ==> AtFault(s, req.token, env))
            && (r == VerificationError ==> !AtFault(s, req.token, env))
  {
    hide NextPrice;
  }

  /** As far as the proxy gets, the token itself is at fault: wrong preimage, open invoice, or spent already. */
  predicate AtFault(s: State, token: TokenView, env: Env) {
    token.Token?
    && (!token.preimageOk
        || (!env.lookupFails && token.key in s.invoices
            && (!s.invoices[token.key].settled || (env.isUsedFault.NoFault? && token.key in s.used))))
  }

  /** Where nothing fails, a token for a known invoice is turned away as invalid exactly for these. */
  lemma InvalidTokenIff(c: CurveConfig, s: State, req: Request, env: Env)
    requires Admitted(s, req) && !CompletesEnrollment(s, req)
    requires req.token.Token? && req.token.key in s.invoices && Working(env)
    ensures Serve(c, s, req, env).1 == InvalidToken <==>
            !req.token.preimageOk || !s.invoices[req.token.key].settled || req.token.key in s.used
  {
    hide NextPrice;
  }

  /** A refusal leaves everything as it was, unless the mark or the random source failed half-way. */
  lemma RefusalChangesNothing(c: CurveConfig, s: State, req: Request, env: Env)
    ensures var (s', r) := Serve(c, s, req, env);
            !Granted(r) && !r.TollChallenge? && !r.EnrollmentChallenge? && s' != s ==>
              && Good(s, req.token) && !HandsOver(env.markFault, env.randomFails)
              && s' == Spend(s, req.token.key, Lost)
  {
    hide NextPrice;
  }

  /** Without a token an admitted caller is challenged: for the stake at the cap, and else for a toll. */
  lemma ChallengesIff(c: CurveConfig, s: State, req: Request, env: Env)
    ensures var r := Serve(c, s, req, env).1;
            && (r.TollChallenge? || r.EnrollmentChallenge? || r.ChallengeError? <==>
                 && Admitted(s, req) && req.token.NoToken? && (req.credential.NoCredential? ==> env.allowed))
            && (r.TollChallenge? || r.EnrollmentChallenge? ==>
                 && r.key == env.newKey
                 && (r.EnrollmentChallenge? <==>
                      req.credential.NoCredential? && AnonCount(s, req.ip) >= c.anonymousCap)
                 && Serve(c, s, req, env).0.invoices == s.invoices[r.key := Invoice(r.price, false)])
  {
    hide NextPrice;
  }

  // --- From the header ---

  /**
   An answer that hands something out was given to a header that carries the
   preimage of the payment hash that is spent by it.
  */
  lemma GrantedHeader(c: CurveConfig, s: State, ip: string, credential: Presented, auth: string, env: Env,
                      unmarshal: Unmarshal, sha256: seq<Byte> -> seq<Byte>) returns (parts: AuthParts)
    requires Granted(Serve(c, s, Request(ip, credential, ViewAuthorization(auth, unmarshal, sha256)), env).1)
    ensures Carried(auth, parts, unmarshal) && sha256(parts.preimage) == parts.hash
    ensures var key, s' := HexEncode(parts.hash),
                           Serve(c, s, Request(ip, credential, ViewAuthorization(auth, unmarshal, sha256)), env).0;
            && key in s.invoices && s.invoices[key].settled && key !in s.used
            && s'.used == s.used + {key}
  {
    hide Serve, ViewAuthorization, Carried;
    var token := ViewAuthorization(auth, unmarshal, sha256);
    GrantedIsPaid(c, s, Request(ip, credential, token), env);
    parts := TokenHasParts(auth, unmarshal, sha256);
  }

  // --- Over a run ---

  /** The answers of a run, to the requests that can happen. */
  function Answered(c: CurveConfig, s: State, events: seq<Event>): seq<Response>
    decreases |events|
  {
    if events == [] then []
    else Answer(c, s, events[0]) + Answered(c, Step(c, s, events[0]), events[1..])
  }

  function Answer(c: CurveConfig, s: State, e: Event): seq<Response> {
    if e.Http? && Possible(s, e.req, e.env) then [Serve(c, s, e.req, e.env.On(BackendOf(s))).1] else []
  }

  function Number(answers: seq<Response>, which: Response -> bool): nat {
    if answers == [] then 0 else (if which(answers[0]) then 1 else 0) + Number(answers[1..], which)
  }

  lemma {:induction false} NumberAppend(a: seq<Response>, b: seq<Response>, which: Response -> bool)
    ensures Number(a + b, which) == Number(a, which) + Number(b, which)
  {
    if a == [] {
      assert a + b == b;
    } else {
      assert (a + b)[1..] == a[1..] + b;
      NumberAppend(a[1..], b, which);
    }
  }

  function IsForwarded(r: Response): bool { r.Forwarded? }
  function IsEnrolled(r: Response): bool { r.Enrolled? }

  /** The ledger gains a forward for a forwarded request, an enrollment for an enrolled one, and else neither. */
  lemma ServeBooks(c: CurveConfig, s: State, req: Request, env: Env)
    ensures var (s', r) := Serve(c, s, req, env);
            && Forwards(Everything(s')) == Forwards(Everything(s)) + (if r.Forwarded? then 1 else 0)
            && Enrollments(Everything(s')) == Enrollments(Everything(s)) + (if r.Enrolled? then 1 else 0)
  {
    hide NextPrice, Buy, Enroll, Count;
    EnrollBooks(s, req.token, env);
    BuyBooks(s, req.token, Anonymous(req.ip), env);
    if req.credential.Credential? { BuyBooks(s, req.token, ForPrincipal(req.credential.m.id), env); }
  }

  lemma BuyBooks(s: State, token: TokenView, use: Use, env: Env)
    requires use.Anonymous? || use.ForPrincipal?
    ensures var (s', r) := Buy(s, token, use, env);
            && Forwards(Everything(s')) == Forwards(Everything(s)) + (if r.Forwarded? then 1 else 0)
            && Enrollments(Everything(s')) == Enrollments(Everything(s)) && !r.Enrolled?
  {
    hide Spend, Count;
    if token.Token? {
      SpendBooks(s, token.key, use);
      SpendBooks(s, token.key, Lost);
    }
  }

  lemma EnrollBooks(s: State, token: TokenView, env: Env)
    ensures var (s', r) := Enroll(s, token, env);
            && Enrollments(Everything(s')) == Enrollments(Everything(s)) + (if r.Enrolled? then 1 else 0)
            && Forwards(Everything(s')) == Forwards(Everything(s)) && !r.Forwarded?
  {
    hide Spend, Count;
    if token.Token? {
      SpendBooks(s, token.key, Enrolling(env.newPrincipal));
      SpendBooks(s, token.key, Lost);
    }
  }

  lemma SpendBooks(s: State, key: string, use: Use)
    ensures var e, e' := Everything(s), Everything(Spend(s, key, use));
            && Forwards(e') == Forwards(e) + (if use.Anonymous? || use.ForPrincipal? then 1 else 0)
            && Enrollments(e') == Enrollments(e) + (if use.Enrolling? then 1 else 0)
  {
    SpendAppends(s, key, use);
    CountAppend(Everything(s), Purchase(key, use), IsAnonymous);
    CountAppend(Everything(s), Purchase(key, use), IsForPrincipal);
    CountAppend(Everything(s), Purchase(key, use), IsEnrolling);
  }

  lemma StepBooks(c: CurveConfig, s: State, e: Event)
    ensures var answer := Answer(c, s, e);
            && Forwards(Everything(Step(c, s, e))) == Forwards(Everything(s)) + Number(answer, IsForwarded)
            && Enrollments(Everything(Step(c, s, e))) == Enrollments(Everything(s)) + Number(answer, IsEnrolled)
  {
    hide Serve, Count;
    if e.Http? && Possible(s, e.req, e.env) {
      ServeBooks(c, s, e.req, e.env.On(BackendOf(s)));
    } else if !e.Http? {
      assert Everything(Step(c, s, e)) == Everything(s);
    }
  }

  lemma {:induction false} RunBooks(c: CurveConfig, s: State, events: seq<Event>)
    ensures var answers, s' := Answered(c, s, events), Run(c, s, events);
            && Forwards(Everything(s')) == Forwards(Everything(s)) + Number(answers, IsForwarded)
            && Enrollments(Everything(s')) == Enrollments(Everything(s)) + Number(answers, IsEnrolled)
    decreases |events|
  {
    hide Step, Answer, Count;
    if events == [] {
    } else {
      StepBooks(c, s, events[0]);
      RunBooks(c, Step(c, s, events[0]), events[1..]);
      NumberAppend(Answer(c, s, events[0]), Answered(c, Step(c, s, events[0]), events[1..]), IsForwarded);
      NumberAppend(Answer(c, s, events[0]), Answered(c, Step(c, s, events[0]), events[1..]), IsEnrolled);
    }
  }

  /**
   Over every run the resource is handed out once for each payment spent on a
   forward, and a credential once for each spent on an enrollment; all the other
   payments are the lost ones.
  */
  lemma AnswersMatchPayments(c: CurveConfig, durable: bool, events: seq<Event>)
    ensures var answers, spent := Answered(c, Init(durable), events), Everything(Run(c, Init(durable), events));
            && Number(answers, IsForwarded) == Forwards(spent)
            && Number(answers, IsEnrolled) == Enrollments(spent)
            && |spent| == Number(answers, IsForwarded) + Number(answers, IsEnrolled) + LostPayments(spent)
  {
    RunBooks(c, Init(durable), events);
    CountsAddUp(Everything(Run(c, Init(durable), events)));
  }
}
