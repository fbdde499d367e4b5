/**
 The handler, the Lightning verifier, the principal store and the lnd client as
 the objects they are.  Every method is tied to the functions of module Metered.
*/
module ProxyHandler {
  import opened Wrappers
  import opened Stores
  import opened Config
  import opened Credentials
  import opened Wire
  import opened Metered

  class LndClient {
    var invoices: map<string, Invoice>
    ghost var foreign: set<string>

    constructor ()
      ensures invoices == map[] && foreign == {}
    {
      invoices, foreign := map[], {};
    }

    method AddInvoice(price: int, env: Env) returns (r: Result<string>)
      modifies this`invoices
      ensures r == if env.addInvoiceFails then Err else Ok(env.newKey)
      ensures invoices == if r.Ok? then old(invoices)[env.newKey := Invoice(price, false)] else old(invoices)
    {
      if env.addInvoiceFails {
        return Err;
      }
      invoices := invoices[env.newKey := Invoice(price, false)];
      return Ok(env.newKey);
    }

    /** lnd does not know a hash that it issued no invoice for, and answers with an error. */
    method IsSettled(key: string, env: Env) returns (r: Result<bool>)
      ensures r == if env.lookupFails || key !in invoices then Err else Ok(invoices[key].settled)
    {
      if env.lookupFails || key !in invoices {
        return Err;
      }
      return Ok(invoices[key].settled);
    }
  }

  datatype PrincipalRecord = PrincipalRecord(requestCount: int, enrolledAt: int)

  class MemPrincipalStore {
    var principals: map<string, PrincipalRecord>

    constructor ()
      ensures principals == map[]
    {
      principals := map[];
    }

    function Counts(): map<string, int>
      reads this
    {
      map p | p in principals :: principals[p].requestCount
    }

    method CreatePrincipal(id: string, enrolledAt: int)
      modifies this
      ensures principals == old(principals)[id := PrincipalRecord(0, enrolledAt)]
      ensures Counts() == old(Counts())[id := 0]
    {
      principals := principals[id := PrincipalRecord(0, enrolledAt)];
      assert Counts() == old(Counts())[id := 0];
    }

    method GetPrincipal(id: string) returns (r: Option<PrincipalRecord>)
      ensures r == if id in principals then Some(principals[id]) else None
    {
      if id !in principals {
        return None;
      }
      return Some(principals[id]);
    }

    /** An unknown principal is counted as 0, without an error. */
    method IncrementRequestCount(id: string) returns (newCount: int)
      modifies this
      ensures principals == if id in old(principals)
                            then old(principals)[id := old(principals)[id].(requestCount := newCount)]
                            else old(principals)
      ensures newCount == if id in old(principals) then old(principals)[id].requestCount + 1 else 0
      ensures Counts() == if id in old(principals) then old(Counts())[id := newCount] else old(Counts())
    {
      if id !in principals {
        return 0;
      }
      newCount := principals[id].requestCount + 1;
      principals := principals[id := principals[id].(requestCount := newCount)];
      assert Counts() == old(Counts())[id := newCount];
    }
  }

  class LightningVerifier {
    const lnd: LndClient
    const st: TokenStore
    const epoch: nat
    var minted: Minted
    ghost var ledger: seq<Purchase>
    ghost const past: seq<Purchase>

    /** `minted` and `past` are what earlier processes have signed and been paid. */
    constructor (lnd: LndClient, st: TokenStore, epoch: nat, minted: Minted, ghost past: seq<Purchase>)
      ensures this.lnd == lnd && this.st == st && this.epoch == epoch && this.past == past
      ensures this.minted == minted && ledger == []
    {
      this.lnd, this.st, this.epoch, this.past := lnd, st, epoch, past;
      this.minted, ledger := minted, [];
    }

    method IssueChallenge(price: int, env: Env) returns (r: Result<string>)
      modifies this`minted, lnd`invoices
      ensures r == if price <= 0 || env.addInvoiceFails then Err else Ok(env.newKey)
      ensures lnd.invoices == if r.Ok? then old(lnd.invoices)[env.newKey := Invoice(price, false)]
                              else old(lnd.invoices)
      ensures minted == if r.Ok? then old(minted) + {(RootKey(epoch), env.newKey)} else old(minted)
    {
      if price <= 0 {
        return Err;
      }
      r := lnd.AddInvoice(price, env);
      if r.Ok? {
        minted := minted + {(RootKey(epoch), r.value)};
      }
    }

    /** `use` records what the caller will hand over if the answer is true. */
    method VerifyProof(token: TokenView, env: Env, ghost use: Use) returns (r: Result<bool>)
      modifies this`ledger, st`used
      ensures var verdict := Check(lnd.invoices, old(st.used), token, env.On(st.backend));
              && r == (match verdict case Valid => Ok(true) case Invalid => Ok(false) case _ => Err)
              && st.used == (if verdict.Valid? || verdict.BrokenAfterMark? then old(st.used) + {token.key}
                             else old(st.used))
              && ledger == (match verdict
                            case Valid => old(ledger) + [Purchase(token.key, use)]
                            case BrokenAfterMark => old(ledger) + [Purchase(token.key, Lost)]
                            case _ => old(ledger))
    {
      if !token.Token? {
        return Err;
      }
      if !token.preimageOk {
        return Ok(false);
      }
      var settled := lnd.IsSettled(token.key, env);
      if settled.Err? {
        return Err;
      }
      if !settled.value {
        return Ok(false);
      }
      var used := st.IsUsed(token.key, env.isUsedFault);
      if used.Err? {
        return Err;
      }
      if used.value {
        return Ok(false);
      }
      var marked := st.MarkUsed(token.key, env.markFault);
      if !marked {
        if Applied(Effective(st.backend, env.markFault)) {
          ledger := ledger + [Purchase(token.key, Lost)];
        }
        return Err;
      }
      ledger := ledger + [Purchase(token.key, use)];
      return Ok(true);
    }

    method CompleteEnrollment(token: TokenView, env: Env) returns (r: Result<(string, Macaroon)>)
      modifies this, st`used
      ensures var verdict := Check(lnd.invoices, old(st.used), token, env.On(st.backend));
              && r == (if verdict.Valid? && !env.randomFails
                       then Ok((env.newPrincipal, MintCredential(epoch, env.newPrincipal))) else Err)
              && st.used == (if verdict.Valid? || verdict.BrokenAfterMark? then old(st.used) + {token.key}
                             else old(st.used))
              && ledger == (if r.Ok? then old(ledger) + [Purchase(token.key, Enrolling(env.newPrincipal))]
                            else if verdict.Valid? || verdict.BrokenAfterMark?
                            then old(ledger) + [Purchase(token.key, Lost)]
                            else old(ledger))
              && minted == (if r.Ok? then old(minted) + {(CredentialKey(epoch), env.newPrincipal)} else old(minted))
    {
      if !token.Token? || !token.preimageOk {
        return Err;
      }
      var settled := lnd.IsSettled(token.key, env);
      if settled.Err? || !settled.value {
        return Err;
      }
      var used := st.IsUsed(token.key, env.isUsedFault);
      if used.Err? || used.value {
        return Err;
      }
      var marked := st.MarkUsed(token.key, env.markFault);
      if !marked {
        if Applied(Effective(st.backend, env.markFault)) {
          ledger := ledger + [Purchase(token.key, Lost)];
        }
        return Err;
      }
      if env.randomFails {
        ledger := ledger + [Purchase(token.key, Lost)];
        return Err;
      }
      ledger := ledger + [Purchase(token.key, Enrolling(env.newPrincipal))];
      minted := minted + {(CredentialKey(epoch), env.newPrincipal)};
      return Ok((env.newPrincipal, MintCredential(epoch, env.newPrincipal)));
    }
  }

  class Handler {
    const verifier: LightningVerifier
    const principals: MemPrincipalStore
    const curve: CurveConfig
    var anonCounts: map<string, int>
    var pendingEnrollments: set<string>
    ghost var challenged: set<string>

    constructor (verifier: LightningVerifier, principals: MemPrincipalStore, curve: CurveConfig)
      ensures this.verifier == verifier && this.principals == principals && this.curve == curve
      ensures anonCounts == map[] && pendingEnrollments == {} && challenged == {}
    {
      this.verifier, this.principals, this.curve := verifier, principals, curve;
      anonCounts, pendingEnrollments, challenged := map[], {}, {};
    }

    ghost function View(): State
      reads this, verifier, verifier.lnd, verifier.st, principals
    {
      State(verifier.st.backend.SQLite?, verifier.lnd.invoices, verifier.st.used, principals.Counts(),
            pendingEnrollments, anonCounts, verifier.epoch, verifier.minted, challenged,
            verifier.ledger, verifier.past, verifier.lnd.foreign)
    }

    method GetAnonCount(ip: string) returns (n: int)
      ensures n == AnonCount(View(), ip)
    {
      n := if ip in anonCounts then anonCounts[ip] else 0;
    }

    method IncrementAnonCount(ip: string)
      modifies this`anonCounts
      ensures anonCounts == old(anonCounts)[ip := old(AnonCount(View(), ip)) + 1]
    {
      anonCounts := anonCounts[ip := (if ip in anonCounts then anonCounts[ip] else 0) + 1];
    }

    /** The ten-minute sweep: the counters are deleted one by one. */
    method SweepAnonCounts()
      modifies this`anonCounts
      ensures View() == Step(curve, old(View()), SweepAnonymous)
    {
      while anonCounts != map[]
        decreases |anonCounts.Keys|
      {
        var ip :| ip in anonCounts;
        ghost var before := anonCounts.Keys;
        anonCounts := anonCounts - {ip};
        assert anonCounts.Keys < before;
        StrictSubsetSmaller(anonCounts.Keys, before);
      }
    }

    lemma StrictSubsetSmaller(a: set<string>, b: set<string>)
      requires a < b
      ensures |a| < |b|
    {
      assert |b| == |a| + |b - a| by { assert b == a + (b - a); }
    }

    /** serveMetered, completeEnrollment included: one call moves the whole proxy as Serve says. */
    method ServeMetered(req: Request, env: Env, now: int) returns (resp: Response)
      modifies this, verifier, verifier.lnd`invoices, verifier.st`used, principals
      ensures (View(), resp) == Serve(curve, old(View()), req, env.On(verifier.st.backend))
    {
      if req.credential != NoCredential {
        resp := ServeCredentialed(req, env);
        return;
      }
      if !req.token.NoToken? {
        if req.token.Token? && req.token.key in pendingEnrollments {
          resp := CompleteEnrollment(req.token, env, now);
          return;
        }
        var valid := verifier.VerifyProof(req.token, env, Anonymous(req.ip));
        if valid.Err? {
          return VerificationError;
        }
        if !valid.value {
          return InvalidToken;
        }
        IncrementAnonCount(req.ip);
        return Forwarded;
      }
      if !env.allowed {
        return RateLimited;
      }
      var n := GetAnonCount(req.ip);
      if n >= curve.anonymousCap {
        var stakeKey := verifier.IssueChallenge(curve.enrollmentStakeSats, env);
        if stakeKey.Err? {
          return ChallengeError;
        }
        pendingEnrollments := pendingEnrollments + {stakeKey.value};
        challenged := challenged + {stakeKey.value};
        return EnrollmentChallenge(stakeKey.value, curve.enrollmentStakeSats);
      }
      var key := verifier.IssueChallenge(curve.floorTollSats, env);
      return if key.Err? then ChallengeError else TollChallenge(key.value, curve.floorTollSats);
    }

    method ServeCredentialed(req: Request, env: Env) returns (resp: Response)
      requires req.credential != NoCredential
      modifies verifier, verifier.lnd`invoices, verifier.st`used, principals
      ensures (View(), resp) == Serve(curve, old(View()), req, env.On(verifier.st.backend))
    {
      if req.credential.Garbled? {
        return InvalidCredential;
      }
      var id := ValidateCredential(verifier.epoch, req.credential.m);
      if id.Err? {
        return InvalidCredential;
      }
      var rec := principals.GetPrincipal(id.value);
      if rec.None? {
        return UnknownPrincipal;
      }
      var price := NextPrice(curve, rec.value.requestCount);
      if req.token.NoToken? {
        var key := verifier.IssueChallenge(price, env);
        return if key.Err? then ChallengeError else TollChallenge(key.value, price);
      }
      var valid := verifier.VerifyProof(req.token, env, ForPrincipal(id.value));
      if valid.Err? {
        return VerificationError;
      }
      if !valid.value {
        return InvalidToken;
      }
      var _ := principals.IncrementRequestCount(id.value);
      return Forwarded;
    }

    method CompleteEnrollment(token: TokenView, env: Env, now: int) returns (resp: Response)
      requires token.Token?
      modifies this`pendingEnrollments, verifier, verifier.st`used, principals
      ensures (View(), resp) == Enroll(old(View()), token, env.On(verifier.st.backend))
    {
      var r := verifier.CompleteEnrollment(token, env);
      if r.Err? {
        return EnrollmentFailed;
      }
      var (principal, credential) := r.value;
      pendingEnrollments := pendingEnrollments - {token.key};
      principals.CreatePrincipal(principal, now);
      return Enrolled(credential, principal);
    }
  }

  /** What main wires together on a first start. */
  method Start(curve: CurveConfig, backend: Backend) returns (h: Handler)
    ensures h.curve == curve && h.View() == Init(backend.SQLite?)
  {
    var lnd := new LndClient();
    var st := new TokenStore(backend);
    var verifier := new LightningVerifier(lnd, st, 0, {}, []);
    var principals := new MemPrincipalStore();
    h := new Handler(verifier, principals, curve);
    assert principals.Counts() == map[];
  }

  /** The process ends and another is started: lnd and a SQLite file are all that stays. */
  method Restart(h: Handler) returns (next: Handler)
    ensures next.curve == h.curve && next.View() == Step(h.curve, h.View(), Metered.Restart)
    ensures fresh(next) && fresh(next.verifier) && fresh(next.principals) && next.verifier.lnd == h.verifier.lnd
    ensures next.verifier.st == h.verifier.st || fresh(next.verifier.st)
  {
    var st := h.verifier.st;
    if st.backend.Mem? {
      st := new TokenStore(Mem);
    }
    var verifier := new LightningVerifier(h.verifier.lnd, st, h.verifier.epoch + 1, h.verifier.minted,
                                          h.verifier.past + h.verifier.ledger);
    var principals := new MemPrincipalStore();
    next := new Handler(verifier, principals, h.curve);
    assert principals.Counts() == map[];
  }
}
