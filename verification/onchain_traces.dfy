/**
 Two backends and a prune goroutine under one trace of calls: pruning cannot be
 observed, and SQLite accepts only what MemStore accepts.
*/
module OnchainTraces {
  import opened Wrappers
  import opened Stores
  import opened Onchain

  datatype Event =
    | Issue(addr: string, price: int, at: int, fault: Fault)
    | Verify(token: string, at: int, received: Option<int>, faults: Faults)
    | Prune(at: int)

  /** The store after a trace; pruning says whether the prune goroutine runs. */
  function After(backend: Backend, pruning: bool, trace: seq<Event>): StoreState
    decreases |trace|
  {
    if trace == [] then EMPTY_STORE
    else
      var s := After(backend, pruning, trace[..|trace| - 1]);
      match trace[|trace| - 1]
      case Issue(addr, price, at, fault) => Issued(backend, s, price, Some(addr), at, fault).0
      case Verify(token, at, received, faults) => Verified(s, token, at, received, faults.On(backend)).0
      case Prune(at) => if pruning then s.(pending := Pruned(backend, s.pending, at)) else s
  }

  /** What the i-th call of the trace, a VerifyProof, returns. */
  function Returned(backend: Backend, pruning: bool, trace: seq<Event>, i: nat): Outcome
    requires i < |trace| && trace[i].Verify?
  {
    var v := trace[i];
    Verified(After(backend, pruning, trace[..i]), v.token, v.at, v.received, v.faults.On(backend)).1
  }

  /** The clock never goes back. */
  predicate Monotone(trace: seq<Event>) {
    forall i, j :: 0 <= i < j < |trace| ==> trace[i].at <= trace[j].at
  }

  predicate Reached(trace: seq<Event>, now: int) {
    forall i :: 0 <= i < |trace| ==> trace[i].at <= now
  }

  // --- Pruning ---

  /** The same store up to entries that are past their expiry. */
  predicate AgreeFrom(now: int, a: StoreState, b: StoreState) {
    && a.used == b.used
    && (forall addr :: addr in a.pending && !Expired(a.pending[addr], now) ==>
         addr in b.pending && b.pending[addr] == a.pending[addr])
    && (forall addr :: addr in b.pending && !Expired(b.pending[addr], now) ==>
         addr in a.pending && a.pending[addr] == b.pending[addr])
  }

  lemma VerifyAgrees(now: int, a: StoreState, b: StoreState, token: string, received: Option<int>, f: Faults)
    requires AgreeFrom(now, a, b)
    ensures Verified(a, token, now, received, f).1 == Verified(b, token, now, received, f).1
    ensures AgreeFrom(now, Verified(a, token, now, received, f).0, Verified(b, token, now, received, f).0)
  {
  }

  lemma IssueAgrees(backend: Backend, now: int, a: StoreState, b: StoreState, addr: string, price: int, fault: Fault)
    requires AgreeFrom(now, a, b)
    ensures AgreeFrom(now, Issued(backend, a, price, Some(addr), now, fault).0,
                      Issued(backend, b, price, Some(addr), now, fault).0)
  {
  }

  lemma EmptyAgrees(now: int)
    ensures AgreeFrom(now, EMPTY_STORE, EMPTY_STORE)
  {
  }

  lemma LaterAgrees(now: int, later: int, a: StoreState, b: StoreState)
    requires AgreeFrom(now, a, b) && now <= later
    ensures AgreeFrom(later, a, b)
  {
  }

  lemma PruneAgrees(backend: Backend, now: int, a: StoreState, b: StoreState)
    requires AgreeFrom(now, a, b)
    ensures AgreeFrom(now, a.(pending := Pruned(backend, a.pending, now)), b)
  {
    forall addr | addr in a.pending { PrunableIsExpired(backend, a.pending[addr], now); }
  }

  lemma {:induction false} PrunedStoreAgrees(backend: Backend, trace: seq<Event>, now: int)
    requires Monotone(trace) && Reached(trace, now)
    ensures AgreeFrom(now, After(backend, true, trace), After(backend, false, trace))
    decreases |trace|
  {
    hide AgreeFrom, Issued, Verified, Pruned;
    if trace == [] {
      EmptyAgrees(now);
    } else {
      var before, e := trace[..|trace| - 1], trace[|trace| - 1];
      PrunedStoreAgrees(backend, before, e.at);
      var a, b := After(backend, true, before), After(backend, false, before);
      match e {
        case Issue(addr, price, at, fault) => IssueAgrees(backend, at, a, b, addr, price, fault);
        case Verify(token, at, received, faults) => VerifyAgrees(at, a, b, token, received, faults.On(backend));
        case Prune(at) => PruneAgrees(backend, at, a, b);
      }
      LaterAgrees(e.at, now, After(backend, true, trace), After(backend, false, trace));
    }
  }

  /** Whatever is pruned and when, every VerifyProof returns what it would have returned without pruning. */
  lemma PruningIsUnobservable(backend: Backend, trace: seq<Event>, i: nat)
    requires Monotone(trace) && i < |trace| && trace[i].Verify?
    ensures Returned(backend, true, trace, i) == Returned(backend, false, trace, i)
  {
    PrunedStoreAgrees(backend, trace[..i], trace[i].at);
    var v := trace[i];
    VerifyAgrees(v.at, After(backend, true, trace[..i]), After(backend, false, trace[..i]),
                 v.token, v.received, v.faults.On(backend));
  }

  // --- SQLite against MemStore ---

  /** Every address is issued once, as getnewaddress promises. */
  predicate FreshIssues(trace: seq<Event>) {
    forall i, j :: 0 <= i < j < |trace| && trace[i].Issue? && trace[j].Issue? ==> trace[i].addr != trace[j].addr
  }

  predicate Faultless(trace: seq<Event>) {
    forall i :: 0 <= i < |trace| ==>
      && (trace[i].Issue? ==> trace[i].fault.NoFault?)
      && (trace[i].Verify? ==> trace[i].faults == NO_FAULTS)
  }

  ghost predicate IssuedIn(trace: seq<Event>, addr: string, price: int, expiresAt: int) {
    exists j :: 0 <= j < |trace| && trace[j].Issue? && trace[j].addr == addr && trace[j].price == price > 0
      && trace[j].at + PENDING_TTL == expiresAt
  }

  predicate WasIssued(trace: seq<Event>, addr: string) {
    exists j :: 0 <= j < |trace| && trace[j].Issue? && trace[j].addr == addr
  }

  /** addr was issued, the whole second of its expiry is over at `now`, but not the expiry itself. */
  ghost predicate InWindow(trace: seq<Event>, addr: string, now: int) {
    exists price, expiresAt :: IssuedIn(trace, addr, price, expiresAt) && Unix(expiresAt) * SECOND < now <= expiresAt
  }

  /** The entry that SQLite has for an address that MemStore has pending as e. */
  function Truncated(e: PendingEntry): PendingEntry {
    Stored(SQLite, e.sats, e.expiresAt)
  }

  /**
   MemStore pends every address with its exact expiry and SQLite with the whole
   second; SQLite can have lost one only once that second is over.  MemStore may
   have accepted more, and what it accepted SQLite no longer honours.
  */
  ghost predicate Simulates(trace: seq<Event>, now: int, m: StoreState, q: StoreState) {
    && (forall a :: a in m.pending ==> IssuedIn(trace, a, m.pending[a].sats, m.pending[a].expiresAt))
    && (forall a :: a in m.pending && !Expired(Truncated(m.pending[a]), now) ==>
         a in q.pending && q.pending[a] == Truncated(m.pending[a]))
    && (forall a :: a in q.pending && !Expired(q.pending[a], now) ==>
         a in m.pending && q.pending[a] == Truncated(m.pending[a]))
    && q.used <= m.used
    && (forall a :: a in m.used ==> a !in m.pending && WasIssued(trace, a))
    && (forall a :: a in q.pending ==> WasIssued(trace, a))
  }

  /** Two answers that a client cannot tell apart. */
  predicate SameAnswer(o: Outcome, p: Outcome) {
    || (o.Accepted? && p.Accepted? && o.addr == p.addr && o.received == p.received)
    || (o.Denied? && p.Denied?)
    || (o.Failed? && p.Failed?)
  }

  lemma TruncatedIsEarlier(e: PendingEntry)
    ensures Truncated(e).expiresAt <= e.expiresAt < Truncated(e).expiresAt + SECOND
  {
  }

  lemma {:induction false} IssuedInAppend(trace: seq<Event>, e: Event)
    ensures forall a, p, x :: IssuedIn(trace, a, p, x) ==> IssuedIn(trace + [e], a, p, x)
    ensures forall a :: WasIssued(trace + [e], a) <==> WasIssued(trace, a) || (e.Issue? && e.addr == a)
  {
    forall a, p, x | IssuedIn(trace, a, p, x)
      ensures IssuedIn(trace + [e], a, p, x)
    {
      var j :| 0 <= j < |trace| && trace[j].Issue? && trace[j].addr == a && trace[j].price == p > 0
        && trace[j].at + PENDING_TTL == x;
      assert (trace + [e])[j] == trace[j];
    }
    forall a
      ensures WasIssued(trace + [e], a) <==> WasIssued(trace, a) || (e.Issue? && e.addr == a)
    {
      if WasIssued(trace, a) {
        var j :| 0 <= j < |trace| && trace[j].Issue? && trace[j].addr == a;
        assert (trace + [e])[j] == trace[j];
      } else if e.Issue? && e.addr == a {
        assert (trace + [e])[|trace|] == e;
      }
    }
  }

  lemma IssuedOnce(trace: seq<Event>, addr: string, p: int, x: int, p': int, x': int)
    requires FreshIssues(trace) && IssuedIn(trace, addr, p, x) && IssuedIn(trace, addr, p', x')
    ensures p == p' && x == x'
  {
  }

  lemma IssuedInWas(trace: seq<Event>, addr: string, p: int, x: int)
    requires IssuedIn(trace, addr, p, x)
    ensures WasIssued(trace, addr)
  {
  }

  lemma StoresSimulate(trace: seq<Event>, now: int, m: StoreState, q: StoreState, token: string, received: Option<int>)
    requires Simulates(trace, now, m, q)
    ensures Simulates(trace, now, Verified(m, token, now, received, NO_FAULTS).0,
                      Verified(q, token, now, received, NO_FAULTS).0)
  {
    var addr := TrimSpace(token);
    if addr in m.pending {
      var e := m.pending[addr];
      TruncatedIsEarlier(e);
      IssuedInWas(trace, addr, e.sats, e.expiresAt);
    }
  }

  /** SQLite answers as MemStore does, except that in the window it always says no. */
  lemma AnswersSimulate(trace: seq<Event>, now: int, m: StoreState, q: StoreState, token: string, received: Option<int>)
    requires Simulates(trace, now, m, q) && FreshIssues(trace)
    ensures var mo := Verified(m, token, now, received, NO_FAULTS).1;
            var qo := Verified(q, token, now, received, NO_FAULTS).1;
            if InWindow(trace, TrimSpace(token), now) then qo.Denied? else SameAnswer(qo, mo)
  {
    var addr := TrimSpace(token);
    if addr in m.pending {
      var e := m.pending[addr];
      TruncatedIsEarlier(e);
      if InWindow(trace, addr, now) {
        var p, x :| IssuedIn(trace, addr, p, x) && Unix(x) * SECOND < now <= x;
        IssuedOnce(trace, addr, p, x, e.sats, e.expiresAt);
      }
    }
  }

  lemma IssueSimulates(trace: seq<Event>, m: StoreState, q: StoreState, addr: string, price: int, at: int)
    requires Simulates(trace, at, m, q) && !WasIssued(trace, addr)
    ensures Simulates(trace + [Issue(addr, price, at, NoFault)], at,
                      Issued(Mem, m, price, Some(addr), at, NoFault).0,
                      Issued(SQLite, q, price, Some(addr), at, NoFault).0)
  {
    var e := Issue(addr, price, at, NoFault);
    IssuedInAppend(trace, e);
    assert (trace + [e])[|trace|] == e;
    if price > 0 {
      assert IssuedIn(trace + [e], addr, price, at + PENDING_TTL);
    }
    forall a | a in m.pending ensures a != addr {
      IssuedInWas(trace, a, m.pending[a].sats, m.pending[a].expiresAt);
    }
  }

  lemma PruneSimulates(trace: seq<Event>, at: int, m: StoreState, q: StoreState)
    requires Simulates(trace, at, m, q)
    ensures Simulates(trace, at, m.(pending := Pruned(Mem, m.pending, at)),
                      q.(pending := Pruned(SQLite, q.pending, at)))
  {
    forall a | a in m.pending { TruncatedIsEarlier(m.pending[a]); }
    forall a | a in q.pending { PrunableIsExpired(SQLite, q.pending[a], at); }
  }

  lemma AppendSimulates(trace: seq<Event>, e: Event, now: int, m: StoreState, q: StoreState)
    requires Simulates(trace, now, m, q)
    ensures Simulates(trace + [e], now, m, q)
  {
    IssuedInAppend(trace, e);
  }

  lemma LaterSimulates(trace: seq<Event>, now: int, later: int, m: StoreState, q: StoreState)
    requires Simulates(trace, now, m, q) && now <= later
    ensures Simulates(trace, later, m, q)
  {
  }

  lemma {:induction false} SQLiteSimulates(trace: seq<Event>, now: int)
    requires Monotone(trace) && Reached(trace, now) && FreshIssues(trace) && Faultless(trace)
    ensures Simulates(trace, now, After(Mem, true, trace), After(SQLite, true, trace))
    decreases |trace|
  {
    if trace == [] {
    } else {
      var before, e := trace[..|trace| - 1], trace[|trace| - 1];
      assert trace == before + [e];
      SQLiteSimulates(before, e.at);
      var m, q := After(Mem, true, before), After(SQLite, true, before);
      var m', q' := After(Mem, true, trace), After(SQLite, true, trace);
      match e {
        case Issue(addr, price, at, fault) =>
          assert !WasIssued(before, addr);
          IssueSimulates(before, m, q, addr, price, at);
        case Verify(token, at, received, faults) =>
          StoresSimulate(before, at, m, q, token, received);
          AppendSimulates(before, e, at, m', q');
        case Prune(at) =>
          PruneSimulates(before, at, m, q);
          AppendSimulates(before, e, at, m', q');
      }
      LaterSimulates(trace, e.at, now, m', q');
    }
  }

  /**
   Over one trace the SQLite-backed verifier returns what the MemStore-backed one
   returns, except within the last fraction of a second of an address's life,
   when it returns false.  So it accepts only where MemStore accepts.
  */
  lemma SQLiteRefinesMem(trace: seq<Event>, i: nat)
    requires Monotone(trace) && FreshIssues(trace) && Faultless(trace)
    requires i < |trace| && trace[i].Verify?
    ensures var mo, qo := Returned(Mem, true, trace, i), Returned(SQLite, true, trace, i);
            && (if InWindow(trace[..i], TrimSpace(trace[i].token), trace[i].at) then qo.Denied? else SameAnswer(qo, mo))
            && (qo.Accepted? ==> mo.Accepted?)
  {
    SQLiteSimulates(trace[..i], trace[i].at);
    AnswersSimulate(trace[..i], trace[i].at, After(Mem, true, trace[..i]), After(SQLite, true, trace[..i]),
                    trace[i].token, trace[i].received);
  }

  /** The window is real: paid in the last half second, accepted by MemStore, refused by SQLite. */
  lemma WindowIsReal()
    ensures var half := SECOND / 2;
            var trace := [Issue("a", 1, half, NoFault), Verify("a", half + PENDING_TTL, Some(1), NO_FAULTS)];
            && Monotone(trace) && FreshIssues(trace) && Faultless(trace)
            && Returned(Mem, true, trace, 1).Accepted?
            && Returned(SQLite, true, trace, 1).Denied?
  {
    var half := SECOND / 2;
    var issue := Issue("a", 1, half, NoFault);
    var trace := [issue, Verify("a", half + PENDING_TTL, Some(1), NO_FAULTS)];
    assert trace[..1] == [issue];
    assert [issue][..0] == [];
    assert TrimSpace("a") == "a";
    assert After(Mem, true, [issue]).pending == map["a" := PendingEntry(1, half + PENDING_TTL)];
    assert After(SQLite, true, [issue]).pending == map["a" := PendingEntry(1, PENDING_TTL)];
  }

  // --- Acceptance under faults ---

  /**
   The faults that cannot make SQLite accept what MemStore would refuse: the
   look-ups succeed and the delete is carried out, whatever becomes of its reply
   and of the mark.
  */
  predicate Benign(f: Faults) {
    f.isUsed.NoFault? && f.get.NoFault? && Applied(f.del)
  }

  predicate BenignTrace(trace: seq<Event>) {
    forall i :: 0 <= i < |trace| && trace[i].Verify? ==> Benign(trace[i].faults)
  }

  /** What SQLite still honours MemStore honours too, and has not spent. */
  predicate Covers(trace: seq<Event>, now: int, m: StoreState, q: StoreState) {
    && (forall a :: a in q.pending && !Expired(q.pending[a], now) ==>
         a in m.pending && q.pending[a] == Truncated(m.pending[a]) && a !in m.used)
    && (forall a :: a in m.used + q.used ==> WasIssued(trace, a))
    && (forall a :: a in m.pending ==> WasIssued(trace, a) && a !in m.used)
    && (forall a :: a in q.pending ==> WasIssued(trace, a) && a !in q.used)
  }

  lemma VerifyCovers(
    trace: seq<Event>, now: int, m: StoreState, q: StoreState, token: string, received: Option<int>, f: Faults)
    requires Covers(trace, now, m, q) && Benign(f)
    ensures Covers(trace, now, Verified(m, token, now, received, NO_FAULTS).0, Verified(q, token, now, received, f).0)
  {
    var addr := TrimSpace(token);
    if addr in m.pending { TruncatedIsEarlier(m.pending[addr]); }
  }

  /** What SQLite accepts MemStore accepts. */
  lemma AcceptanceCovers(
    trace: seq<Event>, now: int, m: StoreState, q: StoreState, token: string, received: Option<int>, f: Faults)
    requires Covers(trace, now, m, q)
    ensures Verified(q, token, now, received, f).1.Accepted? ==>
              Verified(m, token, now, received, NO_FAULTS).1.Accepted?
  {
    hide Verified;
    AcceptedIff(q, token, now, received, f);
    AcceptedIff(m, token, now, received, NO_FAULTS);
    var addr := TrimSpace(token);
    if addr in m.pending { TruncatedIsEarlier(m.pending[addr]); }
  }

  lemma IssueCovers(trace: seq<Event>, m: StoreState, q: StoreState, addr: string, price: int, at: int, fault: Fault)
    requires Covers(trace, at, m, q) && !WasIssued(trace, addr)
    ensures Covers(trace + [Issue(addr, price, at, fault)], at,
                   Issued(Mem, m, price, Some(addr), at, fault).0, Issued(SQLite, q, price, Some(addr), at, fault).0)
  {
    IssuedInAppend(trace, Issue(addr, price, at, fault));
  }

  lemma PruneCovers(trace: seq<Event>, at: int, m: StoreState, q: StoreState)
    requires Covers(trace, at, m, q)
    ensures Covers(trace, at, m.(pending := Pruned(Mem, m.pending, at)), q.(pending := Pruned(SQLite, q.pending, at)))
  {
    forall a | a in m.pending { TruncatedIsEarlier(m.pending[a]); }
  }

  lemma AppendCovers(trace: seq<Event>, e: Event, now: int, m: StoreState, q: StoreState)
    requires Covers(trace, now, m, q)
    ensures Covers(trace + [e], now, m, q)
  {
    IssuedInAppend(trace, e);
  }

  lemma LaterCovers(trace: seq<Event>, now: int, later: int, m: StoreState, q: StoreState)
    requires Covers(trace, now, m, q) && now <= later
    ensures Covers(trace, later, m, q)
  {
  }

  lemma {:induction false} MemCoversSQLite(trace: seq<Event>, now: int)
    requires Monotone(trace) && Reached(trace, now) && FreshIssues(trace) && BenignTrace(trace)
    ensures Covers(trace, now, After(Mem, true, trace), After(SQLite, true, trace))
    decreases |trace|
  {
    if trace == [] {
    } else {
      var before, e := trace[..|trace| - 1], trace[|trace| - 1];
      assert trace == before + [e];
      MemCoversSQLite(before, e.at);
      var m, q := After(Mem, true, before), After(SQLite, true, before);
      var m', q' := After(Mem, true, trace), After(SQLite, true, trace);
      match e {
        case Issue(addr, price, at, fault) =>
          assert !WasIssued(before, addr);
          IssueCovers(before, m, q, addr, price, at, fault);
        case Verify(token, at, received, faults) =>
          VerifyCovers(before, at, m, q, token, received, faults);
          AppendCovers(before, e, at, m', q');
        case Prune(at) =>
          PruneCovers(before, at, m, q);
          AppendCovers(before, e, at, m', q');
      }
      LaterCovers(trace, e.at, now, m', q');
    }
  }

  /** Whatever faults issuing meets, and benign ones in verifying, SQLite accepts only where MemStore does. */
  lemma AcceptanceRefines(trace: seq<Event>, i: nat)
    requires Monotone(trace) && FreshIssues(trace) && BenignTrace(trace)
    requires i < |trace| && trace[i].Verify?
    ensures Returned(SQLite, true, trace, i).Accepted? ==> Returned(Mem, true, trace, i).Accepted?
  {
    var v := trace[i];
    MemCoversSQLite(trace[..i], v.at);
    AcceptanceCovers(trace[..i], v.at, After(Mem, true, trace[..i]), After(SQLite, true, trace[..i]),
                     v.token, v.received, v.faults);
  }

  /** The verifications of a trace meet no faults, or these. */
  predicate Meets(trace: seq<Event>, f: Faults) {
    forall i :: 0 <= i < |trace| && trace[i].Verify? ==> trace[i].faults == NO_FAULTS || trace[i].faults == f
  }

  predicate Refines(trace: seq<Event>) {
    forall i :: 0 <= i < |trace| && trace[i].Verify? && Returned(SQLite, true, trace, i).Accepted? ==>
      Returned(Mem, true, trace, i).Accepted?
  }

  /** The benign faults are all there are: any other combination is followed by a second acceptance. */
  lemma AcceptanceRefinesIff(f: Faults)
    ensures Benign(f) <==>
            forall trace: seq<Event> :: Monotone(trace) && FreshIssues(trace) && Meets(trace, f) ==> Refines(trace)
  {
    if Benign(f) {
      forall trace: seq<Event> | Monotone(trace) && FreshIssues(trace) && Meets(trace, f) ensures Refines(trace) {
        forall i | 0 <= i < |trace| && trace[i].Verify? && Returned(SQLite, true, trace, i).Accepted?
          ensures Returned(Mem, true, trace, i).Accepted?
        {
          AcceptanceRefines(trace, i);
        }
      }
    } else {
      FailedCallIsRetried(f);
      var trace := Retry(f);
      assert Monotone(trace) && FreshIssues(trace) && Meets(trace, f);
      assert !Refines(trace) by { assert trace[2].Verify? && Returned(SQLite, true, trace, 2).Accepted?; }
    }
  }

  /** A paid verification that meets a fault, and the same one once more. */
  function Retry(f: Faults): seq<Event> {
    [Issue("a", 1, 0, NoFault), Verify("a", 0, Some(1), f), Verify("a", 0, Some(1), NO_FAULTS)]
  }

  /**
   When a look-up fails or the delete is refused, the client of SQLite is told to
   try again, and is then accepted where MemStore, which cannot fail, has accepted
   already.  Each still accepts the address once.
  */
  lemma FailedCallIsRetried(f: Faults)
    requires !Benign(f)
    ensures Returned(Mem, true, Retry(f), 1).Accepted? && Returned(Mem, true, Retry(f), 2).Denied?
    ensures Returned(SQLite, true, Retry(f), 1).Failed? && Returned(SQLite, true, Retry(f), 2).Accepted?
  {
    var issue, failing := Issue("a", 1, 0, NoFault), Verify("a", 0, Some(1), f);
    var trace := Retry(f);
    assert trace[..1] == [issue] && trace[..2] == [issue, failing];
    assert [issue][..0] == [] && [issue, failing][..1] == [issue];
    assert TrimSpace("a") == "a";
    var pending := map["a" := PendingEntry(1, PENDING_TTL)];
    assert f.On(Mem) == NO_FAULTS == NO_FAULTS.On(SQLite) && f.On(SQLite) == f;
    assert Stored(SQLite, 1, PENDING_TTL) == Stored(Mem, 1, PENDING_TTL) == pending["a"];
    assert After(Mem, true, [issue]).pending == pending;
    assert After(SQLite, true, [issue]).pending == pending;
    var start := StoreState({}, pending);
    assert After(Mem, true, [issue]) == start && After(SQLite, true, [issue]) == start;
    assert start.used + {"a"} == {"a"} && pending - {"a"} == map[];
    assert Verified(start, "a", 0, Some(1), NO_FAULTS) ==
           (StoreState({"a"}, map[]), Accepted("a", pending["a"], 1, 0));
    assert After(Mem, true, [issue, failing]) == StoreState({"a"}, map[]);
    assert After(SQLite, true, [issue, failing]) == start;
  }
}
