/**
 The on-chain payment from the payer's side: what the challenge says is what is
 asked of him, and whoever does as it says is let in.
*/
module OnchainPayers {
  import opened Wrappers
  import opened Stores
  import opened Onchain
  import opened OnchainTraces

  /** An address as bitcoind writes it. */
  predicate Plain(addr: string) {
    addr != "" && TrimSpace(addr) == addr
  }

  /** When a challenge is issued, and that the store then holds exactly what it says. */
  lemma IssuedIff(backend: Backend, s: StoreState, price: int, newAddress: Option<string>, at: int, fault: Fault)
    ensures var (s', r) := Issued(backend, s, price, newAddress, at, fault);
            && (r.Ok? <==> price > 0 && newAddress.Some? && Effective(backend, fault).NoFault?)
            && (r.Ok? ==>
                 && r.value.addr == newAddress.value && r.value.addr in s'.pending
                 && s'.pending[r.value.addr].sats == r.value.amountSats == price
                 && s'.pending == s.pending[r.value.addr := s'.pending[r.value.addr]] && s'.used == s.used)
            && (price <= 0 || newAddress.None? || Effective(backend, fault).Refused? ==> s' == s)
            && (price > 0 && newAddress.Some? && !Effective(backend, fault).Refused? ==>
                 s'.used == s.used && newAddress.value in s'.pending
                 && s'.pending == s.pending[newAddress.value := Stored(backend, price, at + PENDING_TTL)])
  {
  }

  /** The time that a challenge issued at `at` leaves, counted from the whole second. */
  predicate InTime(ch: Challenge, at: int, now: int) {
    now <= (Unix(at) + ch.expiresInSeconds) * SECOND
  }

  predicate TooLate(ch: Challenge, at: int, now: int) {
    now > at + ch.expiresInSeconds * SECOND
  }

  /** The last moment at which the store honours an address issued at `at`. */
  function Deadline(backend: Backend, at: int): int {
    match backend
    case Mem => at + 3600 * 1000000000
    case SQLite => (at / 1000000000 + 3600) * 1000000000
  }

  /** The challenge tells the payer the truth: he has at least the time it says, and at most a second more. */
  lemma DeadlineIsTold(backend: Backend, s: StoreState, price: int, addr: string, at: int)
    requires price > 0
    ensures var ch := Issued(backend, s, price, Some(addr), at, NoFault).1.value;
            forall now :: (InTime(ch, at, now) ==> now <= Deadline(backend, at))
                          && (TooLate(ch, at, now) ==> now > Deadline(backend, at))
  {
  }

  /** The entry as it is kept for an address issued at `at`, or as it was when it could still be used. */
  predicate Waits(backend: Backend, s: StoreState, addr: string, price: int, at: int, now: int) {
    && addr !in s.used
    && (addr in s.pending ==> s.pending[addr] == PendingEntry(price, Deadline(backend, at)))
    && (now <= Deadline(backend, at) ==> addr in s.pending)
  }

  lemma IssueWaits(backend: Backend, s: StoreState, addr: string, price: int, at: int)
    requires price > 0 && addr !in s.used
    ensures Waits(backend, Issued(backend, s, price, Some(addr), at, NoFault).0, addr, price, at, at)
  {
  }

  /** An attempt before enough has arrived. */
  predicate Unpaid(e: Event, addr: string, price: int) {
    e.Verify? && TrimSpace(e.token) == addr ==> e.received.None? || e.received.value < price
  }

  /** The store after one more event. */
  function Next(backend: Backend, s: StoreState, e: Event): StoreState {
    match e
    case Issue(addr, price, at, fault) => Issued(backend, s, price, Some(addr), at, fault).0
    case Verify(token, at, received, faults) => Verified(s, token, at, received, faults.On(backend)).0
    case Prune(at) => s.(pending := Pruned(backend, s.pending, at))
  }

  lemma AfterNext(backend: Backend, trace: seq<Event>)
    requires trace != []
    ensures After(backend, true, trace) ==
            Next(backend, After(backend, true, trace[..|trace| - 1]), trace[|trace| - 1])
  {
  }

  lemma EventWaits(backend: Backend, s: StoreState, addr: string, price: int, at: int, e: Event)
    requires Waits(backend, s, addr, price, at, e.at) && Unpaid(e, addr, price)
    requires e.Issue? ==> e.addr != addr
    ensures Waits(backend, Next(backend, s, e), addr, price, at, e.at)
  {
    if e.Prune? && addr in s.pending { PrunableIsExpired(backend, s.pending[addr], e.at); }
  }

  lemma {:induction false} OnlyIssued(backend: Backend, trace: seq<Event>, addr: string)
    requires forall i :: 0 <= i < |trace| && trace[i].Issue? ==> trace[i].addr != addr
    ensures var s := After(backend, true, trace); addr !in s.used && addr !in s.pending
    decreases |trace|
  {
    if trace == [] {
    } else {
      OnlyIssued(backend, trace[..|trace| - 1], addr);
      AfterNext(backend, trace);
    }
  }

  /** The i-th event issues this address, and until the j-th nobody pays for it. */
  predicate Pending(trace: seq<Event>, i: nat, j: nat) {
    && i < j <= |trace| && Monotone(trace) && FreshIssues(trace)
    && trace[i].Issue? && trace[i].price > 0 && trace[i].fault.NoFault?
    && forall k :: i < k < j ==> Unpaid(trace[k], trace[i].addr, trace[i].price)
  }

  lemma {:induction false} WaitsUntil(backend: Backend, trace: seq<Event>, i: nat, j: nat)
    requires Pending(trace, i, j)
    ensures Waits(backend, After(backend, true, trace[..j]),
                  trace[i].addr, trace[i].price, trace[i].at, trace[j - 1].at)
    decreases j
  {
    hide After, Next, Unpaid;
    var e := trace[i];
    assert trace[..j][..j - 1] == trace[..j - 1];
    AfterNext(backend, trace[..j]);
    if j == i + 1 {
      OnlyIssued(backend, trace[..i], e.addr);
      IssueIsNext(backend, After(backend, true, trace[..i]), e);
      IssueWaits(backend, After(backend, true, trace[..i]), e.addr, e.price, e.at);
    } else {
      WaitsUntil(backend, trace, i, j - 1);
      WaitsLater(backend, After(backend, true, trace[..j - 1]), e.addr, e.price, e.at,
                 trace[j - 2].at, trace[j - 1].at);
      EventWaits(backend, After(backend, true, trace[..j - 1]), e.addr, e.price, e.at, trace[j - 1]);
    }
  }

  lemma IssueIsNext(backend: Backend, s: StoreState, e: Event)
    requires e.Issue?
    ensures Next(backend, s, e) == Issued(backend, s, e.price, Some(e.addr), e.at, e.fault).0
  {
  }

  lemma WaitsLater(backend: Backend, s: StoreState, addr: string, price: int, at: int, now: int, later: int)
    requires Waits(backend, s, addr, price, at, now) && now <= later
    ensures Waits(backend, s, addr, price, at, later)
  {
  }

  /**
   Whatever else happens, and however often he has asked too early, the payer who
   hands in the address is let in exactly if the price has arrived and the deadline
   of his challenge has not passed.
  */
  lemma PayerIsServedIff(backend: Backend, trace: seq<Event>, i: nat, j: nat)
    requires Pending(trace, i, j) && j < |trace| && trace[j].Verify? && trace[j].faults == NO_FAULTS
    requires Plain(trace[i].addr) && TrimSpace(trace[j].token) == trace[i].addr && trace[j].received.Some?
    ensures Returned(backend, true, trace, j).Accepted? <==>
            trace[j].received.value >= trace[i].price && trace[j].at <= Deadline(backend, trace[i].at)
  {
    hide After, Verified;
    var e, v := trace[i], trace[j];
    var s := After(backend, true, trace[..j]);
    WaitsUntil(backend, trace, i, j);
    WaitsLater(backend, s, e.addr, e.price, e.at, trace[j - 1].at, v.at);
    assert v.faults.On(backend) == NO_FAULTS;
    AcceptedIff(s, v.token, v.at, v.received, NO_FAULTS);
  }

  // --- What a verification leaves behind ---

  /** It touches its own address only. */
  lemma VerifyTouchesOne(s: StoreState, token: string, now: int, received: Option<int>, f: Faults, other: string)
    requires other != TrimSpace(token)
    ensures var s' := Verified(s, token, now, received, f).0;
            && (other in s'.used <==> other in s.used)
            && (other in s'.pending <==> other in s.pending)
            && (other in s.pending ==> s'.pending[other] == s.pending[other])
  {
  }

  /**
   Its own address it takes from the pending ones when it is accepted or found
   expired, and marks used when it is accepted; otherwise, where no call fails,
   everything stays.
  */
  lemma VerifyTakesIff(s: StoreState, token: string, now: int, received: Option<int>)
    ensures var (s', o) := Verified(s, token, now, received, NO_FAULTS);
            var addr := TrimSpace(token);
            && (o.Accepted? ==> addr !in s'.pending && s'.used == s.used + {addr})
            && (!o.Accepted? ==> s'.used == s.used)
            && (addr != "" && addr !in s.used && addr in s.pending && now > s.pending[addr].expiresAt ==>
                  o == Denied && addr !in s'.pending)
            && (!o.Accepted? && addr in s.pending && now <= s.pending[addr].expiresAt ==> s' == s)
            && (o == Failed <==> addr != "" && addr !in s.used && addr in s.pending
                                 && now <= s.pending[addr].expiresAt && received.None?)
  {
  }
}
