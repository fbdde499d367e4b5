/**
 The on-chain verifier as a concurrent protocol.  Every VerifyProof and every
 IssueChallenge in flight has its own program counter; one event runs one
 instruction of one of them, prunes the store, moves the clock or kills the
 process.  A run is any sequence of events.
*/
module OnchainProtocol {
  import opened Wrappers
  import opened Stores
  import opened Onchain

  /** Where a VerifyProof call stands: the instruction it runs next. */
  datatype PC =
    | CheckUsed(addr: string)                                                // outside the lock
    | Lock(addr: string)
    | ReadPending(addr: string)
    | TestClock(addr: string, entry: PendingEntry)
    | DropStale(addr: string)
    | AskBitcoind(addr: string, entry: PendingEntry, checkedAt: int)
    | TakePending(addr: string, entry: PendingEntry, checkedAt: int, received: int)
    | Mark(addr: string, entry: PendingEntry, checkedAt: int, received: int)
    | Unlock(outcome: Outcome)
    | Return(outcome: Outcome)                                               // not holding the lock

  predicate HoldsLock(pc: PC) {
    !pc.CheckUsed? && !pc.Lock? && !pc.Return?
  }

  /** Where an IssueChallenge call stands. */
  datatype IssuePC =
    | ReadClock(addr: string, price: int)
    | Store(addr: string, price: int, expiresAt: int)

  /** What a call was told: the address's price and its exact expiry. */
  datatype Offer = Offer(price: int, expiresAt: Option<int>)

  datatype State = State(
    backend: Backend,
    consultUsed: bool,                 // false: drop the IsUsed test altogether
    now: int,
    store: StoreState,
    holder: Option<nat>,               // v.mu
    calls: map<nat, PC>,
    issuing: map<nat, IssuePC>,
    offers: map<string, Offer>,        // every address getnewaddress ever returned
    returned: seq<Outcome>)            // what VerifyProof returned, over all processes

  datatype Event =
    | Tick(elapsed: nat)
    | NewAddress(i: nat, price: int, addr: string)
    | IssueStep(i: nat, fault: Fault)
    | VerifyStart(t: nat, token: string)
    | VerifyStep(t: nat, received: Option<int>, faults: Faults)
    | Prune(before: int, fault: Fault)
    | Crash

  function Init(backend: Backend, consultUsed: bool): State {
    State(backend, consultUsed, 0, EMPTY_STORE, None, map[], map[], map[], [])
  }

  /** One instruction of a call that is not waiting for the lock nor about to return. */
  function Instruction(s: State, pc: PC, received: Option<int>, f: Faults): (PC, StoreState)
    requires !pc.Lock? && !pc.Unlock? && !pc.Return?
  {
    match pc
    case CheckUsed(addr) =>
      (if s.consultUsed && !f.isUsed.NoFault? then Return(Failed)
       else if s.consultUsed && addr in s.store.used then Return(Denied)
       else Lock(addr), s.store)
    case ReadPending(addr) =>
      (if !f.get.NoFault? then Unlock(Failed)
       else if addr !in s.store.pending then Unlock(Denied)
       else TestClock(addr, s.store.pending[addr]), s.store)
    case TestClock(addr, entry) =>
      (if Expired(entry, s.now) then DropStale(addr) else AskBitcoind(addr, entry, s.now), s.store)
    case DropStale(addr) =>
      (Unlock(Denied), Without(s.store, addr, f.del))
    case AskBitcoind(addr, entry, checkedAt) =>
      (if received.None? then Unlock(Failed)
       else if received.value < entry.sats then Unlock(Denied)
       else TakePending(addr, entry, checkedAt, received.value), s.store)
    case TakePending(addr, entry, checkedAt, sats) =>
      (if f.del.NoFault? then Mark(addr, entry, checkedAt, sats) else Unlock(Failed), Without(s.store, addr, f.del))
    case Mark(addr, entry, checkedAt, sats) =>
      (Unlock(if f.mark.NoFault? then Accepted(addr, entry, sats, checkedAt) else Failed),
       if Applied(f.mark) then s.store.(used := s.store.used + {addr}) else s.store)
  }

  /** The instruction that call t runs next; a call waiting for the lock stays where it is. */
  function Verifying(s: State, t: nat, received: Option<int>, faults: Faults): State
    requires t in s.calls
  {
    var pc := s.calls[t];
    if pc.Lock? then
      if s.holder.Some? then s else s.(holder := Some(t), calls := s.calls[t := ReadPending(pc.addr)])
    else if pc.Unlock? then
      s.(holder := None, calls := s.calls - {t}, returned := s.returned + [pc.outcome])
    else if pc.Return? then
      s.(calls := s.calls - {t}, returned := s.returned + [pc.outcome])
    else
      var (next, store) := Instruction(s, pc, received, faults.On(s.backend));
      s.(store := store, calls := s.calls[t := next])
  }

  function Without(store: StoreState, addr: string, fault: Fault): StoreState {
    if Applied(fault) then store.(pending := store.pending - {addr}) else store
  }

  function Issuing(s: State, i: nat, fault: Fault): State
    requires i in s.issuing
  {
    match s.issuing[i]
    case ReadClock(addr, price) =>
      var expiresAt := s.now + PENDING_TTL;
      s.(issuing := s.issuing[i := Store(addr, price, expiresAt)],
         offers := s.offers[addr := Offer(price, Some(expiresAt))])
    case Store(addr, price, expiresAt) =>
      s.(issuing := s.issuing - {i},
         store := if Applied(Effective(s.backend, fault))
                  then s.store.(pending := s.store.pending[addr := Stored(s.backend, price, expiresAt)])
                  else s.store)
  }

  /** Events that cannot happen leave the state alone; getnewaddress never repeats an address. */
  function Step(s: State, e: Event): State {
    match e
    case Tick(elapsed) => s.(now := s.now + elapsed)
    case NewAddress(i, price, addr) =>
      if price <= 0 || i in s.issuing || addr in s.offers then s
      else s.(issuing := s.issuing[i := ReadClock(addr, price)], offers := s.offers[addr := Offer(price, None)])
    case IssueStep(i, fault) => if i in s.issuing then Issuing(s, i, fault) else s
    case VerifyStart(t, token) =>
      var addr := TrimSpace(token);
      if t in s.calls then s
      else s.(calls := s.calls[t := if addr == "" then Return(Denied) else CheckUsed(addr)])
    case VerifyStep(t, received, faults) => if t in s.calls then Verifying(s, t, received, faults) else s
    case Prune(before, fault) =>
      if before > s.now || !Applied(Effective(s.backend, fault)) then s
      else s.(store := s.store.(pending := Pruned(s.backend, s.store.pending, before)))
    case Crash =>
      s.(holder := None, calls := map[], issuing := map[],
         store := if s.backend.SQLite? then s.store else EMPTY_STORE)
  }

  function Run(s: State, events: seq<Event>): State
    decreases |events|
  {
    if events == [] then s else Run(Step(s, events[0]), events[1..])
  }

  // --- The invariant ---

  /** The address that the lock holder has found pending, or is about to report. */
  function Claim(pc: PC): Option<string> {
    match pc
    case TestClock(a, _) => Some(a)
    case AskBitcoind(a, _, _) => Some(a)
    case TakePending(a, _, _, _) => Some(a)
    case Mark(a, _, _, _) => Some(a)
    case Unlock(Accepted(a, _, _, _)) => Some(a)
    case _ => None
  }

  /** Between the delete and the return the entry is gone. */
  predicate HasTaken(pc: PC) {
    pc.Mark? || (pc.Unlock? && pc.outcome.Accepted?)
  }

  /** The addresses for which VerifyProof has returned true. */
  function Spent(returned: seq<Outcome>): set<string> {
    set o | o in returned && o.Accepted? :: o.addr
  }

  predicate IsSpent(s: State, addr: string) {
    addr in Spent(s.returned)
  }

  /** The entry is the one that was offered, expiring no later than was said. */
  predicate Genuine(s: State, addr: string, entry: PendingEntry) {
    && addr in s.offers
    && s.offers[addr].price == entry.sats
    && s.offers[addr].expiresAt.Some?
    && entry.expiresAt <= s.offers[addr].expiresAt.value
  }

  predicate Justified(s: State, o: Outcome)
    requires o.Accepted?
  {
    && Genuine(s, o.addr, o.entry)
    && o.received >= s.offers[o.addr].price
    && o.checkedAt <= o.entry.expiresAt
    && o.checkedAt <= s.now
  }

  predicate PCOk(s: State, pc: PC) {
    match pc
    case TestClock(a, e) => Genuine(s, a, e)
    case AskBitcoind(a, e, c) => Genuine(s, a, e) && c <= e.expiresAt && c <= s.now
    case TakePending(a, e, c, r) => Justified(s, Accepted(a, e, r, c))
    case Mark(a, e, c, r) => Justified(s, Accepted(a, e, r, c))
    case Unlock(o) => o.Accepted? ==> Justified(s, o) && (s.backend.SQLite? ==> o.addr in s.store.used)
    case Return(o) => !o.Accepted?
    case _ => true
  }

  /** Only the holder of v.mu is between Lock and Unlock. */
  predicate LockInv(s: State) {
    && (forall t :: t in s.calls && HoldsLock(s.calls[t]) ==> s.holder == Some(t))
    && (s.holder.Some? ==> s.holder.value in s.calls && HoldsLock(s.calls[s.holder.value]))
  }

  predicate CallsInv(s: State) {
    forall t :: t in s.calls ==> PCOk(s, s.calls[t])
  }

  /** A claimed address is not spent, and once taken it is not pending. */
  predicate ClaimInv(s: State) {
    forall t :: t in s.calls && Claim(s.calls[t]).Some? ==>
      && !IsSpent(s, Claim(s.calls[t]).value)
      && (HasTaken(s.calls[t]) ==> Claim(s.calls[t]).value !in s.store.pending)
  }

  predicate PendingInv(s: State) {
    forall a :: a in s.store.pending ==> !IsSpent(s, a) && Genuine(s, a, s.store.pending[a])
  }

  /** An address being issued has been neither stored, claimed nor spent, and belongs to one call. */
  predicate IssuingInv(s: State) {
    && (forall i :: i in s.issuing ==>
         var pc := s.issuing[i];
         && pc.addr in s.offers && s.offers[pc.addr].price == pc.price
         && s.offers[pc.addr].expiresAt == (if pc.Store? then Some(pc.expiresAt) else None)
         && !IsSpent(s, pc.addr) && pc.addr !in s.store.pending)
    && (forall i, j :: i in s.issuing && j in s.issuing && i != j ==> s.issuing[i].addr != s.issuing[j].addr)
    && (forall i, t :: i in s.issuing && t in s.calls ==> Claim(s.calls[t]) != Some(s.issuing[i].addr))
  }

  predicate ReturnedInv(s: State) {
    && (forall i :: 0 <= i < |s.returned| && s.returned[i].Accepted? ==> Justified(s, s.returned[i]))
    && (forall i, j :: 0 <= i < j < |s.returned| && s.returned[i].Accepted? && s.returned[j].Accepted? ==>
         s.returned[i].addr != s.returned[j].addr)
    && (s.backend.SQLite? ==>
         forall i :: 0 <= i < |s.returned| && s.returned[i].Accepted? ==> s.returned[i].addr in s.store.used)
  }

  /** What each call knows is true. */
  predicate Truthful(s: State) {
    LockInv(s) && CallsInv(s) && ReturnedInv(s)
  }

  /** Nobody else has a claim to what is pending, claimed or being issued. */
  predicate Exclusive(s: State) {
    ClaimInv(s) && PendingInv(s) && IssuingInv(s)
  }

  predicate Inv(s: State) {
    Truthful(s) && Exclusive(s)
  }

  lemma TickKeepsInv(s: State, elapsed: nat)
    requires Inv(s)
    ensures Inv(Step(s, Tick(elapsed)))
  {
  }

  lemma NewAddressKeepsTruthful(s: State, s': State, i: nat, price: int, addr: string)
    requires Inv(s) && addr !in s.offers
    requires s' == s.(issuing := s.issuing[i := ReadClock(addr, price)], offers := s.offers[addr := Offer(price, None)])
    ensures Truthful(s') && ClaimInv(s') && PendingInv(s')
  {
  }

  lemma NewAddressKeepsIssuing(s: State, s': State, i: nat, price: int, addr: string)
    requires Inv(s) && addr !in s.offers && i !in s.issuing
    requires s' == s.(issuing := s.issuing[i := ReadClock(addr, price)], offers := s.offers[addr := Offer(price, None)])
    ensures IssuingInv(s')
  {
    assert forall t :: t in s.calls ==> PCOk(s, s.calls[t]);
    SpentIsOffered(s);
  }

  lemma SpentIsOffered(s: State)
    requires ReturnedInv(s)
    ensures Spent(s.returned) <= s.offers.Keys
  {
    forall o | o in s.returned && o.Accepted?
      ensures o.addr in s.offers
    {
      var i :| 0 <= i < |s.returned| && s.returned[i] == o;
      assert Justified(s, s.returned[i]);
    }
  }

  lemma StampKeepsTruthful(s: State, s': State, i: nat, addr: string, price: int)
    requires Inv(s) && i in s.issuing && s.issuing[i] == ReadClock(addr, price)
    requires var expiresAt := s.now + PENDING_TTL;
             s' == s.(issuing := s.issuing[i := Store(addr, price, expiresAt)],
                      offers := s.offers[addr := Offer(price, Some(expiresAt))])
    ensures Truthful(s')
  {
  }

  lemma StampKeepsExclusive(s: State, s': State, i: nat, addr: string, price: int)
    requires Inv(s) && i in s.issuing && s.issuing[i] == ReadClock(addr, price)
    requires var expiresAt := s.now + PENDING_TTL;
             s' == s.(issuing := s.issuing[i := Store(addr, price, expiresAt)],
                      offers := s.offers[addr := Offer(price, Some(expiresAt))])
    ensures Exclusive(s')
  {
    hide LockInv, CallsInv, ReturnedInv;
  }

  lemma StoreKeepsTruthful(s: State, s': State, i: nat, addr: string, price: int, expiresAt: int)
    requires Inv(s) && i in s.issuing && s.issuing[i] == Store(addr, price, expiresAt)
    requires s' == s.(issuing := s.issuing - {i},
                      store := s.store.(pending := s.store.pending[addr := Stored(s.backend, price, expiresAt)]))
    ensures Truthful(s')
  {
  }

  lemma StoreKeepsExclusive(s: State, s': State, i: nat, addr: string, price: int, expiresAt: int)
    requires Inv(s) && i in s.issuing && s.issuing[i] == Store(addr, price, expiresAt)
    requires s' == s.(issuing := s.issuing - {i},
                      store := s.store.(pending := s.store.pending[addr := Stored(s.backend, price, expiresAt)]))
    ensures Exclusive(s')
  {
    assert Genuine(s', addr, Stored(s.backend, price, expiresAt));
  }

  lemma DropIssuingKeepsInv(s: State, i: nat)
    requires Inv(s)
    ensures Inv(s.(issuing := s.issuing - {i}))
  {
  }

  lemma IssueStepKeepsInv(s: State, i: nat, fault: Fault)
    requires Inv(s) && i in s.issuing
    ensures Inv(Issuing(s, i, fault))
  {
    match s.issuing[i]
    case ReadClock(addr, price) =>
      StampKeepsTruthful(s, Issuing(s, i, fault), i, addr, price);
      StampKeepsExclusive(s, Issuing(s, i, fault), i, addr, price);
    case Store(addr, price, expiresAt) =>
      if Applied(Effective(s.backend, fault)) {
        StoreKeepsTruthful(s, Issuing(s, i, fault), i, addr, price, expiresAt);
        StoreKeepsExclusive(s, Issuing(s, i, fault), i, addr, price, expiresAt);
      } else {
        DropIssuingKeepsInv(s, i);
      }
  }

  lemma VerifyStartKeepsInv(s: State, t: nat, pc: PC)
    requires Inv(s) && t !in s.calls && (pc.CheckUsed? || pc == Return(Denied))
    ensures Inv(s.(calls := s.calls[t := pc]))
  {
  }

  lemma PruneKeepsInv(s: State, before: int, fault: Fault)
    requires Inv(s)
    ensures Inv(Step(s, Prune(before, fault)))
  {
    ShrinkKeepsInv(s, Pruned(s.backend, s.store.pending, before));
  }

  lemma ShrinkKeepsInv(s: State, pending: map<string, PendingEntry>)
    requires Inv(s)
    requires pending.Keys <= s.store.pending.Keys
    requires forall a :: a in pending ==> pending[a] == s.store.pending[a]
    ensures Inv(s.(store := s.store.(pending := pending)))
  {
  }

  lemma CrashKeepsInv(s: State)
    requires Inv(s)
    ensures Inv(Step(s, Crash))
  {
  }

  /**
   One instruction of call t: nothing becomes pending, nothing is forgotten, and
   whatever t claims now it claimed before or found pending.
  */
  lemma MovedKeepsInv(s: State, t: nat, pc: PC, store: StoreState, holder: Option<nat>)
    requires Inv(s) && t in s.calls
    requires var s' := s.(calls := s.calls[t := pc], store := store, holder := holder);
             LockInv(s') && PCOk(s', pc)
    requires store.pending.Keys <= s.store.pending.Keys && s.store.used <= store.used
    requires forall a :: a in store.pending ==> store.pending[a] == s.store.pending[a]
    requires Claim(pc).Some? ==> Claim(pc) == Claim(s.calls[t]) || Claim(pc).value in s.store.pending
    requires HasTaken(pc) ==> Claim(pc).value !in store.pending
    ensures Inv(s.(calls := s.calls[t := pc], store := store, holder := holder))
  {
  }

  lemma LockStepKeepsInv(s: State, t: nat)
    requires Inv(s) && t in s.calls && s.calls[t].Lock? && s.holder.None?
    ensures Inv(s.(holder := Some(t), calls := s.calls[t := ReadPending(s.calls[t].addr)]))
  {
    MovedKeepsInv(s, t, ReadPending(s.calls[t].addr), s.store, Some(t));
  }

  lemma InstructionKeepsInv(s: State, t: nat, received: Option<int>, faults: Faults)
    requires Inv(s) && t in s.calls && !s.calls[t].Lock? && !s.calls[t].Unlock? && !s.calls[t].Return?
    ensures Inv(Verifying(s, t, received, faults))
  {
    var (pc, store) := Instruction(s, s.calls[t], received, faults.On(s.backend));
    InstructionKeepsLock(s, s.calls[t], received, faults.On(s.backend));
    InstructionIsTruthful(s, s.calls[t], received, faults.On(s.backend));
    InstructionKeepsStore(s, s.calls[t], received, faults.On(s.backend));
    InstructionClaimsWhatIsPending(s, s.calls[t], received, faults.On(s.backend));
    PCOkElsewhere(s, s.(calls := s.calls[t := pc], store := store), store, pc);
    MovedKeepsInv(s, t, pc, store, s.holder);
  }

  lemma PCOkElsewhere(s: State, s': State, store: StoreState, pc: PC)
    requires PCOk(s.(store := store), pc)
    requires s'.store == store && s'.offers == s.offers && s'.now == s.now && s'.backend == s.backend
    ensures PCOk(s', pc)
  {
  }

  lemma InstructionKeepsLock(s: State, pc: PC, received: Option<int>, f: Faults)
    requires !pc.Lock? && !pc.Unlock? && !pc.Return?
    ensures HoldsLock(Instruction(s, pc, received, f).0) <==> HoldsLock(pc)
  {
  }

  lemma InstructionIsTruthful(s: State, pc: PC, received: Option<int>, f: Faults)
    requires !pc.Lock? && !pc.Unlock? && !pc.Return?
    requires PCOk(s, pc) && PendingInv(s)
    ensures var (next, store) := Instruction(s, pc, received, f); PCOk(s.(store := store), next)
  {
  }

  lemma InstructionKeepsStore(s: State, pc: PC, received: Option<int>, f: Faults)
    requires !pc.Lock? && !pc.Unlock? && !pc.Return?
    ensures var (_, store) := Instruction(s, pc, received, f);
            && store.pending.Keys <= s.store.pending.Keys && s.store.used <= store.used
            && (forall a :: a in store.pending ==> store.pending[a] == s.store.pending[a])
  {
  }

  lemma InstructionClaimsWhatIsPending(s: State, pc: PC, received: Option<int>, f: Faults)
    requires !pc.Lock? && !pc.Unlock? && !pc.Return?
    requires HasTaken(pc) ==> Claim(pc).value !in s.store.pending
    ensures var (next, store) := Instruction(s, pc, received, f);
            && (Claim(next).Some? ==> Claim(next) == Claim(pc) || Claim(next).value in s.store.pending)
            && (HasTaken(next) ==> Claim(next).value !in store.pending)
  {
  }

  lemma SpentAppend(returned: seq<Outcome>, o: Outcome)
    ensures Spent(returned + [o]) == Spent(returned) + (if o.Accepted? then {o.addr} else {})
  {
    assert forall p :: p in returned + [o] <==> p in returned || p == o;
  }

  lemma UnlockKeepsTruthful(s: State, t: nat, received: Option<int>, faults: Faults)
    requires Inv(s) && t in s.calls && (s.calls[t].Unlock? || s.calls[t].Return?)
    ensures Truthful(Verifying(s, t, received, faults))
  {
  }

  lemma UnlockKeepsExclusive(s: State, t: nat, received: Option<int>, faults: Faults)
    requires Inv(s) && t in s.calls && (s.calls[t].Unlock? || s.calls[t].Return?)
    ensures Exclusive(Verifying(s, t, received, faults))
  {
    SpentAppend(s.returned, s.calls[t].outcome);
  }

  lemma StepKeepsInv(s: State, e: Event)
    requires Inv(s)
    ensures Inv(Step(s, e))
  {
    match e
    case Tick(elapsed) => TickKeepsInv(s, elapsed);
    case NewAddress(i, price, addr) =>
      if price > 0 && i !in s.issuing && addr !in s.offers {
        NewAddressKeepsTruthful(s, Step(s, e), i, price, addr);
        NewAddressKeepsIssuing(s, Step(s, e), i, price, addr);
      }
    case IssueStep(i, fault) =>
      if i in s.issuing { IssueStepKeepsInv(s, i, fault); }
    case VerifyStart(t, token) =>
      if t !in s.calls {
        VerifyStartKeepsInv(s, t, if TrimSpace(token) == "" then Return(Denied) else CheckUsed(TrimSpace(token)));
      }
    case VerifyStep(t, received, faults) =>
      if t in s.calls {
        if s.calls[t].Unlock? || s.calls[t].Return? {
          UnlockKeepsTruthful(s, t, received, faults);
          UnlockKeepsExclusive(s, t, received, faults);
        } else {
          if s.calls[t].Lock? {
            if s.holder.None? { LockStepKeepsInv(s, t); }
          } else {
            InstructionKeepsInv(s, t, received, faults);
          }
        }
      }
    case Prune(before, fault) => PruneKeepsInv(s, before, fault);
    case Crash => CrashKeepsInv(s);
  }

  lemma {:induction false} RunKeepsInv(s: State, events: seq<Event>)
    requires Inv(s)
    ensures Inv(Run(s, events))
    decreases |events|
  {
    if events == [] {
    } else {
      StepKeepsInv(s, events[0]);
      RunKeepsInv(Step(s, events[0]), events[1..]);
    }
  }

  // --- The results ---

  /**
   In every run, with either backend, with stores that fail at any call, with
   crashes and restarts, and even if the IsUsed test is dropped: an address makes
   VerifyProof return true at most once, the entry was the one offered and not
   expired when the clock was read, and at least its price had arrived.
  */
  lemma AtMostOnce(backend: Backend, consultUsed: bool, events: seq<Event>)
    ensures var s := Run(Init(backend, consultUsed), events);
            && (forall i, j :: 0 <= i < j < |s.returned| && s.returned[i].Accepted? && s.returned[j].Accepted? ==>
                 s.returned[i].addr != s.returned[j].addr)
            && (forall i :: 0 <= i < |s.returned| && s.returned[i].Accepted? ==>
                 var o := s.returned[i];
                 && o.addr in s.offers
                 && o.received >= s.offers[o.addr].price
                 && s.offers[o.addr].expiresAt.Some?
                 && o.checkedAt <= s.offers[o.addr].expiresAt.value)
  {
    RunKeepsInv(Init(backend, consultUsed), events);
  }

  /** With SQLite an accepted address is in the used table from then on, restarts included. */
  lemma AcceptedStaysUsed(consultUsed: bool, events: seq<Event>, i: nat)
    requires var s := Run(Init(SQLite, consultUsed), events); i < |s.returned| && s.returned[i].Accepted?
    ensures var s := Run(Init(SQLite, consultUsed), events); s.returned[i].addr in s.store.used
  {
    RunKeepsInv(Init(SQLite, consultUsed), events);
    RunKeepsBackend(Init(SQLite, consultUsed), events);
  }

  lemma {:induction false} RunKeepsBackend(s: State, events: seq<Event>)
    ensures Run(s, events).backend == s.backend
    decreases |events|
  {
    if events == [] {
    } else {
      StepKeepsBackend(s, events[0]);
      RunKeepsBackend(Step(s, events[0]), events[1..]);
    }
  }

  lemma StepKeepsBackend(s: State, e: Event)
    ensures Step(s, e).backend == s.backend
  {
  }

  // --- A call that runs alone ---

  function Repeat(s: State, e: Event, n: nat): State
    decreases n
  {
    if n == 0 then s else Repeat(Step(s, e), e, n - 1)
  }

  lemma {:induction false} RepeatIsRun(s: State, e: Event, n: nat)
    ensures Repeat(s, e, n) == Run(s, seq(n, _ => e))
    decreases n
  {
    if n == 0 {
    } else {
      RepeatIsRun(Step(s, e), e, n - 1);
      assert seq(n, _ => e)[1..] == seq(n - 1, _ => e);
    }
  }

  lemma {:induction false} Finished(s: State, t: nat, received: Option<int>, faults: Faults, n: nat)
    requires t !in s.calls
    ensures Repeat(s, VerifyStep(t, received, faults), n) == s
  {
    if n == 0 {
    } else {
      Finished(s, t, received, faults, n - 1);
    }
  }

  /** n more instructions end call t, leaving this store and returning this outcome. */
  predicate Ends(s: State, t: nat, received: Option<int>, faults: Faults, n: nat, store: StoreState, outcome: Outcome) {
    Repeat(s, VerifyStep(t, received, faults), n) ==
    s.(store := store, holder := None, calls := s.calls - {t}, returned := s.returned + [outcome])
  }

  lemma EndsAfterStep(
    s: State, t: nat, received: Option<int>, faults: Faults, n: nat, store: StoreState, outcome: Outcome)
    requires t in s.calls && !s.calls[t].Unlock? && !s.calls[t].Return?
    requires Ends(Step(s, VerifyStep(t, received, faults)), t, received, faults, n, store, outcome)
    ensures Ends(s, t, received, faults, n + 1, store, outcome)
  {
    assert Step(s, VerifyStep(t, received, faults)).calls - {t} == s.calls - {t};
  }

  lemma EndsNow(s: State, t: nat, received: Option<int>, faults: Faults, n: nat)
    requires n > 0 && t in s.calls
    requires s.calls[t].Unlock? || (s.calls[t].Return? && s.holder.None?)
    ensures Ends(s, t, received, faults, n, s.store, s.calls[t].outcome)
  {
    Finished(Step(s, VerifyStep(t, received, faults)), t, received, faults, n - 1);
  }

  lemma MarkEnds(s: State, t: nat, received: Option<int>, faults: Faults)
    requires t in s.calls && s.calls[t].Mark?
    ensures var s1 := Step(s, VerifyStep(t, received, faults));
            t in s1.calls && s1.calls[t].Unlock?
            && Ends(s, t, received, faults, 2, s1.store, s1.calls[t].outcome)
  {
    var s1 := Step(s, VerifyStep(t, received, faults));
    EndsNow(s1, t, received, faults, 1);
    EndsAfterStep(s, t, received, faults, 1, s1.store, s1.calls[t].outcome);
  }

  lemma PaidEnds(
    s: State, t: nat, addr: string, entry: PendingEntry, checkedAt: int, received: Option<int>, faults: Faults)
    requires received.Some? && received.value >= entry.sats && !Expired(entry, checkedAt)
    requires t in s.calls && s.calls[t] == TakePending(addr, entry, checkedAt, received.value)
    ensures var (store, outcome) := Decided(s.store, addr, entry, checkedAt, received, faults.On(s.backend));
            Ends(s, t, received, faults, 3, store, outcome)
  {
    var (store, outcome) := Decided(s.store, addr, entry, checkedAt, received, faults.On(s.backend));
    var s1 := Step(s, VerifyStep(t, received, faults));
    if s1.calls[t].Unlock? {
      EndsNow(s1, t, received, faults, 2);
    } else {
      MarkEnds(s1, t, received, faults);
    }
    EndsAfterStep(s, t, received, faults, 2, store, outcome);
  }

  lemma AskedEnds(s: State, t: nat, addr: string, entry: PendingEntry, received: Option<int>, faults: Faults)
    requires !Expired(entry, s.now)
    requires t in s.calls && s.calls[t] == AskBitcoind(addr, entry, s.now)
    ensures var (store, outcome) := Decided(s.store, addr, entry, s.now, received, faults.On(s.backend));
            Ends(s, t, received, faults, 4, store, outcome)
  {
    var (store, outcome) := Decided(s.store, addr, entry, s.now, received, faults.On(s.backend));
    var s1 := Step(s, VerifyStep(t, received, faults));
    if s1.calls[t].Unlock? {
      EndsNow(s1, t, received, faults, 3);
    } else {
      PaidEnds(s1, t, addr, entry, s.now, received, faults);
    }
    EndsAfterStep(s, t, received, faults, 3, store, outcome);
  }

  lemma FoundEnds(s: State, t: nat, addr: string, entry: PendingEntry, received: Option<int>, faults: Faults)
    requires t in s.calls && s.calls[t] == TestClock(addr, entry)
    ensures var (store, outcome) := Decided(s.store, addr, entry, s.now, received, faults.On(s.backend));
            Ends(s, t, received, faults, 5, store, outcome)
  {
    var (store, outcome) := Decided(s.store, addr, entry, s.now, received, faults.On(s.backend));
    var s1 := Step(s, VerifyStep(t, received, faults));
    if Expired(entry, s.now) {
      var s2 := Step(s1, VerifyStep(t, received, faults));
      EndsNow(s2, t, received, faults, 3);
      EndsAfterStep(s1, t, received, faults, 3, store, outcome);
    } else {
      AskedEnds(s1, t, addr, entry, received, faults);
    }
    EndsAfterStep(s, t, received, faults, 4, store, outcome);
  }

  lemma LockedEnds(s: State, t: nat, addr: string, received: Option<int>, faults: Faults)
    requires t in s.calls && s.calls[t] == ReadPending(addr)
    ensures var (store, outcome) := Looked(s.store, addr, s.now, received, faults.On(s.backend));
            Ends(s, t, received, faults, 6, store, outcome)
  {
    var (store, outcome) := Looked(s.store, addr, s.now, received, faults.On(s.backend));
    var s1 := Step(s, VerifyStep(t, received, faults));
    if s1.calls[t].Unlock? {
      EndsNow(s1, t, received, faults, 5);
    } else {
      FoundEnds(s1, t, addr, s.store.pending[addr], received, faults);
    }
    EndsAfterStep(s, t, received, faults, 5, store, outcome);
  }

  /** Without interleaving the instructions add up to the VerifyProof of module Onchain. */
  lemma SoloCallIsVerified(s: State, t: nat, token: string, received: Option<int>, faults: Faults)
    requires s.holder.None? && t !in s.calls && s.consultUsed
    ensures var (store, outcome) := Verified(s.store, token, s.now, received, faults.On(s.backend));
            Run(s, [VerifyStart(t, token)] + seq(8, _ => VerifyStep(t, received, faults))) ==
            s.(store := store, returned := s.returned + [outcome])
  {
    var steps := seq(8, _ => VerifyStep(t, received, faults));
    SoloCallEnds(s, t, token, received, faults);
    RepeatIsRun(Step(s, VerifyStart(t, token)), VerifyStep(t, received, faults), 8);
    assert ([VerifyStart(t, token)] + steps)[1..] == steps;
  }

  lemma SoloCallEnds(s: State, t: nat, token: string, received: Option<int>, faults: Faults)
    requires s.holder.None? && t !in s.calls && s.consultUsed
    ensures var (store, outcome) := Verified(s.store, token, s.now, received, faults.On(s.backend));
            Repeat(Step(s, VerifyStart(t, token)), VerifyStep(t, received, faults), 8) ==
            s.(store := store, returned := s.returned + [outcome])
  {
    var (store, outcome) := Verified(s.store, token, s.now, received, faults.On(s.backend));
    var addr := TrimSpace(token);
    var s0 := Step(s, VerifyStart(t, token));
    if addr == "" {
      EndsNow(s0, t, received, faults, 8);
    } else {
      CheckedEnds(s0, t, addr, received, faults);
    }
    assert s0.calls - {t} == s.calls;
  }

  /** What is left of VerifyProof once the token is known to name an address. */
  function Checked(store: StoreState, addr: string, now: int, received: Option<int>, f: Faults): (StoreState, Outcome) {
    if !f.isUsed.NoFault? then (store, Failed)
    else if addr in store.used then (store, Denied)
    else Looked(store, addr, now, received, f)
  }

  lemma CheckedEnds(s: State, t: nat, addr: string, received: Option<int>, faults: Faults)
    requires s.holder.None? && t in s.calls && s.calls[t] == CheckUsed(addr) && s.consultUsed
    ensures var (store, outcome) := Checked(s.store, addr, s.now, received, faults.On(s.backend));
            Ends(s, t, received, faults, 8, store, outcome)
  {
    hide Ends, Looked;
    var (store, outcome) := Checked(s.store, addr, s.now, received, faults.On(s.backend));
    var s1 := Step(s, VerifyStep(t, received, faults));
    if s1.calls[t].Return? {
      EndsNow(s1, t, received, faults, 7);
    } else {
      WaitingEnds(s1, t, addr, received, faults);
    }
    EndsAfterStep(s, t, received, faults, 7, store, outcome);
  }

  lemma WaitingEnds(s: State, t: nat, addr: string, received: Option<int>, faults: Faults)
    requires s.holder.None? && t in s.calls && s.calls[t] == Lock(addr)
    ensures var (store, outcome) := Looked(s.store, addr, s.now, received, faults.On(s.backend));
            Ends(s, t, received, faults, 7, store, outcome)
  {
    hide Ends, Looked;
    var (store, outcome) := Looked(s.store, addr, s.now, received, faults.On(s.backend));
    LockedEnds(Step(s, VerifyStep(t, received, faults)), t, addr, received, faults);
    EndsAfterStep(s, t, received, faults, 6, store, outcome);
  }

  /** The same for IssueChallenge, once bitcoind has given an address that it never gave before. */
  lemma SoloIssueIsIssued(s: State, i: nat, price: int, addr: string, fault: Fault)
    requires price > 0 && i !in s.issuing && addr !in s.offers
    ensures var s' := Run(s, [NewAddress(i, price, addr), IssueStep(i, fault), IssueStep(i, fault)]);
            && s'.store == Issued(s.backend, s.store, price, Some(addr), s.now, fault).0
            && s'.issuing == s.issuing && s'.calls == s.calls && s'.holder == s.holder
            && s'.offers == s.offers[addr := Offer(price, Some(s.now + PENDING_TTL))]
  {
    var s1 := Step(s, NewAddress(i, price, addr));
    var s2 := Step(s1, IssueStep(i, fault));
    var s3 := Step(s2, IssueStep(i, fault));
    assert s3.issuing == s.issuing;
    assert Run(s2, [IssueStep(i, fault)]) == Run(s3, []) == s3;
    assert Run(s1, [IssueStep(i, fault), IssueStep(i, fault)]) == s3;
  }
}
