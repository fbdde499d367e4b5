/**
 The token stores: spent keys and issued-but-unpaid addresses.  MemStore and
 SQLiteStore are one class here, told apart by `backend`: they differ in how an
 expiry is kept, in what a prune removes and in whether a call can fail.

 Times are integers, in nanoseconds since the Unix epoch.
*/
module Stores {
  import opened Wrappers

  datatype Backend = Mem | SQLite

  datatype PendingEntry = PendingEntry(sats: int, expiresAt: int)

  datatype StoreState = StoreState(used: set<string>, pending: map<string, PendingEntry>)

  const EMPTY_STORE := StoreState({}, map[])

  const SECOND: int := 1000000000

  /** time.Time.Unix: whole seconds, rounded down. */
  function Unix(t: int): int {
    t / SECOND
  }

  /**
   How a store call goes.  An error may reach the caller although the statement
   was carried out: LostReply is that case, Refused the other.
  */
  datatype Fault = NoFault | Refused | LostReply

  /** A MemStore call never fails. */
  function Effective(backend: Backend, fault: Fault): Fault {
    if backend.Mem? then NoFault else fault
  }

  predicate Applied(fault: Fault) {
    !fault.Refused?
  }

  /** The entry that GetPending gives back: SQLite keeps whole seconds. */
  function Stored(backend: Backend, sats: int, expiresAt: int): PendingEntry {
    match backend
    case Mem => PendingEntry(sats, expiresAt)
    case SQLite => PendingEntry(sats, Unix(expiresAt) * SECOND)
  }

  predicate Expired(e: PendingEntry, now: int) {
    now > e.expiresAt
  }

  /** MemStore compares times, SQLite compares whole seconds. */
  predicate Prunable(backend: Backend, e: PendingEntry, before: int) {
    match backend
    case Mem => before > e.expiresAt
    case SQLite => Unix(e.expiresAt) < Unix(before)
  }

  function Pruned(backend: Backend, pending: map<string, PendingEntry>, before: int): map<string, PendingEntry> {
    map addr | addr in pending && !Prunable(backend, pending[addr], before) :: pending[addr]
  }

  /** Neither backend prunes an entry that VerifyProof would still honour. */
  lemma PrunableIsExpired(backend: Backend, e: PendingEntry, before: int)
    ensures Prunable(backend, e, before) ==> Expired(e, before)
  {
  }

  /** What a prune leaves: MemStore only what can still be honoured, SQLite up to a second more. */
  lemma StaleIsPruned(backend: Backend, e: PendingEntry, before: int)
    ensures backend.Mem? ==> (Prunable(backend, e, before) <==> Expired(e, before))
    ensures before >= e.expiresAt + SECOND ==> Prunable(backend, e, before)
  {
  }

  class TokenStore {
    const backend: Backend
    var used: set<string>
    var pending: map<string, PendingEntry>

    function State(): StoreState
      reads this
    {
      StoreState(used, pending)
    }

    constructor (backend: Backend)
      ensures this.backend == backend && State() == EMPTY_STORE
    {
      this.backend := backend;
      used, pending := {}, map[];
    }

    method IsUsed(key: string, fault: Fault) returns (r: Result<bool>)
      ensures r == if Effective(backend, fault).NoFault? then Ok(key in used) else Err
    {
      if Effective(backend, fault) != NoFault {
        return Err;
      }
      return Ok(key in used);
    }

    method MarkUsed(key: string, fault: Fault) returns (ok: bool)
      modifies this`used
      ensures ok == Effective(backend, fault).NoFault?
      ensures used == if Applied(Effective(backend, fault)) then old(used) + {key} else old(used)
    {
      if Applied(Effective(backend, fault)) {
        used := used + {key};
      }
      return Effective(backend, fault).NoFault?;
    }

    method AddPending(addr: string, sats: int, expiresAt: int, fault: Fault) returns (ok: bool)
      modifies this`pending
      ensures ok == Effective(backend, fault).NoFault?
      ensures pending == if Applied(Effective(backend, fault))
                         then old(pending)[addr := Stored(backend, sats, expiresAt)]
                         else old(pending)
    {
      if Applied(Effective(backend, fault)) {
        pending := pending[addr := Stored(backend, sats, expiresAt)];
      }
      return Effective(backend, fault).NoFault?;
    }

    method GetPending(addr: string, fault: Fault) returns (r: Result<Option<PendingEntry>>)
      ensures r == if !Effective(backend, fault).NoFault? then Err
                   else Ok(if addr in pending then Some(pending[addr]) else None)
    {
      if Effective(backend, fault) != NoFault {
        return Err;
      }
      return Ok(if addr in pending then Some(pending[addr]) else None);
    }

    method DeletePending(addr: string, fault: Fault) returns (ok: bool)
      modifies this`pending
      ensures ok == Effective(backend, fault).NoFault?
      ensures pending == if Applied(Effective(backend, fault)) then old(pending) - {addr} else old(pending)
    {
      if Applied(Effective(backend, fault)) {
        pending := pending - {addr};
      }
      return Effective(backend, fault).NoFault?;
    }

    /** MemStore walks its map and deletes; SQLite runs one statement. */
    method PruneExpiredPending(before: int, fault: Fault) returns (ok: bool)
      modifies this`pending
      ensures ok == Effective(backend, fault).NoFault?
      ensures pending == if Applied(Effective(backend, fault))
                         then Pruned(backend, old(pending), before)
                         else old(pending)
    {
      match backend {
        case Mem =>
          var todo := pending.Keys;
          while todo != {}
            invariant todo <= old(pending).Keys
            invariant pending.Keys ==
                      set a | a in old(pending) && (a in todo || !Prunable(backend, old(pending)[a], before))
            invariant forall a :: a in pending ==> pending[a] == old(pending)[a]
          {
            var addr :| addr in todo;
            todo := todo - {addr};
            if before > pending[addr].expiresAt {
              pending := pending - {addr};
            }
          }
        case SQLite =>
          if Applied(fault) {
            pending := map a | a in pending && !(Unix(pending[a].expiresAt) < Unix(before)) :: pending[a];
          }
      }
      return Effective(backend, fault).NoFault?;
    }
  }
}
