/**
 The on-chain verifier, one call at a time: what IssueChallenge and VerifyProof
 do to the token store, first as functions and then as the class whose methods
 carry them out.  The interleaving of calls is in OnchainProtocol.
*/
module Onchain {
  import opened Wrappers
  import opened Stores

  /** pendingTTL: one hour. */
  const PENDING_TTL: int := 3600 * SECOND

  /** unicode.IsSpace. */
  predicate IsSpace(c: char) {
    || '\t' <= c <= '\r' || c == ' ' || c == 0x85 as char || c == 0xA0 as char
    || c == 0x1680 as char || 0x2000 as char <= c <= 0x200a as char
    || c == 0x2028 as char || c == 0x2029 as char || c == 0x202f as char
    || c == 0x205f as char || c == 0x3000 as char
  }

  /** strings.TrimSpace. */
  function TrimSpace(s: string): string
    decreases |s|
  {
    if s == [] then s
    else if IsSpace(s[0]) then TrimSpace(s[1..])
    else if IsSpace(s[|s| - 1]) then TrimSpace(s[..|s| - 1])
    else s
  }

  /** The White_Space property of Unicode, as Go knows it: 25 characters. */
  lemma BlanksAre(c: char)
    ensures IsSpace(c) <==>
            c in "\t\n\U{0b}\U{0c}\r \U{85}\U{a0}\U{1680}"
               + "\U{2000}\U{2001}\U{2002}\U{2003}\U{2004}\U{2005}\U{2006}\U{2007}\U{2008}\U{2009}\U{200a}"
               + "\U{2028}\U{2029}\U{202f}\U{205f}\U{3000}"
  {
  }

  predicate Blank(s: string) {
    forall c :: c in s ==> IsSpace(c)
  }

  /** Only blanks go, from both ends, and all of them. */
  lemma {:induction false} TrimSpaceTrims(s: string) returns (front: string, back: string)
    ensures s == front + TrimSpace(s) + back && Blank(front) && Blank(back)
    ensures var t := TrimSpace(s); t != [] ==> !IsSpace(t[0]) && !IsSpace(t[|t| - 1])
    decreases |s|
  {
    hide IsSpace;
    front, back := [], [];
    if s == [] {
    } else if IsSpace(s[0]) {
      front, back := TrimSpaceTrims(s[1..]);
      assert s == [s[0]] + s[1..];
      BlankPrefix(s[0], front);
      front := [s[0]] + front;
    } else if IsSpace(s[|s| - 1]) {
      front, back := TrimSpaceTrims(s[..|s| - 1]);
      assert s == s[..|s| - 1] + [s[|s| - 1]];
      BlankSuffix(back, s[|s| - 1]);
      back := back + [s[|s| - 1]];
    }
  }

  lemma BlankPrefix(c: char, s: string)
    requires IsSpace(c) && Blank(s)
    ensures Blank([c] + s)
  {
    hide IsSpace;
  }

  lemma BlankSuffix(s: string, c: char)
    requires IsSpace(c) && Blank(s)
    ensures Blank(s + [c])
  {
    hide IsSpace;
  }

  /** How each store call of one VerifyProof goes. */
  datatype Faults = Faults(isUsed: Fault, get: Fault, del: Fault, mark: Fault)
  {
    function On(backend: Backend): Faults {
      Faults(Effective(backend, isUsed), Effective(backend, get), Effective(backend, del), Effective(backend, mark))
    }
  }

  const NO_FAULTS := Faults(NoFault, NoFault, NoFault, NoFault)

  /** Accepted is VerifyProof's true, with what it was based on. */
  datatype Outcome =
    | Accepted(addr: string, entry: PendingEntry, received: int, checkedAt: int)
    | Denied
    | Failed

  datatype Challenge = Challenge(addr: string, amountSats: int, expiresInSeconds: int)

  function Issued(backend: Backend, s: StoreState, price: int, newAddress: Option<string>, now: int, fault: Fault)
    : (StoreState, Result<Challenge>)
  {
    if price <= 0 || newAddress.None? then (s, Err)
    else
      var addr := newAddress.value;
      var f := Effective(backend, fault);
      var s' := if Applied(f)
                then s.(pending := s.pending[addr := Stored(backend, price, now + PENDING_TTL)])
                else s;
      (s', if f.NoFault? then Ok(Challenge(addr, price, 3600)) else Err)
  }

  /** received is bitcoind's answer; None is a failed call. */
  function Verified(s: StoreState, token: string, now: int, received: Option<int>, f: Faults): (StoreState, Outcome) {
    var addr := TrimSpace(token);
    if addr == "" then (s, Denied)
    else if !f.isUsed.NoFault? then (s, Failed)
    else if addr in s.used then (s, Denied)
    else Looked(s, addr, now, received, f)
  }

  /** The part of VerifyProof that runs under the lock. */
  function Looked(s: StoreState, addr: string, now: int, received: Option<int>, f: Faults): (StoreState, Outcome) {
    if !f.get.NoFault? then (s, Failed)
    else if addr !in s.pending then (s, Denied)
    else Decided(s, addr, s.pending[addr], now, received, f)
  }

  function Decided(s: StoreState, addr: string, entry: PendingEntry, now: int, received: Option<int>, f: Faults)
    : (StoreState, Outcome)
  {
    var taken := if Applied(f.del) then s.(pending := s.pending - {addr}) else s;
    if Expired(entry, now) then (taken, Denied)
    else if received.None? then (s, Failed)
    else if received.value < entry.sats then (s, Denied)
    else if !f.del.NoFault? then (taken, Failed)
    else
      var marked := if Applied(f.mark) then taken.(used := taken.used + {addr}) else taken;
      (marked, if f.mark.NoFault? then Accepted(addr, entry, received.value, now) else Failed)
  }

  /** An address is honoured exactly when it is unspent, pending, unexpired and paid, and no call fails. */
  lemma AcceptedIff(s: StoreState, token: string, now: int, received: Option<int>, f: Faults)
    ensures var addr := TrimSpace(token);
            Verified(s, token, now, received, f).1.Accepted? <==>
            && addr != "" && addr !in s.used && addr in s.pending
            && now <= s.pending[addr].expiresAt
            && received.Some? && received.value >= s.pending[addr].sats
            && f == NO_FAULTS
  {
  }

  class Verifier {
    const st: TokenStore

    constructor (st: TokenStore)
      ensures this.st == st
    {
      this.st := st;
    }

    method IssueChallenge(price: int, newAddress: Option<string>, now: int, fault: Fault)
      returns (r: Result<Challenge>)
      modifies st
      ensures (st.State(), r) == Issued(st.backend, old(st.State()), price, newAddress, now, fault)
    {
      if price <= 0 || newAddress.None? {
        return Err;
      }
      var stored := st.AddPending(newAddress.value, price, now + PENDING_TTL, fault);
      if !stored {
        return Err;
      }
      return Ok(Challenge(newAddress.value, price, 3600));
    }

    method VerifyProof(token: string, now: int, received: Option<int>, f: Faults) returns (o: Outcome)
      modifies st
      ensures (st.State(), o) == Verified(old(st.State()), token, now, received, f.On(st.backend))
    {
      var addr := TrimSpace(token);
      if addr == "" {
        return Denied;
      }
      var used := st.IsUsed(addr, f.isUsed);
      if used.Err? {
        return Failed;
      }
      if used.value {
        return Denied;
      }
      var found := st.GetPending(addr, f.get);
      if found.Err? {
        return Failed;
      }
      if found.value.None? {
        return Denied;
      }
      var entry := found.value.value;
      if now > entry.expiresAt {
        var _ := st.DeletePending(addr, f.del);
        return Denied;
      }
      if received.None? {
        return Failed;
      }
      if received.value < entry.sats {
        return Denied;
      }
      var deleted := st.DeletePending(addr, f.del);
      if !deleted {
        return Failed;
      }
      var marked := st.MarkUsed(addr, f.mark);
      if !marked {
        return Failed;
      }
      return Accepted(addr, entry, received.value, now);
    }
  }
}
