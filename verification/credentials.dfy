/**
 Enrollment credentials over a symbolic MAC chain.  A macaroon's signature is a
 keyed hash of its identifier, hashed on with every caveat; signatures are terms
 here, so that none equals another by accident.  Base64 and the binary encoding
 are left symbolic too: a presented credential is a macaroon or no macaroon.
*/
module Credentials {
  import opened Wrappers

  /**
   The proxy draws both of its keys anew each time it starts; `epoch` counts the
   starts.  Foreign keys are all other byte strings.
  */
  datatype Key = RootKey(epoch: nat) | CredentialKey(epoch: nat) | ForeignKey(bytes: string)

  datatype Caveat = FirstParty(condition: string) | ThirdParty(id: string)

  /** Bytes are signatures that are no MAC of anything. */
  datatype Signature =
    | Mac(key: Key, id: string)
    | Chain(previous: Signature, caveat: Caveat)
    | Bytes(junk: string)

  datatype Macaroon = Macaroon(id: string, caveats: seq<Caveat>, signature: Signature)

  /** The HMAC chain that Verify recomputes. */
  function Sign(key: Key, id: string, caveats: seq<Caveat>): Signature {
    if caveats == [] then Mac(key, id)
    else Chain(Sign(key, id, caveats[..|caveats| - 1]), caveats[|caveats| - 1])
  }

  /** macaroon.Verify without discharges, every first-party condition being accepted. */
  predicate Verify(m: Macaroon, key: Key) {
    && (forall i :: 0 <= i < |m.caveats| ==> m.caveats[i].FirstParty?)
    && m.signature == Sign(key, m.id, m.caveats)
  }

  /** macaroon.New. */
  function Mint(key: Key, id: string): Macaroon {
    Macaroon(id, [], Mac(key, id))
  }

  /** macaroon.AddFirstPartyCaveat, which needs no key. */
  function Attenuate(m: Macaroon, caveat: Caveat): Macaroon {
    Macaroon(m.id, m.caveats + [caveat], Chain(m.signature, caveat))
  }

  function MintCredential(epoch: nat, principal: string): Macaroon {
    Mint(CredentialKey(epoch), principal)
  }

  function ValidateCredential(epoch: nat, m: Macaroon): Result<string> {
    if Verify(m, CredentialKey(epoch)) then Ok(m.id) else Err
  }

  /** What the proxy has signed so far: payment macaroons and credentials, under the keys of their time. */
  type Minted = set<(Key, string)>

  /**
   Signatures that somebody without the proxy's keys can put on a macaroon: those
   he was given, their extensions, and whatever he signs with a key of his own.
  */
  predicate Derivable(sig: Signature, minted: Minted) {
    match sig
    case Mac(key, id) => key.ForeignKey? || (key, id) in minted
    case Chain(previous, _) => Derivable(previous, minted)
    case Bytes(_) => true
  }

  lemma {:induction false} DerivableRoot(key: Key, id: string, caveats: seq<Caveat>, minted: Minted)
    requires Derivable(Sign(key, id, caveats), minted)
    ensures Derivable(Mac(key, id), minted)
  {
    if caveats == [] {
    } else {
      DerivableRoot(key, id, caveats[..|caveats| - 1], minted);
    }
  }

  /**
   A credential is accepted only if this process minted one for that principal,
   whatever conditions its holder has added since; CredentialCompleteness is the
   other half.
  */
  lemma CredentialSoundness(epoch: nat, m: Macaroon, minted: Minted)
    requires Derivable(m.signature, minted)
    ensures ValidateCredential(epoch, m).Ok? ==> (CredentialKey(epoch), m.id) in minted
  {
    if Verify(m, CredentialKey(epoch)) {
      DerivableRoot(CredentialKey(epoch), m.id, m.caveats, minted);
    }
  }

  lemma {:induction false} CredentialCompleteness(epoch: nat, principal: string, conditions: seq<string>)
    ensures ValidateCredential(epoch, AttenuateAll(MintCredential(epoch, principal), conditions)) == Ok(principal)
  {
    AttenuateAllSigns(CredentialKey(epoch), principal, conditions);
  }

  function AttenuateAll(m: Macaroon, conditions: seq<string>): Macaroon {
    if conditions == [] then m
    else Attenuate(AttenuateAll(m, conditions[..|conditions| - 1]), FirstParty(conditions[|conditions| - 1]))
  }

  lemma {:induction false} AttenuateAllSigns(key: Key, id: string, conditions: seq<string>)
    ensures var m := AttenuateAll(Mint(key, id), conditions); m.id == id && Verify(m, key)
  {
    if conditions == [] {
    } else {
      var m := AttenuateAll(Mint(key, id), conditions[..|conditions| - 1]);
      AttenuateAllSigns(key, id, conditions[..|conditions| - 1]);
      assert (m.caveats + [FirstParty(conditions[|conditions| - 1])])[..|m.caveats|] == m.caveats;
    }
  }

  /** Signatures are injective in the key and the identifier. */
  lemma {:induction false} SignInjective(k1: Key, id1: string, k2: Key, id2: string, c1: seq<Caveat>, c2: seq<Caveat>)
    requires Sign(k1, id1, c1) == Sign(k2, id2, c2)
    ensures k1 == k2 && id1 == id2 && c1 == c2
  {
    if c1 == [] || c2 == [] {
    } else {
      SignInjective(k1, id1, k2, id2, c1[..|c1| - 1], c2[..|c2| - 1]);
      assert c1 == c1[..|c1| - 1] + [c1[|c1| - 1]];
      assert c2 == c2[..|c2| - 1] + [c2[|c2| - 1]];
    }
  }

  /** A payment macaroon, extended or not, is no credential; nor is a credential of an earlier process. */
  lemma {:induction false} OtherKeysNeverValidate(epoch: nat, key: Key, id: string, conditions: seq<string>)
    requires key != CredentialKey(epoch)
    ensures ValidateCredential(epoch, AttenuateAll(Mint(key, id), conditions)).Err?
  {
    var m := AttenuateAll(Mint(key, id), conditions);
    AttenuateAllSigns(key, id, conditions);
    if Verify(m, CredentialKey(epoch)) {
      SignInjective(key, id, CredentialKey(epoch), m.id, m.caveats, m.caveats);
    }
  }

  /** What validates is exactly a minted credential with first-party conditions added. */
  lemma ValidatesIff(epoch: nat, m: Macaroon, p: string)
    ensures ValidateCredential(epoch, m) == Ok(p) <==>
            exists conditions :: m == AttenuateAll(MintCredential(epoch, p), conditions)
  {
    if ValidateCredential(epoch, m) == Ok(p) {
      var conditions := seq(|m.caveats|, i requires 0 <= i < |m.caveats| && m.caveats[i].FirstParty? =>
                              m.caveats[i].condition);
      CaveatsRebuild(CredentialKey(epoch), m, conditions);
      assert m == AttenuateAll(MintCredential(epoch, p), conditions);
    }
    forall conditions | m == AttenuateAll(MintCredential(epoch, p), conditions)
      ensures ValidateCredential(epoch, m) == Ok(p)
    {
      CredentialCompleteness(epoch, p, conditions);
    }
  }

  lemma {:induction false} CaveatsRebuild(key: Key, m: Macaroon, conditions: seq<string>)
    requires Verify(m, key) && |conditions| == |m.caveats|
    requires forall i :: 0 <= i < |conditions| ==> m.caveats[i] == FirstParty(conditions[i])
    ensures m == AttenuateAll(Mint(key, m.id), conditions)
    decreases |conditions|
  {
    if conditions == [] {
    } else {
      var n := |conditions| - 1;
      var shorter := Macaroon(m.id, m.caveats[..n], Sign(key, m.id, m.caveats[..n]));
      CaveatsRebuild(key, shorter, conditions[..n]);
      assert m.caveats == m.caveats[..n] + [m.caveats[n]];
    }
  }
}
