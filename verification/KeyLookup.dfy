/**
 What a caller finds under a key descriptor, row by row: by alias, by grant and by key id; and what granting,
 withdrawing a grant and the calls on pool keys do to it.
 */
module KeyLookup {
  import opened KeystoreTypes
  import opened KeystoreTables
  import opened KeystoreTx
  import opened KeystoreInvariants
  import opened GarbageCollector
  import opened AttestationPool
  import opened KeystoreClients

  // ---------------------------------------------------------------- by alias

  /** The entry is a live client key under the given name. */
  ghost predicate Named(t: Tables, k: int, domain: Domain, nspace: int, alias: string) {
    && k in t.entries
    && t.entries[k] == EntryRow(Client, Some(domain), Some(nspace), Some(alias), Live, t.entries[k].kmUuid)
  }

  lemma NamedIsFound(t: Tables, k: int, domain: Domain, nspace: int, alias: string)
    requires Integrity(t) && Named(t, k, domain, nspace, alias)
    ensures TheOne(LiveBound(t, domain, nspace, alias, Client)) == Ok(k)
  {
    var found := LiveBound(t, domain, nspace, alias, Client);
    forall j | j in found
      ensures j == k
    {
    }
    assert found == {k};
  }

  lemma NobodyIsFound(t: Tables, domain: Domain, nspace: int, alias: string)
    requires forall k :: !Named(t, k, domain, nspace, alias)
    ensures LiveBound(t, domain, nspace, alias, Client) == {}
  {
    forall k
      ensures k !in LiveBound(t, domain, nspace, alias, Client)
    {
      assert !Named(t, k, domain, nspace, alias);
    }
  }

  /** An app finds its own key whatever namespace it gives, and no one else's. */
  lemma AppLookup(t: Tables, key: KeyDescriptor, caller: int)
    requires Integrity(t) && key.domain == APP
    ensures var r := LoadAccessTuple(t, key, Client, caller);
            && (key.alias.None? ==> r == Err(SystemError))
            && (key.alias.Some? ==>
                  && (forall k :: Named(t, k, APP, caller, key.alias.value) ==>
                        r == Ok(AccessTuple(k, KeyDescriptor(APP, caller, key.alias, key.blob), None)))
                  && ((forall k :: !Named(t, k, APP, caller, key.alias.value)) ==> r == Err(KeyNotFound)))
  {
    if key.alias.Some? {
      if k :| Named(t, k, APP, caller, key.alias.value) {
        NamedIsFound(t, k, APP, caller, key.alias.value);
      } else {
        NobodyIsFound(t, APP, caller, key.alias.value);
      }
    }
  }

  /** In a namespace that the policy governs, the name given is looked up as it is. */
  lemma PolicyLookup(t: Tables, key: KeyDescriptor, caller: int)
    requires Integrity(t) && key.domain == SELINUX
    ensures var r := LoadAccessTuple(t, key, Client, caller);
            && (key.alias.None? ==> r == Err(SystemError))
            && (key.alias.Some? ==>
                  && (forall k :: Named(t, k, SELINUX, key.nspace, key.alias.value) ==>
                        r == Ok(AccessTuple(k, key, None)))
                  && ((forall k :: !Named(t, k, SELINUX, key.nspace, key.alias.value)) ==> r == Err(KeyNotFound)))
  {
    if key.alias.Some? {
      if k :| Named(t, k, SELINUX, key.nspace, key.alias.value) {
        NamedIsFound(t, k, SELINUX, key.nspace, key.alias.value);
      } else {
        NobodyIsFound(t, SELINUX, key.nspace, key.alias.value);
      }
    }
  }

  // ---------------------------------------------------------------- by key id and by grant

  /** The access vector that the one grant of the key to the grantee gives. */
  ghost predicate Gives(t: Tables, k: int, grantee: int, access: Option<AccessVector>) {
    if access.Some? then exists g :: g in t.grants && t.grants[g] == GrantRow(grantee, k, access.value)
    else forall g, a :: g in t.grants ==> t.grants[g] != GrantRow(grantee, k, a)
  }

  /** A key is found by its id while it is live, with its own name, and for others than its owner with their grant. */
  lemma IdLookup(t: Tables, key: KeyDescriptor, keyType: KeyType, caller: int)
    requires Integrity(t) && key.domain == KEY_ID
    ensures var r := LoadAccessTuple(t, key, keyType, caller);
            var k := key.nspace;
            if k !in t.entries || t.entries[k].state != Live then r == Err(KeyNotFound)
            else if t.entries[k].domain.None? || t.entries[k].nspace.None? then r == Err(SystemError)
            else
              var domain, nspace := t.entries[k].domain.value, t.entries[k].nspace.value;
              && r.Ok? && r.value.keyId == k
              && r.value.descriptor == KeyDescriptor(domain, nspace, key.alias, key.blob)
              && if domain == APP && nspace == caller then r.value.access.None?
                 else Gives(t, k, caller, r.value.access)
  {
    var k := key.nspace;
    if k in t.entries && t.entries[k].state == Live {
      AccessIsGiven(t, k, caller);
    }
  }

  lemma AccessIsGiven(t: Tables, k: int, grantee: int)
    ensures Gives(t, k, grantee, AccessOf(t, k, grantee))
  {
    var gs := GrantsOf(t, k, grantee);
    if gs == {} {
      forall g, a | g in t.grants
        ensures t.grants[g] != GrantRow(grantee, k, a)
      {
        assert g !in gs;
      }
    } else {
      var g := AnyOf(gs);
      assert g in gs && t.grants[g] == GrantRow(grantee, k, t.grants[g].access);
    }
  }

  /** A grant leads its grantee, and no one else, to the live key it is for, with the access it gives. */
  lemma GrantLookup(t: Tables, key: KeyDescriptor, keyType: KeyType, caller: int)
    requires key.domain == GRANT
    ensures var r := LoadAccessTuple(t, key, keyType, caller);
            && (forall k, access :: key.nspace in t.grants && t.grants[key.nspace] == GrantRow(caller, k, access)
                                    && k in t.entries && t.entries[k].state == Live ==>
                                      r == Ok(AccessTuple(k, key, Some(access))))
            && ((forall k, access :: key.nspace in t.grants && t.grants[key.nspace] == GrantRow(caller, k, access) ==>
                                       k !in t.entries || t.entries[k].state != Live) ==> r == Err(KeyNotFound))
  {
    if key.nspace in t.grants {
      var row := t.grants[key.nspace];
      assert row == GrantRow(row.grantee, row.keyId, row.access);
    }
  }

  /** There is no other way to a key. */
  lemma BlobLookup(t: Tables, key: KeyDescriptor, keyType: KeyType, caller: int)
    requires key.domain == BLOB
    ensures LoadAccessTuple(t, key, keyType, caller) == Err(SystemError)
  {
  }

  // ---------------------------------------------------------------- granting

  /** A grant is made exactly for a key the caller finds and may grant. */
  lemma GrantCommitsIff(t: Tables, key: KeyDescriptor, caller: int, grantee: int, access: AccessVector,
                        permitted: bool, id: int)
    requires Drawable(t.grants.Keys, id)
    ensures var r := GrantKey(t, key, caller, grantee, access, permitted, id);
            var a := LoadAccessTuple(t, key, Client, caller);
            && (r.Commit? <==> a.Ok? && permitted)
            && (r.Abort? ==> r.error == if a.Err? then a.error else PermissionDenied)
            && (r.Commit? ==> !r.needGc)
  {
  }

  /** The grantee then reaches the key with the access given, old grant or new, and nothing else has changed. */
  lemma GrantGives(t: Tables, key: KeyDescriptor, caller: int, grantee: int, access: AccessVector, permitted: bool,
                   id: int)
    requires Integrity(t) && Drawable(t.grants.Keys, id)
    requires GrantKey(t, key, caller, grantee, access, permitted, id).Commit?
    ensures var r := GrantKey(t, key, caller, grantee, access, permitted, id);
            var k := LoadAccessTuple(t, key, Client, caller).value.keyId;
            && LoadAccessTuple(r.db, ByGrant(r.out), Client, grantee)
               == Ok(AccessTuple(k, ByGrant(r.out), Some(access)))
            && (forall g, a :: g in t.grants && t.grants[g] == GrantRow(grantee, k, a) ==> r.out == g)
            && ((forall g, a :: g in t.grants ==> t.grants[g] != GrantRow(grantee, k, a)) ==> r.out == id)
            && (forall g :: g != r.out ==> (g in r.db.grants <==> g in t.grants))
            && (forall g :: g in t.grants && g != r.out ==> r.db.grants[g] == t.grants[g])
            && r.db == t.(grants := r.db.grants)
  {
    var r := GrantKey(t, key, caller, grantee, access, permitted, id);
    AccessTupleIsLive(t, key, Client, caller);
    var k := LoadAccessTuple(t, key, Client, caller).value.keyId;
    var gs := GrantsOf(t, k, grantee);
    if gs != {} {
      var g := AnyOf(gs);
      assert g in gs && t.grants[g] == GrantRow(grantee, k, t.grants[g].access);
    }
    forall g, a | g in t.grants && t.grants[g] == GrantRow(grantee, k, a)
      ensures r.out == g
    {
      assert g in gs;
    }
  }

  /** Withdrawing takes exactly the grant of that key to that grantee, which leads nowhere then. */
  lemma UngrantTakes(t: Tables, key: KeyDescriptor, caller: int, grantee: int, permitted: bool)
    ensures var r := UngrantKey(t, key, caller, grantee, permitted);
            var a := LoadAccessTuple(t, key, Client, caller);
            && (r.Commit? <==> a.Ok? && permitted)
            && (r.Abort? ==> r.error == if a.Err? then a.error else PermissionDenied)
            && (r.Commit? ==>
                  && !r.needGc && r.db == t.(grants := r.db.grants)
                  && (forall g :: g in r.db.grants ==> g in t.grants && r.db.grants[g] == t.grants[g])
                  && (forall g :: g in t.grants ==>
                        (g !in r.db.grants <==> t.grants[g].grantee == grantee && t.grants[g].keyId == a.value.keyId))
                  && (forall g :: g in t.grants && g !in r.db.grants ==>
                        LoadAccessTuple(r.db, ByGrant(g), Client, grantee) == Err(KeyNotFound)))
  {
  }

  // ---------------------------------------------------------------- pool keys

  /** A live pool key of the device, signed or not, in use or not. */
  ghost predicate InPool(t: Tables, k: int, kmUuid: int) {
    && k in t.entries && t.entries[k].keyType == Attestation && t.entries[k].state == Live
    && t.entries[k].kmUuid == kmUuid
  }

  ghost predicate IsFree(t: Tables, k: int, kmUuid: int) {
    InPool(t, k, kmUuid) && t.entries[k].alias != None && t.entries[k].domain == None
  }

  ghost predicate IsUsedBy(t: Tables, k: int, domain: Domain, nspace: int, kmUuid: int) {
    InPool(t, k, kmUuid) && t.entries[k].domain == Some(domain) && t.entries[k].nspace == Some(nspace)
  }

  /** The oldest free key goes to a namespace that has none yet, and only the two nameable domains may ask. */
  lemma AssignEffect(t: Tables, domain: Domain, nspace: int, kmUuid: int)
    ensures var r := AssignAttestationKey(t, domain, nspace, kmUuid);
            && (r.Commit? <==>
                  && domain in {APP, SELINUX} && (exists k :: IsFree(t, k, kmUuid))
                  && (forall k :: !IsUsedBy(t, k, domain, nspace, kmUuid)))
            && (r.Abort? ==> r.error == if domain in {APP, SELINUX} then OutOfKeys else SystemError)
            && (r.Commit? ==>
                  && !r.needGc && IsFree(t, r.out, kmUuid) && (forall k :: IsFree(t, k, kmUuid) ==> r.out <= k)
                  && r.db == t.(entries := t.entries[r.out := t.entries[r.out].(domain := Some(domain),
                                                                                nspace := Some(nspace))]))
  {
    if k :| IsFree(t, k, kmUuid) {
      assert k in Unassigned(t, kmUuid);
    } else {
      forall k
        ensures k !in Unassigned(t, kmUuid)
      {
        assert !IsFree(t, k, kmUuid);
      }
    }
    forall k | IsFree(t, k, kmUuid)
      ensures k in Unassigned(t, kmUuid)
    {
    }
    if k :| IsUsedBy(t, k, domain, nspace, kmUuid) {
      assert k in Assigned(t, domain, nspace, kmUuid);
    } else {
      forall k
        ensures k !in Assigned(t, domain, nspace, kmUuid)
      {
        assert !IsUsedBy(t, k, domain, nspace, kmUuid);
      }
    }
  }

  ghost function Expiring(t: Tables, date: int, kmUuid: int): set<int> {
    set k | k in SignedKeys(t, kmUuid) && ExpiresBefore(t, k, date)
  }

  /** The numbers that the status of the pool reports. */
  ghost function Counts(t: Tables, date: int, kmUuid: int): PoolStatus {
    PoolStatus(|Expiring(t, date, kmUuid)|, |Unassigned(t, kmUuid)|, |SignedKeys(t, kmUuid)|, |PoolKeys(t, kmUuid)|)
  }

  /** Which keys are counted. */
  lemma CountedIff(t: Tables, date: int, kmUuid: int, k: int)
    ensures k in PoolKeys(t, kmUuid) <==> InPool(t, k, kmUuid)
    ensures k in SignedKeys(t, kmUuid) <==> InPool(t, k, kmUuid) && t.entries[k].alias != None
    ensures k in Unassigned(t, kmUuid) <==> IsFree(t, k, kmUuid)
    ensures ExpiresBefore(t, k, date) <==> IsPast(t, k, date)
  {
  }

  function Bit(b: bool): nat {
    if b then 1 else 0
  }

  lemma SameBut(s: set<int>, r: set<int>, k: int)
    requires forall j :: j != k ==> (j in s <==> j in r)
    ensures |r| == |s| - Bit(k in s) + Bit(k in r)
  {
    forall j
      ensures j in r - {k} <==> j in s - {k}
    {
    }
    assert r - {k} == s - {k};
    assert |s| == |s - {k}| + Bit(k in s) by {
      if k in s {
        assert s == (s - {k}) + {k};
      }
    }
    assert |r| == |r - {k}| + Bit(k in r) by {
      if k in r {
        assert r == (r - {k}) + {k};
      }
    }
  }

  /** A change of one row changes the numbers by what that row counted and counts now. */
  lemma RowCounts(t: Tables, u: Tables, k: int, row: EntryRow, kmUuid: int, date: int)
    requires u.entries == t.entries[k := row]
    requires forall j :: j != k ==> (ExpiresBefore(u, j, date) <==> ExpiresBefore(t, j, date))
    ensures var before, after := Counts(t, date, kmUuid), Counts(u, date, kmUuid);
            && after.total == before.total - Bit(k in PoolKeys(t, kmUuid)) + Bit(k in PoolKeys(u, kmUuid))
            && after.attested == before.attested - Bit(k in SignedKeys(t, kmUuid)) + Bit(k in SignedKeys(u, kmUuid))
            && after.unassigned
               == before.unassigned - Bit(k in Unassigned(t, kmUuid)) + Bit(k in Unassigned(u, kmUuid))
            && after.expiring
               == before.expiring - Bit(k in Expiring(t, date, kmUuid)) + Bit(k in Expiring(u, date, kmUuid))
  {
    forall j | j != k
      ensures j in PoolKeys(t, kmUuid) <==> j in PoolKeys(u, kmUuid)
      ensures j in SignedKeys(t, kmUuid) <==> j in SignedKeys(u, kmUuid)
      ensures j in Unassigned(t, kmUuid) <==> j in Unassigned(u, kmUuid)
      ensures j in Expiring(t, date, kmUuid) <==> j in Expiring(u, date, kmUuid)
    {
      OtherRow(t, u, k, row, kmUuid, date, j);
    }
    SameBut(PoolKeys(t, kmUuid), PoolKeys(u, kmUuid), k);
    SameBut(SignedKeys(t, kmUuid), SignedKeys(u, kmUuid), k);
    SameBut(Unassigned(t, kmUuid), Unassigned(u, kmUuid), k);
    SameBut(Expiring(t, date, kmUuid), Expiring(u, date, kmUuid), k);
  }

  lemma OtherRow(t: Tables, u: Tables, k: int, row: EntryRow, kmUuid: int, date: int, j: int)
    requires u.entries == t.entries[k := row] && j != k
    requires ExpiresBefore(u, j, date) <==> ExpiresBefore(t, j, date)
    ensures j in PoolKeys(t, kmUuid) <==> j in PoolKeys(u, kmUuid)
    ensures j in SignedKeys(t, kmUuid) <==> j in SignedKeys(u, kmUuid)
    ensures j in Unassigned(t, kmUuid) <==> j in Unassigned(u, kmUuid)
    ensures j in Expiring(t, date, kmUuid) <==> j in Expiring(u, date, kmUuid)
  {
  }

  /** Assigning a key takes it from the free ones, and nothing else is counted differently. */
  lemma AssignCounts(t: Tables, domain: Domain, nspace: int, kmUuid: int, date: int, other: int)
    requires AssignAttestationKey(t, domain, nspace, kmUuid).Commit?
    ensures var u := AssignAttestationKey(t, domain, nspace, kmUuid).db;
            var before, after := Counts(t, date, other), Counts(u, date, other);
            && after == before.(unassigned := after.unassigned)
            && after.unassigned == before.unassigned - if other == kmUuid then 1 else 0
  {
    var r := AssignAttestationKey(t, domain, nspace, kmUuid);
    AssignEffect(t, domain, nspace, kmUuid);
    RowCounts(t, r.db, r.out, r.db.entries[r.out], other, date);
    CountedIff(t, date, other, r.out);
    CountedIff(r.db, date, other, r.out);
  }

  /** A key created is one more in all, and none more of any other kind. */
  lemma CreateCounts(t: Tables, maced: Bytes, rawKey: Bytes, privateKey: Bytes, kmUuid: int, id: int, date: int,
                     other: int)
    requires Drawable(t.entries.Keys, id)
    ensures var r := CreateAttestationKey(t, maced, rawKey, privateKey, kmUuid, id);
            var before, after := Counts(t, date, other), Counts(r.db, date, other);
            && r.Commit? && !r.needGc && r.out == id && after == before.(total := after.total)
            && after.total == before.total + if other == kmUuid then 1 else 0
  {
    var u := CreateAttestationKey(t, maced, rawKey, privateKey, kmUuid, id).db;
    CreateKeepsDates(t, maced, rawKey, privateKey, kmUuid, id, date);
    RowCounts(t, u, id, u.entries[id], other, date);
    CountedIff(t, date, other, id);
    CountedIff(u, date, other, id);
  }

  lemma CreateKeepsDates(t: Tables, maced: Bytes, rawKey: Bytes, privateKey: Bytes, kmUuid: int, id: int, date: int)
    requires Drawable(t.entries.Keys, id)
    ensures var u := CreateAttestationKey(t, maced, rawKey, privateKey, kmUuid, id).db;
            && u.entries == t.entries[id := EntryRow(Attestation, None, None, None, Live, kmUuid)]
            && forall k :: k != id ==> (ExpiresBefore(u, k, date) <==> ExpiresBefore(t, k, date))
  {
  }

  /** A live key that is signed is one more signed and free, and one more expiring exactly if its date is earlier. */
  lemma SignCounts(t: Tables, rawKey: Bytes, cert: Bytes, chain: Bytes, expiration: int, kmUuid: int, date: int)
    requires StoreSignedChain(t, rawKey, cert, chain, expiration, kmUuid).Commit?
    ensures var r := StoreSignedChain(t, rawKey, cert, chain, expiration, kmUuid);
            var before, after := Counts(t, date, kmUuid), Counts(r.db, date, kmUuid);
            && r.out in t.entries && !r.needGc
            && if t.entries[r.out].state != Live then after == before
               else
                 && after.total == before.total && after.attested == before.attested + 1
                 && after.unassigned == before.unassigned + 1
                 && after.expiring == before.expiring + if expiration < date then 1 else 0
  {
    var r := StoreSignedChain(t, rawKey, cert, chain, expiration, kmUuid);
    SignedContents(t, rawKey, cert, chain, expiration, kmUuid);
    SignedUntilExpired(t, rawKey, cert, chain, expiration, kmUuid, date);
    SignKeepsDates(t, rawKey, cert, chain, expiration, kmUuid, date);
    RowCounts(t, r.db, r.out, r.db.entries[r.out], kmUuid, date);
    CountedIff(t, date, kmUuid, r.out);
    CountedIff(r.db, date, kmUuid, r.out);
  }

  lemma SignKeepsDates(t: Tables, rawKey: Bytes, cert: Bytes, chain: Bytes, expiration: int, kmUuid: int, date: int)
    requires StoreSignedChain(t, rawKey, cert, chain, expiration, kmUuid).Commit?
    ensures var r := StoreSignedChain(t, rawKey, cert, chain, expiration, kmUuid);
            forall k :: k != r.out ==> (ExpiresBefore(r.db, k, date) <==> ExpiresBefore(t, k, date))
  {
  }

  /** A pool key waits under its public key until it is signed. */
  ghost predicate Waits(t: Tables, k: int, rawKey: Bytes, kmUuid: int) {
    && k in t.entries && k in t.keyMeta && AttestationRawPubKey in t.keyMeta[k]
    && t.keyMeta[k][AttestationRawPubKey] == BytesValue(rawKey)
    && t.entries[k] == EntryRow(Attestation, None, None, None, t.entries[k].state, kmUuid)
  }

  lemma CreatedWaits(t: Tables, maced: Bytes, rawKey: Bytes, privateKey: Bytes, kmUuid: int, id: int)
    requires Drawable(t.entries.Keys, id)
    ensures var u := CreateAttestationKey(t, maced, rawKey, privateKey, kmUuid, id).db;
            && Waits(u, id, rawKey, kmUuid) && u.entries[id].state == Live
            && BlobOf(u, id, KeyBlob) == Some(privateKey)
            && AttestationMacedPublicKey in u.keyMeta[id]
            && u.keyMeta[id][AttestationMacedPublicKey] == BytesValue(maced)
  {
    var t1 := t.(entries := t.entries[id := EntryRow(Attestation, None, None, None, Live, kmUuid)]);
    var u := CreateAttestationKey(t, maced, rawKey, privateKey, kmUuid, id).db;
    InsertBlobCurrent(t1, id, KeyBlob, privateKey, None, KeyBlob);
    SameBlobsSameCurrent(InsertBlob(t1, id, KeyBlob, privateKey, None), u, id, KeyBlob);
  }

  /** The one key that waits under the public key gets certificate, chain and expiration date, and keeps its blob. */
  lemma SignedContents(t: Tables, rawKey: Bytes, cert: Bytes, chain: Bytes, expiration: int, kmUuid: int)
    requires StoreSignedChain(t, rawKey, cert, chain, expiration, kmUuid).Commit?
    ensures var r := StoreSignedChain(t, rawKey, cert, chain, expiration, kmUuid);
            var k := r.out;
            && Waits(t, k, rawKey, kmUuid) && k in r.db.entries
            && r.db.entries == t.entries[k := t.entries[k].(alias := Some("signed"))]
            && BlobOf(r.db, k, Cert) == Some(cert) && BlobOf(r.db, k, CertChain) == Some(chain)
            && BlobOf(r.db, k, KeyBlob) == BlobOf(t, k, KeyBlob)
            && AttestationExpirationDate in GetOr(r.db.keyMeta, k, map[])
            && r.db.keyMeta[k][AttestationExpirationDate] == IntValue(expiration)
  {
    var k := TheOne(AwaitingSignature(t, rawKey, kmUuid)).value;
    assert k in AwaitingSignature(t, rawKey, kmUuid);
    AwaitingIsUnsigned(t, rawKey, kmUuid, k);
    WaitingRow(t.entries[k], kmUuid);
    var t1 := t.(entries := t.entries[k := t.entries[k].(alias := Some("signed"))]);
    var t2 := AddKeyMeta(t1, k, map[AttestationExpirationDate := IntValue(expiration)]);
    SignedBlobs(t, t2, k, cert, chain);
  }

  lemma WaitingRow(row: EntryRow, kmUuid: int)
    requires row.(state := Live) == EntryRow(Attestation, None, None, None, Live, kmUuid)
    ensures row == EntryRow(Attestation, None, None, None, row.state, kmUuid)
  {
  }

  lemma SignedBlobs(t: Tables, t2: Tables, k: int, cert: Bytes, chain: Bytes)
    requires t2.blobs == t.blobs
    ensures var u := InsertBlob(InsertBlob(t2, k, CertChain, chain, None), k, Cert, cert, None);
            && BlobOf(u, k, Cert) == Some(cert) && BlobOf(u, k, CertChain) == Some(chain)
            && BlobOf(u, k, KeyBlob) == BlobOf(t, k, KeyBlob)
  {
    var t3 := InsertBlob(t2, k, CertChain, chain, None);
    InsertBlobCurrent(t2, k, CertChain, chain, None, CertChain);
    InsertBlobCurrent(t2, k, CertChain, chain, None, KeyBlob);
    InsertBlobCurrent(t3, k, Cert, cert, None, Cert);
    InsertBlobCurrent(t3, k, Cert, cert, None, CertChain);
    InsertBlobCurrent(t3, k, Cert, cert, None, KeyBlob);
    SameBlobsSameCurrent(t, t2, k, KeyBlob);
  }

  /** The date is past: the key's expiration date is known and before the time. */
  ghost predicate IsPast(t: Tables, k: int, time: int) {
    && k in t.keyMeta && AttestationExpirationDate in t.keyMeta[k]
    && exists date :: t.keyMeta[k][AttestationExpirationDate] == IntValue(date) && date < time
  }

  /** Exactly the pool keys whose date is past are removed. */
  lemma ExpiredAreRemoved(t: Tables, now: int, k: int)
    requires k in t.entries
    ensures k !in After(t, OpDeleteExpired(now)).entries <==> t.entries[k].keyType == Attestation && IsPast(t, k, now)
    ensures k in After(t, OpDeleteExpired(now)).entries ==> After(t, OpDeleteExpired(now)).entries[k] == t.entries[k]
  {
  }

  lemma AllPoolKeysAreRemoved(t: Tables, k: int)
    requires k in t.entries
    ensures k !in After(t, OpDeleteAllAttestation).entries <==> t.entries[k].keyType == Attestation
    ensures k in After(t, OpDeleteAllAttestation).entries ==>
              After(t, OpDeleteAllAttestation).entries[k] == t.entries[k]
  {
  }

  /** So a key that is signed is removed exactly once the date it was signed with is past. */
  lemma SignedUntilExpired(t: Tables, rawKey: Bytes, cert: Bytes, chain: Bytes, expiration: int, kmUuid: int, now: int)
    requires StoreSignedChain(t, rawKey, cert, chain, expiration, kmUuid).Commit?
    ensures var r := StoreSignedChain(t, rawKey, cert, chain, expiration, kmUuid);
            && (r.out !in After(r.db, OpDeleteExpired(now)).entries <==> expiration < now)
            && (ExpiresBefore(r.db, r.out, now) <==> expiration < now)
  {
    var r := StoreSignedChain(t, rawKey, cert, chain, expiration, kmUuid);
    SignedContents(t, rawKey, cert, chain, expiration, kmUuid);
    ExpiredAreRemoved(r.db, now, r.out);
  }

  /** What is retrieved for a namespace is what was stored with the key assigned to it. */
  lemma RetrievedContents(t: Tables, domain: Domain, nspace: int, kmUuid: int)
    requires PoolInv(t) && AssignAttestationKey(t, domain, nspace, kmUuid).Commit?
    ensures var r := AssignAttestationKey(t, domain, nspace, kmUuid);
            && exists a, b, c :: RowsFor(r.db, domain, nspace, kmUuid) == {a, b, c} && FilledBy(r.db, r.out, a, b, c)
                                 && Some(r.db.blobs[a].blob) == BlobOf(t, r.out, KeyBlob)
                                 && Some(r.db.blobs[b].blob) == BlobOf(t, r.out, Cert)
                                 && Some(r.db.blobs[c].blob) == BlobOf(t, r.out, CertChain)
  {
    var r := AssignAttestationKey(t, domain, nspace, kmUuid);
    AssignUntouched(t, domain, nspace, kmUuid);
    AssignThenRetrieve(t, domain, nspace, kmUuid);
    AssignPoolInv(t, domain, nspace, kmUuid);
    RetrievalIsComplete(r.db, domain, nspace, kmUuid);
    var k, a, b, c :| Assigned(r.db, domain, nspace, kmUuid) == {k} && FilledBy(r.db, k, a, b, c)
                      && RowsFor(r.db, domain, nspace, kmUuid) == {a, b, c};
    assert r.out in {k};
    OnlyRowIsCurrent(t, r.db, k, KeyBlob, a);
    OnlyRowIsCurrent(t, r.db, k, Cert, b);
    OnlyRowIsCurrent(t, r.db, k, CertChain, c);
  }

  lemma OnlyRowIsCurrent(t: Tables, u: Tables, k: int, part: SubComponent, b: int)
    requires u.blobs == t.blobs && Fills(u, b, k, part)
    requires forall c :: Fills(u, c, k, part) ==> c == b
    ensures BlobOf(t, k, part) == Some(u.blobs[b].blob)
  {
    forall c | c in t.blobs && SameSlot(t.blobs[b], t.blobs[c])
      ensures c <= b
    {
      assert Fills(u, c, k, part);
    }
    CurrentBlobIs(t, k, part, b);
  }
}
