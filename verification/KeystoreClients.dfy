/** What a client of the key database can rely on, whatever other clients and the collector do. */
module KeystoreClients {
  import opened KeystoreTypes
  import opened KeystoreTables
  import opened KeystoreTx
  import opened KeystoreInvariants
  import opened GarbageCollector
  import opened GcChain
  import opened AttestationPool
  import opened GcSystem

  // ---------------------------------------------------------------- store, then load

  lemma InsertBlobCurrent(t: Tables, k: int, part: SubComponent, blob: Bytes, meta: Option<BlobMeta>, p: SubComponent)
    ensures CurrentBlob(InsertBlob(t, k, part, blob, meta), k, p)
         == if p == part then Some(NextBlobId(t.blobs)) else CurrentBlob(t, k, p)
  {
    var u := InsertBlob(t, k, part, blob, meta);
    var n := NextBlobId(t.blobs);
    if p == part {
      assert Fills(u, n, k, p) && Current(u, n);
      CurrentBlobIs(u, k, p, n);
    } else {
      var b := CurrentBlob(t, k, p);
      if b.Some? {
        assert Fills(u, b.value, k, p) && Current(u, b.value);
        CurrentBlobIs(u, k, p, b.value);
      } else {
        forall c
          ensures !Fills(u, c, k, p)
        {
          assert !Fills(t, c, k, p);
        }
      }
    }
  }

  /** The components of a key, as found under its current blobs. */
  ghost predicate Holds(t: Tables, k: int, keyBlob: Option<(Bytes, BlobMeta)>, cert: Option<Bytes>,
                        chain: Option<Bytes>) {
    var c := LoadBlobComponents(t, k, BOTH);
    c.hasKeyBlob == keyBlob.Some? && c.keyBlob == keyBlob && c.cert == cert && c.certChain == chain
  }

  lemma InsertKeyBlobHolds(t: Tables, k: int, blob: Bytes, meta: BlobMeta)
    requires MetadataOnKeyBlobs(t)
    ensures Holds(InsertBlob(t, k, KeyBlob, blob, Some(meta)), k, Some((blob, meta)), BlobOf(t, k, Cert),
                  BlobOf(t, k, CertChain))
  {
    var n := NextBlobId(t.blobs);
    InsertBlobCurrent(t, k, KeyBlob, blob, Some(meta), KeyBlob);
    InsertBlobCurrent(t, k, KeyBlob, blob, Some(meta), Cert);
    InsertBlobCurrent(t, k, KeyBlob, blob, Some(meta), CertChain);
    assert GetOr(t.blobMeta, n, map[]) == map[];
    assert map[] + meta == meta;
  }

  lemma InsertCertHolds(t: Tables, k: int, part: SubComponent, blob: Option<Bytes>, keyBlob: Option<(Bytes, BlobMeta)>,
                        cert: Option<Bytes>, chain: Option<Bytes>)
    requires Holds(t, k, keyBlob, cert, chain) && part != KeyBlob
    ensures Holds(InsertIfAny(t, k, part, blob), k, keyBlob,
                  if part == Cert && blob.Some? then blob else cert,
                  if part == CertChain && blob.Some? then blob else chain)
  {
    if blob.Some? {
      InsertBlobCurrent(t, k, part, blob.value, None, KeyBlob);
      InsertBlobCurrent(t, k, part, blob.value, None, Cert);
      InsertBlobCurrent(t, k, part, blob.value, None, CertChain);
    }
  }

  lemma InsertBlobsHolds(t: Tables, id: int, n: NewKey)
    requires MetadataOnKeyBlobs(t)
    ensures Holds(InsertBlobs(t, id, n), id, Some((n.blob, n.blobMeta)),
                  if n.cert.Some? then n.cert else BlobOf(t, id, Cert),
                  if n.certChain.Some? then n.certChain else BlobOf(t, id, CertChain))
  {
    InsertKeyBlobHolds(t, id, n.blob, n.blobMeta);
    var t1 := InsertBlob(t, id, KeyBlob, n.blob, Some(n.blobMeta));
    InsertCertHolds(t1, id, Cert, n.cert, Some((n.blob, n.blobMeta)), BlobOf(t, id, Cert), BlobOf(t, id, CertChain));
    InsertCertHolds(InsertIfAny(t1, id, Cert, n.cert), id, CertChain, n.certChain, Some((n.blob, n.blobMeta)),
                    if n.cert.Some? then n.cert else BlobOf(t, id, Cert), BlobOf(t, id, CertChain));
  }

  /** The entry a client expects back after storing a key. */
  function AsStored(n: NewKey, id: int): KeyEntry {
    KeyEntry(id, Some((n.blob, n.blobMeta)), n.cert, n.certChain, n.kmUuid, n.params, n.metadata, false)
  }

  /** No leftover certificate is waiting for a key with this id. */
  ghost predicate NoLeftoverCertificates(t: Tables, n: NewKey, id: int) {
    && (n.cert.Some? || NoneOf(t, id, Cert))
    && (n.certChain.Some? || NoneOf(t, id, CertChain))
  }

  /**
   After a key is stored its alias leads to it, and what loads is exactly what was stored unless
   the drawn id is that of a removed key whose certificates have not been collected yet.
   */
  lemma StoreThenLoadIff(t: Tables, key: KeyDescriptor, n: NewKey, id: int)
    requires Inv(t) && Drawable(t.entries.Keys, id) && Storable(key)
    ensures var u := StoreNewKey(t, key, Client, n, id);
            && u.Commit?
            && LoadKeyEntryId(u.db, key, Client) == Ok(id)
            && (LoadKeyComponents(u.db, id, BOTH) == Ok(AsStored(n, id)) <==> NoLeftoverCertificates(t, n, id))
  {
    StoreNewKeyShape(t, key, Client, n, id);
    var u := StoreNewKey(t, key, Client, n, id).db;
    StoredLoads(t, u, key, n, id);
    NoBlobIff(t, id, Cert);
    NoBlobIff(t, id, CertChain);
    StoreNewKeyInv(t, key, Client, n, id);
    AliasLeadsTo(u, key, id);
  }

  /**
   A key with a certificate is stored and removed, and its id drawn again before collection: the second key,
   stored without a certificate, loads with the certificate of the first.
   */
  lemma LeftoverCertificateLoads(key: KeyDescriptor, first: NewKey, second: NewKey, cert: Bytes)
    returns (t1: Tables, t2: Tables, u: Tables)
    requires Storable(key) && key.domain == APP && first.cert == Some(cert) && second.cert.None?
    ensures t1 == After(NO_TABLES, OpStoreKey(key, Client, first, 7))
    ensures t2 == After(t1, OpUnbind(key, Client, key.nspace, true))
    ensures Enabled(t2, OpStoreKey(key, Client, second, 7)) && u == After(t2, OpStoreKey(key, Client, second, 7))
    ensures LoadKeyEntryId(u, key, Client) == Ok(7)
    ensures LoadKeyComponents(u, 7, BOTH).Ok? && LoadKeyComponents(u, 7, BOTH).value.cert == Some(cert)
  {
    t1 := StoredUnder(NO_TABLES, key, first, 7);
    t2 := DeleteEntries(t1, {7});
    UnbindByAlias(t1, key, 7);
    DeleteEntriesInv(t1, {7});
    SameBlobsSameCurrent(t1, t2, 7, Cert);
    u := StoredUnder(t2, key, second, 7);
  }

  /** What storing a key under an unused id comes to. */
  lemma StoredUnder(t: Tables, key: KeyDescriptor, n: NewKey, id: int) returns (u: Tables)
    requires Inv(t) && Drawable(t.entries.Keys, id) && Storable(key)
    ensures u == After(t, OpStoreKey(key, Client, n, id)) && Inv(u)
    ensures IsLive(u, id) && Bound(u.entries[id], key.domain, key.nspace, key.alias.value, Client)
    ensures LoadKeyEntryId(u, key, Client) == Ok(id) && LoadKeyComponents(u, id, BOTH).Ok?
    ensures var e := LoadKeyComponents(u, id, BOTH).value;
            && e.keyBlob == Some((n.blob, n.blobMeta)) && e.cert == BlobOf(u, id, Cert)
            && e.cert == if n.cert.Some? then n.cert else BlobOf(t, id, Cert)
  {
    StoreNewKeyShape(t, key, Client, n, id);
    u := StoreNewKey(t, key, Client, n, id).db;
    StoreNewKeyInv(t, key, Client, n, id);
    StoredLoads(t, u, key, n, id);
    AliasLeadsTo(u, key, id);
  }

  lemma UnbindByAlias(t: Tables, key: KeyDescriptor, id: int)
    requires key.domain == APP && LoadKeyEntryId(t, key, Client) == Ok(id) && id in t.entries
    ensures After(t, OpUnbind(key, Client, key.nspace, true)) == DeleteEntries(t, {id})
  {
    assert key.(nspace := key.nspace) == key;
  }

  lemma StoredLoads(t: Tables, u: Tables, key: KeyDescriptor, n: NewKey, id: int)
    requires Inv(t) && id !in t.entries && key.alias.Some? && Stored(t, u, key, Client, n, id)
    ensures LoadKeyComponents(u, id, BOTH)
         == Ok(AsStored(n, id).(cert := if n.cert.Some? then n.cert else BlobOf(t, id, Cert),
                                certChain := if n.certChain.Some? then n.certChain else BlobOf(t, id, CertChain)))
  {
    InsertBlobsHolds(t, id, n);
    EntryAroundBlobs(t, InsertBlobs(t, id, n), u, key, n, id,
                     if n.cert.Some? then n.cert else BlobOf(t, id, Cert),
                     if n.certChain.Some? then n.certChain else BlobOf(t, id, CertChain));
  }

  lemma NoBlobIff(t: Tables, k: int, part: SubComponent)
    ensures BlobOf(t, k, part).None? <==> NoneOf(t, k, part)
  {
  }

  lemma EntryAroundBlobs(t: Tables, b: Tables, u: Tables, key: KeyDescriptor, n: NewKey, id: int, cert: Option<Bytes>,
                         chain: Option<Bytes>)
    requires Inv(t) && id !in t.entries && key.alias.Some?
    requires StoredEntry(t, u, key, Client, n, id) && SameBlobTables(b, u)
    requires Holds(b, id, Some((n.blob, n.blobMeta)), cert, chain)
    ensures LoadKeyComponents(u, id, BOTH) == Ok(AsStored(n, id).(cert := cert, certChain := chain))
  {
    EntriesDoNotAffectBlobs(b, u, id, BOTH);
    EntryContents(t, u, key, n, id);
  }

  lemma EntryContents(t: Tables, u: Tables, key: KeyDescriptor, n: NewKey, id: int)
    requires Inv(t) && id !in t.entries && key.alias.Some? && StoredEntry(t, u, key, Client, n, id)
    ensures id in u.entries && u.entries[id].kmUuid == n.kmUuid
    ensures GetOr(u.params, id, []) == n.params && GetOr(u.keyMeta, id, map[]) == n.metadata
  {
    assert id !in t.params && id !in t.keyMeta;
    assert [] + n.params == n.params;
    assert map[] + n.metadata == n.metadata;
  }

  lemma AliasLeadsTo(t: Tables, key: KeyDescriptor, id: int)
    requires Inv(t) && key.alias.Some? && IsLive(t, id)
    requires Bound(t.entries[id], key.domain, key.nspace, key.alias.value, Client)
    ensures LoadKeyEntryId(t, key, Client) == Ok(id)
  {
    var s := LiveBound(t, key.domain, key.nspace, key.alias.value, Client);
    forall k | k in s
      ensures k == id
    {
      assert Bound(t.entries[k], key.domain, key.nspace, key.alias.value, Client);
    }
    assert s == {id};
  }

  /** A stored key stays loadable under its alias through every run that leaves it alone. */
  lemma StoredKeySurvivesRuns(s: System, key: KeyDescriptor, n: NewKey, id: int, es: seq<Event>)
    requires SystemInv(s) && Storable(key) && Possible(s, ClientCall(OpStoreKey(key, Client, n, id)))
    requires NoLeftoverCertificates(s.db, n, id)
    requires var s1 := Next(s, ClientCall(OpStoreKey(key, Client, n, id)));
             IsRun(s1, es) && LeftAlone(s1, es, id)
    ensures var r := EndOf(Next(s, ClientCall(OpStoreKey(key, Client, n, id))), es);
            && LoadKeyEntryId(r.db, key, Client) == Ok(id)
            && LoadKeyComponents(r.db, id, BOTH) == Ok(AsStored(n, id))
  {
    var e := ClientCall(OpStoreKey(key, Client, n, id));
    var s1 := Next(s, e);
    StoreThenLoadIff(s.db, key, n, id);
    StoreNewKeyShape(s.db, key, Client, n, id);
    EventKeepsInv(s, e);
    assert s1.db == StoreNewKey(s.db, key, Client, n, id).db;
    RunKeepsKey(s1, es, id);
    RunKeepsInv(s1, es);
    AliasLeadsTo(EndOf(s1, es).db, key, id);
  }

  // ---------------------------------------------------------------- update and move

  /** After an update the new key blob loads, and the rest of the key as before. */
  lemma UpdateThenLoad(t: Tables, k: int, blob: Bytes, meta: BlobMeta)
    requires Inv(t) && k in t.entries
    ensures var u := After(t, OpSetBlob(k, KeyBlob, Some(blob), Some(meta)));
            && LoadKeyComponents(t, k, BOTH).Ok?
            && LoadKeyComponents(u, k, BOTH)
               == Ok(LoadKeyComponents(t, k, BOTH).value.(keyBlob := Some((blob, meta)), pureCert := false))
  {
    InsertKeyBlobHolds(t, k, blob, meta);
  }

  /** After a certificate is replaced or removed, the new one or none loads, and the rest of the key as before. */
  lemma UpdateCertificateThenLoad(t: Tables, k: int, cert: Option<Bytes>)
    requires Inv(t) && k in t.entries
    ensures var u := After(t, OpSetBlob(k, Cert, cert, None));
            && LoadKeyComponents(t, k, BOTH).Ok?
            && LoadKeyComponents(u, k, BOTH) == Ok(LoadKeyComponents(t, k, BOTH).value.(cert := cert))
  {
    var c := LoadBlobComponents(t, k, BOTH);
    if cert.Some? {
      InsertCertHolds(t, k, Cert, cert, c.keyBlob, c.cert, c.certChain);
    } else {
      ClearCertHolds(t, k, c.keyBlob, c.cert, c.certChain);
    }
  }

  lemma ClearCertHolds(t: Tables, k: int, keyBlob: Option<(Bytes, BlobMeta)>, cert: Option<Bytes>, chain: Option<Bytes>)
    requires Holds(t, k, keyBlob, cert, chain)
    ensures Holds(ClearSlot(t, k, Cert), k, keyBlob, None, chain)
  {
    ClearSlotCurrent(t, k, Cert, KeyBlob);
    ClearSlotCurrent(t, k, Cert, Cert);
    ClearSlotCurrent(t, k, Cert, CertChain);
  }

  lemma ClearSlotCurrent(t: Tables, k: int, part: SubComponent, p: SubComponent)
    ensures CurrentBlob(ClearSlot(t, k, part), k, p) == if p == part then None else CurrentBlob(t, k, p)
  {
    var u := ClearSlot(t, k, part);
    var b := CurrentBlob(t, k, p);
    if p == part {
      assert forall c :: !Fills(u, c, k, p);
    } else if b.Some? {
      assert Fills(u, b.value, k, p) && Current(u, b.value);
      CurrentBlobIs(u, k, p, b.value);
    } else {
      forall c
        ensures !Fills(u, c, k, p)
      {
        assert !Fills(t, c, k, p);
      }
    }
  }

  function MovedTo(destination: KeyDescriptor, caller: int): KeyDescriptor {
    if destination.domain == APP then destination.(nspace := caller) else destination
  }

  /** A key that has been moved is found under its new name and under no other, and loads as before. */
  lemma MoveThenLoad(t: Tables, id: int, destination: KeyDescriptor, caller: int)
    requires Inv(t) && IsLive(t, id) && t.entries[id].keyType == Client
    requires MigrateKeyNamespace(t, id, destination, caller, true).Commit?
    ensures var u := MigrateKeyNamespace(t, id, destination, caller, true).db;
            var name := MovedTo(destination, caller);
            && LoadKeyEntryId(u, name, Client) == Ok(id)
            && LoadKeyComponents(u, id, BOTH) == LoadKeyComponents(t, id, BOTH)
            && (forall d, n, a :: id in LiveBound(u, d, n, a, Client) ==>
                  d == name.domain && n == name.nspace && Some(a) == name.alias)
  {
    var u := MigrateKeyNamespace(t, id, destination, caller, true).db;
    MigrateInv(t, id, destination, caller, true);
    AliasLeadsTo(u, MovedTo(destination, caller), id);
    EntriesDoNotAffectBlobs(t, u, id, BOTH);
  }

  /** The newest key blob is there and its metadata names no key that encrypts it. */
  ghost predicate PlainlyStored(t: Tables, k: int) {
    exists b :: Fills(t, b, k, KeyBlob) && Current(t, b) && EncryptedBy !in GetOr(t.blobMeta, b, map[])
  }

  /**
   Removing a user takes exactly the app keys in the user's uid range, save those that are not encrypted by
   another key if those are to be kept. User 0 also has small negative namespaces.
   */
  lemma UserRangeIsRemoved(t: Tables, user: nat, keep: bool, k: int)
    requires k in t.entries && t.entries[k].keyType == Client && t.entries[k].state == Live
    requires t.entries[k].domain == Some(APP) && t.entries[k].nspace.Some?
    ensures var n := t.entries[k].nspace.value;
            k !in UnbindKeysForUser(t, user, keep).db.entries <==>
              && n < (user + 1) * AID_USER_OFFSET
              && (n >= user * AID_USER_OFFSET || (user == 0 && n > -AID_USER_OFFSET))
              && !(keep && PlainlyStored(t, k))
  {
    var n := t.entries[k].nspace.value;
    assert OfUser(t.entries[k], user) <==> SqlDiv(n, AID_USER_OFFSET) == user;
    assert NotSuperEncrypted(t, k) <==> PlainlyStored(t, k) by {
      if b :| Fills(t, b, k, KeyBlob) && Current(t, b) && EncryptedBy !in GetOr(t.blobMeta, b, map[]) {
        CurrentBlobIs(t, k, KeyBlob, b);
      }
    }
  }

  // ---------------------------------------------------------------- grants

  function ByGrant(g: int): KeyDescriptor {
    KeyDescriptor(GRANT, g, None, None)
  }

  function ById(k: int): KeyDescriptor {
    KeyDescriptor(KEY_ID, k, None, None)
  }

  /** A key reached through a grant gives the grantee the same rights when used by its id. */
  lemma GrantAndKeyIdAgree(t: Tables, g: int, grantee: int, keyType: KeyType)
    requires Inv(t) && LoadAccessTuple(t, ByGrant(g), keyType, grantee).Ok?
    ensures var a := LoadAccessTuple(t, ByGrant(g), keyType, grantee).value;
            var row := t.entries[a.keyId];
            var b := LoadAccessTuple(t, ById(a.keyId), keyType, grantee);
            && (b.Ok? <==> row.domain.Some? && row.nspace.Some?)
            && (b.Ok? ==> b.value.keyId == a.keyId
                          && (b.value.access == if row.domain == Some(APP) && row.nspace == Some(grantee) then None
                                                else a.access))
  {
    var k := t.grants[g].keyId;
    forall h | h in GrantsOf(t, k, grantee)
      ensures h == g
    {
      assert t.grants[h].grantee == t.grants[g].grantee;
    }
    assert GrantsOf(t, k, grantee) == {g};
  }

  /** A grant that is gone, or whose key has been replaced. */
  ghost predicate Retired(t: Tables, g: int) {
    g in t.grants ==> t.grants[g].keyId in t.entries && t.entries[t.grants[g].keyId].state == Unreferenced
  }

  lemma RetiredDoesNotResolve(t: Tables, g: int, keyType: KeyType, caller: int)
    requires Retired(t, g)
    ensures LoadAccessTuple(t, ByGrant(g), keyType, caller) == Err(KeyNotFound)
  {
  }

  predicate MakesGrant(op: Op, g: int) {
    op.OpGrant? && op.id == g
  }

  /** Once unreferenced, an entry never comes back to life; it can only disappear. */
  lemma UnreferencedIsTerminal(t: Tables, op: Op, k: int)
    requires Enabled(t, op) && k in t.entries && t.entries[k].state == Unreferenced && k in After(t, op).entries
    ensures After(t, op).entries[k].state == Unreferenced
  {
    if Removes(op) {
      RemovesExactly(t, op);
    } else if op.OpStoreKey? && Run(t, op).Commit? {
      StoreNewKeyShape(t, op.key, op.keyType, op.newKey, op.id);
    } else if op.OpAssign? && Run(t, op).Commit? {
      assert MinOf(Unassigned(t, op.kmUuid)) in Unassigned(t, op.kmUuid);
    }
  }

  lemma GrantsKeepTheirKeys(t: Tables, op: Op, g: int)
    requires Enabled(t, op) && !MakesGrant(op, g) && g in After(t, op).grants
    ensures g in t.grants && t.grants[g].keyId == After(t, op).grants[g].keyId
  {
    if Removes(op) {
      RemovesExactly(t, op);
    } else if op.OpStoreKey? && Run(t, op).Commit? {
      StoreNewKeyShape(t, op.key, op.keyType, op.newKey, op.id);
    } else if op.OpGrant? && Run(t, op).Commit? {
      GrantKeepsKeys(t, op.key, op.caller, op.grantee, op.access, op.permitted, op.id, g);
    }
  }

  lemma GrantKeepsKeys(t: Tables, key: KeyDescriptor, caller: int, grantee: int, access: AccessVector, permitted: bool,
                       id: int, g: int)
    requires Drawable(t.grants.Keys, id) && id != g && GrantKey(t, key, caller, grantee, access, permitted, id).Commit?
    requires g in GrantKey(t, key, caller, grantee, access, permitted, id).db.grants
    ensures g in t.grants
            && t.grants[g].keyId == GrantKey(t, key, caller, grantee, access, permitted, id).db.grants[g].keyId
  {
    var a := LoadAccessTuple(t, key, Client, caller);
    assert GrantsOf(t, a.value.keyId, grantee) <= t.grants.Keys;
  }

  lemma OpKeepsRetired(t: Tables, op: Op, g: int)
    requires Inv(t) && Enabled(t, op) && Plain(op) && Retired(t, g) && !MakesGrant(op, g)
    ensures Retired(After(t, op), g)
  {
    var u := After(t, op);
    OpKeepsInv(t, op);
    if g in u.grants {
      GrantsKeepTheirKeys(t, op, g);
      UnreferencedIsTerminal(t, op, u.grants[g].keyId);
    }
  }

  ghost predicate NeverGrantedAgain(es: seq<Event>, g: int) {
    forall i :: 0 <= i < |es| && es[i].ClientCall? ==> !MakesGrant(es[i].op, g)
  }

  lemma {:induction false} RetiredStaysRetired(s: System, es: seq<Event>, g: int)
    requires SystemInv(s) && IsRun(s, es) && Retired(s.db, g) && NeverGrantedAgain(es, g)
    ensures Retired(EndOf(s, es).db, g)
    decreases |es|
  {
    if es != [] {
      EventKeepsInv(s, es[0]);
      if es[0].ClientCall? {
        OpKeepsRetired(s.db, es[0].op, g);
      }
      RetiredStaysRetired(Next(s, es[0]), es[1..], g);
    }
  }

  /**
   A grant on a key that a call replaces or removes never resolves again, not even after the key
   id has been drawn for another key.
   */
  lemma LostKeyLosesItsGrants(s: System, op: Op, es: seq<Event>, g: int, keyType: KeyType, caller: int)
    requires SystemInv(s) && Possible(s, ClientCall(op)) && g in s.db.grants
    requires !IsLive(After(s.db, op), s.db.grants[g].keyId) && IsLive(s.db, s.db.grants[g].keyId)
    requires IsRun(Next(s, ClientCall(op)), es) && NeverGrantedAgain(es, g)
    ensures LoadAccessTuple(EndOf(Next(s, ClientCall(op)), es).db, ByGrant(g), keyType, caller) == Err(KeyNotFound)
  {
    var s1 := Next(s, ClientCall(op));
    var k := s.db.grants[g].keyId;
    EventKeepsInv(s, ClientCall(op));
    assert s1.db == After(s.db, op);
    if g in s1.db.grants {
      assert !MakesGrant(op, g);
      GrantsKeepTheirKeys(s.db, op, g);
      LiveOnlyBecomesUnreferenced(s.db, op, k);
    }
    RetiredStaysRetired(s1, es, g);
    RetiredDoesNotResolve(EndOf(s1, es).db, g, keyType, caller);
  }

  lemma LiveOnlyBecomesUnreferenced(t: Tables, op: Op, k: int)
    requires Enabled(t, op) && IsLive(t, k) && k in After(t, op).entries
    ensures After(t, op).entries[k].state != Existing
  {
    if Removes(op) {
      RemovesExactly(t, op);
    } else if DrawsKeyId(op) {
      LiveSurvivesCreation(t, op, k);
    } else if op.OpAssign? && Run(t, op).Commit? {
      AssignUntouched(t, op.domain, op.nspace, op.kmUuid);
    }
  }

  lemma LiveSurvivesCreation(t: Tables, op: Op, k: int)
    requires Enabled(t, op) && DrawsKeyId(op) && IsLive(t, k) && k in After(t, op).entries
    ensures After(t, op).entries[k].state != Existing
  {
    if op.OpStoreKey? && Run(t, op).Commit? {
      StoreNewKeyShape(t, op.key, op.keyType, op.newKey, op.id);
    }
  }

  // ---------------------------------------------------------------- limited use keys

  /** How often a key may still be used. */
  ghost function UsesLeft(t: Tables, k: int): Option<int> {
    var limit := FirstLimit(GetOr(t.params, k, []));
    if limit.Some? && limit.value.IntValue? then Some(limit.value.i) else None
  }

  lemma {:induction false} CountDownFirst(ps: seq<KeyParam>)
    ensures FirstLimit(CountDown(ps)) ==
            match FirstLimit(ps)
            case None => None
            case Some(v) => Some(if v.IntValue? && v.i > 0 then IntValue(v.i - 1) else v)
  {
    if ps != [] && ps[0].tag != UsageCountLimit {
      CountDownFirst(ps[1..]);
      assert CountDown(ps)[1..] == CountDown(ps[1..]);
    }
  }

  lemma UseCountsDown(t: Tables, k: int)
    requires UsesLeft(t, k).Some? && UsesLeft(t, k).value >= 0
    ensures UseOnce(t, k).Commit? <==> UsesLeft(t, k).value > 0
    ensures UseOnce(t, k).Commit? ==>
              UsesLeft(UseOnce(t, k).db, k)
              == if UsesLeft(t, k).value == 1 then None else Some(UsesLeft(t, k).value - 1)
  {
    CountDownFirst(GetOr(t.params, k, []));
  }

  /** The calls that bring a key id into use. */
  predicate DrawsThisId(op: Op, k: int) {
    DrawsKeyId(op) && op.id == k
  }

  lemma OthersDoNotRefill(t: Tables, op: Op, k: int)
    requires Enabled(t, op) && !DrawsThisId(op, k) && op != OpUse(k)
    ensures GetOr(After(t, op).params, k, []) in {GetOr(t.params, k, []), []}
  {
    if Removes(op) {
      RemovesExactly(t, op);
    } else if DrawsKeyId(op) {
      CreationDoesNotRefill(t, op, k);
    }
  }

  lemma CreationDoesNotRefill(t: Tables, op: Op, k: int)
    requires Enabled(t, op) && DrawsKeyId(op) && !DrawsThisId(op, k)
    ensures GetOr(After(t, op).params, k, []) == GetOr(t.params, k, [])
  {
    if op.OpStoreKey? && Run(t, op).Commit? {
      StoreNewKeyShape(t, op.key, op.keyType, op.newKey, op.id);
    }
  }

  function Budget(left: Option<int>): nat {
    if left.Some? && left.value > 0 then left.value else 0
  }

  /** Successful uses of a key in a run. */
  ghost function Successes(s: System, es: seq<Event>, k: int): nat
    requires IsRun(s, es)
    decreases |es|
  {
    if es == [] then 0
    else
      Successes(Next(s, es[0]), es[1..], k)
      + if es[0] == ClientCall(OpUse(k)) && UseOnce(s.db, k).Commit? then 1 else 0
  }

  ghost predicate NeverDrawnAgain(es: seq<Event>, k: int) {
    forall i :: 0 <= i < |es| && es[i].ClientCall? ==> !DrawsThisId(es[i].op, k)
  }

  /** The limit, if there is one, is a count. */
  ghost predicate Limited(t: Tables, k: int) {
    var limit := FirstLimit(GetOr(t.params, k, []));
    limit.Some? ==> limit.value.IntValue? && limit.value.i >= 0
  }

  lemma EventDoesNotRefill(s: System, e: Event, k: int)
    requires Possible(s, e) && e != ClientCall(OpUse(k))
    requires e.ClientCall? ==> !DrawsThisId(e.op, k)
    ensures GetOr(Next(s, e).db.params, k, []) in {GetOr(s.db.params, k, []), []}
  {
    if e.ClientCall? {
      OthersDoNotRefill(s.db, e.op, k);
      assert Next(s, e).db == After(s.db, e.op);
    }
  }

  lemma UseSpendsOne(s: System, k: int)
    requires Possible(s, ClientCall(OpUse(k))) && Limited(s.db, k)
    ensures var r := Next(s, ClientCall(OpUse(k)));
            && Limited(r.db, k)
            && (UseOnce(s.db, k).Commit? <==> Budget(UsesLeft(s.db, k)) > 0)
            && Budget(UsesLeft(r.db, k)) == Budget(UsesLeft(s.db, k)) - if UseOnce(s.db, k).Commit? then 1 else 0
  {
    CountDownFirst(GetOr(s.db.params, k, []));
    if UsesLeft(s.db, k).Some? {
      UseCountsDown(s.db, k);
    }
  }

  lemma {:induction false} SuccessesWithinBudget(s: System, es: seq<Event>, k: int)
    requires IsRun(s, es) && Limited(s.db, k) && NeverDrawnAgain(es, k)
    ensures Successes(s, es, k) <= Budget(UsesLeft(s.db, k))
    decreases |es|
  {
    if es != [] {
      if es[0] == ClientCall(OpUse(k)) {
        UseSpendsOne(s, k);
      } else {
        EventDoesNotRefill(s, es[0], k);
      }
      SuccessesWithinBudget(Next(s, es[0]), es[1..], k);
    }
  }

  /** A key with `n` uses left is used successfully at most `n` times, in every run of clients and collector. */
  lemma LimitIsNeverExceeded(s: System, es: seq<Event>, k: int, n: nat)
    requires IsRun(s, es) && UsesLeft(s.db, k) == Some(n) && NeverDrawnAgain(es, k)
    ensures Successes(s, es, k) <= n
  {
    SuccessesWithinBudget(s, es, k);
  }

  /** The calls that take a key away: they remove it, bind its alias to another one, or give it up as unfinished. */
  ghost predicate TakesAway(t: Tables, op: Op, k: int)
    requires k in t.entries
  {
    match op
    case OpStoreKey(key, kt, _, _) =>
      key.alias.Some? && Bound(t.entries[k], key.domain, key.nspace, key.alias.value, kt)
    case OpStoreCert(key, kt, _, _, _, _) =>
      key.alias.Some? && Bound(t.entries[k], key.domain, key.nspace, key.alias.value, kt)
    case OpCleanupLeftovers => t.entries[k].state == Existing
    case _ => Removes(op) && k in Removed(t, op)
  }

  ghost predicate InUse(t: Tables, k: int) {
    k in t.entries && t.entries[k].state != Unreferenced
  }

  /** No call but its uses takes the key away or draws its id again. */
  ghost predicate OnlyUsed(s: System, es: seq<Event>, k: int)
    requires IsRun(s, es)
    decreases |es|
  {
    es != [] ==>
      && (es[0].ClientCall? && es[0].op != OpUse(k) ==>
            !DrawsThisId(es[0].op, k) && (k in s.db.entries ==> !TakesAway(s.db, es[0].op, k)))
      && OnlyUsed(Next(s, es[0]), es[1..], k)
  }

  lemma CreationKeepsUses(t: Tables, op: Op, k: int)
    requires Enabled(t, op) && DrawsKeyId(op) && InUse(t, k) && !TakesAway(t, op, k)
    ensures InUse(After(t, op), k) && GetOr(After(t, op).params, k, []) == GetOr(t.params, k, [])
  {
    CreatingOpLeavesOthers(t, op, k);
  }

  lemma OthersKeepUses(t: Tables, op: Op, k: int)
    requires Enabled(t, op) && op != OpUse(k) && InUse(t, k) && !TakesAway(t, op, k)
    ensures InUse(After(t, op), k) && GetOr(After(t, op).params, k, []) == GetOr(t.params, k, [])
  {
    if Removes(op) {
      RemovesExactly(t, op);
    } else if DrawsKeyId(op) {
      CreationKeepsUses(t, op, k);
    } else {
      UpdatesKeepUses(t, op, k);
    }
  }

  lemma UpdatesKeepUses(t: Tables, op: Op, k: int)
    requires Enabled(t, op) && op != OpUse(k) && InUse(t, k) && !TakesAway(t, op, k)
    requires !Removes(op) && !DrawsKeyId(op)
    ensures InUse(After(t, op), k) && GetOr(After(t, op).params, k, []) == GetOr(t.params, k, [])
  {
    if op.OpAssign? && Run(t, op).Commit? {
      AssignUntouched(t, op.domain, op.nspace, op.kmUuid);
    }
  }

  lemma CollectionKeepsUses(t: Tables, g: Memory, picked: seq<int>, k: int)
    requires InUse(t, k)
    ensures var u := FetchDb(t, g, picked); InUse(u, k) && GetOr(u.params, k, []) == GetOr(t.params, k, [])
  {
  }

  lemma EventKeepsUses(s: System, e: Event, k: int)
    requires Possible(s, e) && e != ClientCall(OpUse(k)) && InUse(s.db, k)
    requires e.ClientCall? ==> !TakesAway(s.db, e.op, k)
    ensures var t := Next(s, e).db; InUse(t, k) && GetOr(t.params, k, []) == GetOr(s.db.params, k, [])
  {
    if e.ClientCall? {
      OthersKeepUses(s.db, e.op, k);
      assert Next(s, e).db == After(s.db, e.op);
    } else if e.Process? {
      CollectionKeepsUses(s.db, s.mem, e.picked, k);
    }
  }

  ghost function Attempts(es: seq<Event>, k: int): nat {
    if es == [] then 0 else (if es[0] == ClientCall(OpUse(k)) then 1 else 0) + Attempts(es[1..], k)
  }

  function Min(a: nat, b: nat): nat {
    if a <= b then a else b
  }

  /** As long as a key has uses left it is in use. */
  ghost predicate UsesAreReal(t: Tables, k: int) {
    InUse(t, k) || GetOr(t.params, k, []) == []
  }

  lemma UseKeepsReal(s: System, k: int)
    requires Possible(s, ClientCall(OpUse(k))) && UsesAreReal(s.db, k)
    ensures UsesAreReal(Next(s, ClientCall(OpUse(k))).db, k)
  {
  }

  lemma {:induction false} BudgetIsSpent(s: System, es: seq<Event>, k: int)
    requires IsRun(s, es) && OnlyUsed(s, es, k) && Limited(s.db, k) && UsesAreReal(s.db, k)
    ensures Successes(s, es, k) == Min(Attempts(es, k), Budget(UsesLeft(s.db, k)))
    decreases |es|
  {
    if es != [] {
      if es[0] == ClientCall(OpUse(k)) {
        UseSpendsOne(s, k);
        UseKeepsReal(s, k);
      } else if InUse(s.db, k) {
        EventKeepsUses(s, es[0], k);
      } else {
        EventDoesNotRefill(s, es[0], k);
      }
      BudgetIsSpent(Next(s, es[0]), es[1..], k);
    }
  }

  /** A key with `n` uses left that is not taken away gives exactly `n` successes, then only failures. */
  lemma LimitIsReachedExactly(s: System, es: seq<Event>, k: int, n: nat)
    requires IsRun(s, es) && OnlyUsed(s, es, k) && InUse(s.db, k) && UsesLeft(s.db, k) == Some(n)
    ensures Successes(s, es, k) == Min(Attempts(es, k), n)
  {
    BudgetIsSpent(s, es, k);
  }

  // ---------------------------------------------------------------- where the assumptions are needed

  /** Exactly the calls that attach metadata to a certificate can leave metadata without a key blob behind. */
  lemma MetadataPlacementIff(t: Tables, k: int, part: SubComponent, blob: Bytes, meta: Option<BlobMeta>)
    requires Inv(t)
    ensures Inv(After(t, OpSetBlob(k, part, Some(blob), meta))) <==> Plain(OpSetBlob(k, part, Some(blob), meta))
  {
    var op := OpSetBlob(k, part, Some(blob), meta);
    if Plain(op) {
      OpKeepsInv(t, op);
    } else {
      var n := NextBlobId(t.blobs);
      var u := After(t, op);
      var tag :| tag in meta.value;
      assert tag in u.blobMeta[n];
      assert u.blobs[n].part != KeyBlob;
    }
  }

  /** Certificate metadata outlives its certificate and ends up on the next blob that gets the row id. */
  lemma StrayMetadataIsInherited(blob: Bytes, meta: BlobMeta)
    requires meta != map[]
    ensures var t := NO_TABLES;
            var t1 := After(t, OpSetBlob(5, Cert, Some(blob), Some(meta)));
            var t2 := After(t1, OpSetBlob(5, Cert, None, None));
            var t3 := After(t2, OpSetBlob(5, KeyBlob, Some(blob), None));
            && 1 in t3.blobs && t3.blobs[1].part == KeyBlob && 1 in t3.blobMeta && t3.blobMeta[1] == meta
  {
    var t := NO_TABLES;
    var t1 := After(t, OpSetBlob(5, Cert, Some(blob), Some(meta)));
    assert NextBlobId(t.blobs) == 1;
    assert t1.blobs == map[1 := BlobRow(Cert, 5, blob)];
    assert map[] + meta == meta;
    var t2 := After(t1, OpSetBlob(5, Cert, None, None));
    assert t2.blobs == map[];
    assert NextBlobId(t2.blobs) == 1;
  }

  /** Without fresh ids, a certificate entry can adopt a blob that the collector is about to delete. */
  lemma ReusedIdLosesBlob(blob: Bytes, key: KeyDescriptor)
    requires Storable(key)
    ensures var t := Tables(map[], map[1 := BlobRow(KeyBlob, 7, blob)], map[], map[], map[], map[]);
            var g := Memory([], [1]);
            var u := After(t, OpStoreCert(key, Client, blob, 0, 0, 7));
            && Safe(t, g)
            && IsLive(u, 7) && CurrentBlob(u, 7, KeyBlob) == Some(1)
            && CurrentBlob(Swept(u, AsSet(g.deleted)), 7, KeyBlob) == None
  {
    var t := Tables(map[], map[1 := BlobRow(KeyBlob, 7, blob)], map[], map[], map[], map[]);
    var g := Memory([], [1]);
    assert Remembered(g) == [1];
    assert GarbageKeyBlob(t, 1);
    var op := OpStoreCert(key, Client, blob, 0, 0, 7);
    var u := After(t, op);
    OpKeepsKeyBlobs(t, op);
    BareEntryAddsNoKeyBlob(t, op);
    assert u.entries[7].state == Live;
    assert Fills(u, 1, 7, KeyBlob) && Current(u, 1);
    CurrentBlobIs(u, 7, KeyBlob, 1);
    var v := Swept(u, AsSet(g.deleted));
    assert 1 in AsSet(g.deleted);
    forall c
      ensures !Fills(v, c, 7, KeyBlob)
    {
    }
  }

  /** The schema upgrade keeps a clean database clean exactly when there is no key for it to give up. */
  lemma UpgradeIsCleanIff(t: Tables)
    requires NoGarbage(t)
    ensures NoGarbage(UpgradeFrom0To1(t).db) <==> forall k :: !Doomed(t, k)
  {
    var u := UpgradeFrom0To1(t).db;
    if k :| Doomed(t, k) {
      assert k in UnreferencedIds(u);
    } else {
      assert u == t;
    }
  }

  /** It can add garbage without asking for collection. */
  lemma UpgradeAddsSilentGarbage()
    ensures var t := Tables(map[3 := EntryRow(Client, Some(APP), Some(0), None, Live, 0)], map[], map[],
                            map[3 := [KeyParam(MaxBootLevelLimit, IntValue(1), 0)]], map[], map[]);
            NoGarbage(t) && !UpgradeFrom0To1(t).needGc && !NoGarbage(UpgradeFrom0To1(t).db)
  {
    var p := KeyParam(MaxBootLevelLimit, IntValue(1), 0);
    var t := Tables(map[3 := EntryRow(Client, Some(APP), Some(0), None, Live, 0)], map[], map[], map[3 := [p]], map[],
                    map[]);
    assert p in t.params[3];
    assert Doomed(t, 3);
    assert UnreferencedIds(t) == {};
    UpgradeIsCleanIff(t);
  }
}
