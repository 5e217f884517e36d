/**
 The key garbage collector. It remembers superseded key blobs in one transaction, has
 them invalidated outside any transaction, and deletes them in a later one, while clients
 go on changing the database.
 */
module GarbageCollector {
  import opened KeystoreTypes
  import opened KeystoreTables
  import opened KeystoreTx
  import opened KeystoreInvariants

  datatype SupersededBlob = SupersededBlob(id: int, blob: Bytes, meta: BlobMeta)

  /** What the collector carries from one step to the next. */
  datatype Memory = Memory(superseded: seq<SupersededBlob>, deleted: seq<int>)

  const EMPTY_MEMORY := Memory([], [])
  const MAX_BLOBS := 20

  function Ids(bs: seq<SupersededBlob>): (ids: seq<int>)
    ensures |ids| == |bs| && forall i :: 0 <= i < |bs| ==> ids[i] == bs[i].id
  {
    if bs == [] then [] else [bs[0].id] + Ids(bs[1..])
  }

  function AsSet(s: seq<int>): set<int> {
    set x | x in s
  }

  function Remembered(g: Memory): seq<int> {
    Ids(g.superseded) + g.deleted
  }

  /** Everything the collector remembers is garbage, and is what the database still holds. */
  ghost predicate Safe(t: Tables, g: Memory) {
    && Distinct(Remembered(g))
    && (forall b :: b in Remembered(g) ==> GarbageKeyBlob(t, b))
    && (forall s :: s in g.superseded ==>
          s.id in t.blobs && s.blob == t.blobs[s.id].blob && s.meta == GetOr(t.blobMeta, s.id, map[]))
  }

  // ---------------------------------------------------------------- clients against the collector

  /** No key blob disappears or changes. */
  ghost predicate KeyBlobsKept(t: Tables, u: Tables) {
    forall b :: b in t.blobs && t.blobs[b].part == KeyBlob ==>
                  b in u.blobs && u.blobs[b] == t.blobs[b] && GetOr(u.blobMeta, b, map[]) == GetOr(t.blobMeta, b, map[])
  }

  /** New entries come with a key blob that is newer than every blob there was. */
  ghost predicate NewKeysHaveBlobs(t: Tables, u: Tables) {
    forall k :: k in u.entries && k !in t.entries ==>
                  exists c :: Fills(u, c, k, KeyBlob) && forall b :: b in t.blobs ==> b < c
  }

  lemma GarbagePersists(t: Tables, u: Tables, b: int)
    requires GarbageKeyBlob(t, b) && KeyBlobsKept(t, u)
    requires NewKeysHaveBlobs(t, u) || t.blobs[b].keyId in t.entries || t.blobs[b].keyId !in u.entries
    ensures GarbageKeyBlob(u, b)
  {
    if !Current(t, b) {
      var c :| c in t.blobs && SameSlot(t.blobs[b], t.blobs[c]) && c > b;
      assert SameSlot(u.blobs[b], u.blobs[c]);
    } else if t.blobs[b].keyId in u.entries {
      var c :| Fills(u, c, t.blobs[b].keyId, KeyBlob) && forall b :: b in t.blobs ==> b < c;
      assert SameSlot(u.blobs[b], u.blobs[c]);
    }
  }

  lemma InsertBlobKeeps(t: Tables, k: int, part: SubComponent, blob: Bytes, meta: Option<BlobMeta>)
    ensures KeyBlobsKept(t, InsertBlob(t, k, part, blob, meta))
    ensures Fills(InsertBlob(t, k, part, blob, meta), NextBlobId(t.blobs), k, part)
    ensures forall b :: b in t.blobs ==> b < NextBlobId(t.blobs)
  {
  }

  lemma KeptTransitively(t: Tables, u: Tables, v: Tables)
    requires KeyBlobsKept(t, u) && KeyBlobsKept(u, v)
    ensures KeyBlobsKept(t, v)
  {
  }

  lemma InsertBlobsKeeps(t: Tables, id: int, k: NewKey)
    ensures KeyBlobsKept(t, InsertBlobs(t, id, k))
    ensures exists c :: Fills(InsertBlobs(t, id, k), c, id, KeyBlob) && forall b :: b in t.blobs ==> b < c
  {
    var c := NextBlobId(t.blobs);
    var t1 := InsertBlob(t, id, KeyBlob, k.blob, Some(k.blobMeta));
    InsertBlobKeeps(t, id, KeyBlob, k.blob, Some(k.blobMeta));
    var t2 := InsertIfAny(t1, id, Cert, k.cert);
    if k.cert.Some? {
      InsertBlobKeeps(t1, id, Cert, k.cert.value, None);
    }
    KeptTransitively(t, t1, t2);
    InsertChainKeeps(t, t2, id, k, c);
  }

  lemma InsertChainKeeps(t: Tables, t2: Tables, id: int, k: NewKey, c: int)
    requires KeyBlobsKept(t, t2) && Fills(t2, c, id, KeyBlob)
    ensures KeyBlobsKept(t, InsertIfAny(t2, id, CertChain, k.certChain))
    ensures Fills(InsertIfAny(t2, id, CertChain, k.certChain), c, id, KeyBlob)
  {
    if k.certChain.Some? {
      InsertBlobKeeps(t2, id, CertChain, k.certChain.value, None);
    }
  }

  lemma StoreNewKeyKeeps(t: Tables, u: Tables, key: KeyDescriptor, keyType: KeyType, k: NewKey, id: int)
    requires key.alias.Some? && Stored(t, u, key, keyType, k, id)
    ensures KeyBlobsKept(t, u) && NewKeysHaveBlobs(t, u)
  {
    InsertBlobsKeeps(t, id, k);
    var c :| Fills(InsertBlobs(t, id, k), c, id, KeyBlob) && forall b :: b in t.blobs ==> b < c;
    assert Fills(u, c, id, KeyBlob);
  }

  /** Client calls other than those that make an entry without a key blob. */
  predicate MakesBareEntry(op: Op) {
    op.OpCreate? || op.OpStoreCert?
  }

  lemma OpKeepsKeyBlobs(t: Tables, op: Op)
    requires Enabled(t, op)
    ensures KeyBlobsKept(t, After(t, op))
    ensures !MakesBareEntry(op) ==> NewKeysHaveBlobs(t, After(t, op))
    ensures MakesBareEntry(op) && Run(t, op).Commit? ==> After(t, op).entries.Keys == t.entries.Keys + {op.id}
  {
    if DrawsKeyId(op) {
      CreatingOpKeepsKeyBlobs(t, op);
    } else if Removes(op) {
      RemovesExactly(t, op);
    } else {
      OtherOpKeepsKeyBlobs(t, op);
    }
  }

  lemma CreatingOpKeepsKeyBlobs(t: Tables, op: Op)
    requires Enabled(t, op) && DrawsKeyId(op)
    ensures KeyBlobsKept(t, After(t, op))
    ensures !MakesBareEntry(op) ==> NewKeysHaveBlobs(t, After(t, op))
    ensures MakesBareEntry(op) && Run(t, op).Commit? ==> After(t, op).entries.Keys == t.entries.Keys + {op.id}
  {
    if Run(t, op).Commit? {
      match op
      case OpCreate(d, n, kt, u, id) =>
      case OpStoreKey(key, kt, k, id) => 
        StoreNewKeyShape(t, key, kt, k, id);
        StoreNewKeyKeeps(t, After(t, op), key, kt, k, id);
      case OpStoreCert(key, kt, c, u, now, id) => StoreNewCertificateKeeps(t, key, kt, c, u, now, id);
      case OpStoreSuper(u, a, b, bm, km, id) => StoreSuperKeyKeeps(t, u, a, b, bm, km, id);
      case OpGetOrCreate(d, n, a, u, c, id) => GetOrCreateKeeps(t, d, n, a, u, c, id);
      case OpCreateAttestation(m, r, pk, u, id) => CreateAttestationKeeps(t, m, r, pk, u, id);
    }
  }

  lemma StoreSuperKeyKeeps(t: Tables, user: int, alias: string, blob: Bytes, blobMeta: BlobMeta, meta: KeyMeta, id: int)
    requires Drawable(t.entries.Keys, id)
    ensures KeyBlobsKept(t, StoreSuperKey(t, user, alias, blob, blobMeta, meta, id).db)
    ensures NewKeysHaveBlobs(t, StoreSuperKey(t, user, alias, blob, blobMeta, meta, id).db)
  {
    NewKeyBlobKeeps(t, StoreSuperKey(t, user, alias, blob, blobMeta, meta, id).db, id, blob, Some(blobMeta));
  }

  lemma GetOrCreateKeeps(t: Tables, domain: Domain, nspace: int, alias: string, kmUuid: int,
                         created: Result<(Bytes, BlobMeta)>, id: int)
    requires Drawable(t.entries.Keys, id) && GetOrCreateKeyWith(t, domain, nspace, alias, kmUuid, created, id).Commit?
    ensures KeyBlobsKept(t, GetOrCreateKeyWith(t, domain, nspace, alias, kmUuid, created, id).db)
    ensures NewKeysHaveBlobs(t, GetOrCreateKeyWith(t, domain, nspace, alias, kmUuid, created, id).db)
  {
    var u := GetOrCreateKeyWith(t, domain, nspace, alias, kmUuid, created, id).db;
    GetOrCreateShape(t, domain, nspace, alias, kmUuid, created, id);
    if u != t {
      NewKeyBlobKeeps(t, u, id, created.value.0, Some(created.value.1));
    }
  }

  lemma CreateAttestationKeeps(t: Tables, macedKey: Bytes, rawKey: Bytes, privateKey: Bytes, kmUuid: int, id: int)
    requires Drawable(t.entries.Keys, id)
    ensures KeyBlobsKept(t, CreateAttestationKey(t, macedKey, rawKey, privateKey, kmUuid, id).db)
    ensures NewKeysHaveBlobs(t, CreateAttestationKey(t, macedKey, rawKey, privateKey, kmUuid, id).db)
  {
    NewKeyBlobKeeps(t, CreateAttestationKey(t, macedKey, rawKey, privateKey, kmUuid, id).db, id, privateKey, None);
  }

  lemma StoreNewCertificateKeeps(t: Tables, key: KeyDescriptor, keyType: KeyType, cert: Bytes, kmUuid: int, now: int,
                                 id: int)
    requires Drawable(t.entries.Keys, id) && StoreNewCertificate(t, key, keyType, cert, kmUuid, now, id).Commit?
    ensures KeyBlobsKept(t, StoreNewCertificate(t, key, keyType, cert, kmUuid, now, id).db)
    ensures StoreNewCertificate(t, key, keyType, cert, kmUuid, now, id).db.entries.Keys == t.entries.Keys + {id}
  {
    InsertBlobKeeps(t, id, CertChain, cert, None);
  }

  lemma NewKeyBlobKeeps(t: Tables, u: Tables, id: int, blob: Bytes, meta: Option<BlobMeta>)
    requires u.entries.Keys == t.entries.Keys + {id}
    requires u.blobs == InsertBlob(t, id, KeyBlob, blob, meta).blobs
             && u.blobMeta == InsertBlob(t, id, KeyBlob, blob, meta).blobMeta
    ensures KeyBlobsKept(t, u) && NewKeysHaveBlobs(t, u)
  {
    InsertBlobKeeps(t, id, KeyBlob, blob, meta);
    assert Fills(u, NextBlobId(t.blobs), id, KeyBlob);
  }

  lemma OtherOpKeepsKeyBlobs(t: Tables, op: Op)
    requires Enabled(t, op) && !DrawsKeyId(op) && !Removes(op)
    ensures KeyBlobsKept(t, After(t, op))
    ensures After(t, op).entries.Keys <= t.entries.Keys
  {
    if Run(t, op).Commit? {
      match op
      case OpSetBlob(k, p, b, m) =>
        if b.Some? {
          InsertBlobKeeps(t, k, p, b.value, m);
        }
      case OpSetDeletedBlob(b, m) => InsertBlobKeeps(t, UNASSIGNED_KEY_ID, KeyBlob, b, Some(m));
      case OpStoreSigned(r, c, ch, e, u) => StoreSignedKeeps(t, r, c, ch, e, u);
      case _ => BlobsUntouched(t, op);
    }
  }

  lemma GrantOpUntouched(t: Tables, op: Op)
    requires Enabled(t, op) && (op.OpGrant? || op.OpUngrant?)
    ensures After(t, op) == t.(grants := After(t, op).grants)
  {
  }

  lemma AssignUntouched(t: Tables, domain: Domain, nspace: int, kmUuid: int)
    requires AssignAttestationKey(t, domain, nspace, kmUuid).Commit?
    ensures var r := AssignAttestationKey(t, domain, nspace, kmUuid);
            && r.out in t.entries && t.entries[r.out].keyType == Attestation && t.entries[r.out].state == Live
            && var row := t.entries[r.out].(domain := Some(domain), nspace := Some(nspace));
               r.db == t.(entries := t.entries[r.out := row])
  {
    assert MinOf(Unassigned(t, kmUuid)) in Unassigned(t, kmUuid);
  }

  lemma EntryOpKeepsBlobs(t: Tables, op: Op)
    requires Enabled(t, op) && (op.OpMigrate? || op.OpUse? || op.OpCleanupLeftovers?)
    ensures After(t, op).blobs == t.blobs && After(t, op).blobMeta == t.blobMeta
    ensures After(t, op).entries.Keys <= t.entries.Keys
  {
  }

  lemma BlobsUntouched(t: Tables, op: Op)
    requires Enabled(t, op)
    requires op.OpAssign? || op.OpMigrate? || op.OpUse? || op.OpCleanupLeftovers? || op.OpGrant? || op.OpUngrant?
    ensures After(t, op).blobs == t.blobs && After(t, op).blobMeta == t.blobMeta
    ensures After(t, op).entries.Keys <= t.entries.Keys
  {
    if op.OpGrant? || op.OpUngrant? {
      GrantOpUntouched(t, op);
    } else if op.OpAssign? {
      if Run(t, op).Commit? {
        AssignUntouched(t, op.domain, op.nspace, op.kmUuid);
      }
    } else {
      EntryOpKeepsBlobs(t, op);
    }
  }

  lemma StoreSignedKeeps(t: Tables, rawKey: Bytes, cert: Bytes, chain: Bytes, expiration: int, kmUuid: int)
    requires StoreSignedChain(t, rawKey, cert, chain, expiration, kmUuid).Commit?
    ensures KeyBlobsKept(t, StoreSignedChain(t, rawKey, cert, chain, expiration, kmUuid).db)
    ensures StoreSignedChain(t, rawKey, cert, chain, expiration, kmUuid).db.entries.Keys == t.entries.Keys
  {
    var k := StoreSignedChain(t, rawKey, cert, chain, expiration, kmUuid).out;
    assert k in AwaitingSignature(t, rawKey, kmUuid);
    InsertBlobKeeps(t, k, CertChain, chain, None);
    var t2 := InsertBlob(t, k, CertChain, chain, None);
    InsertBlobKeeps(t2, k, Cert, cert, None);
    KeptTransitively(t, t2, InsertBlob(t2, k, Cert, cert, None));
  }

  /** The drawn key id is not one that a leftover blob still names. */
  ghost predicate FreshId(t: Tables, op: Op) {
    MakesBareEntry(op) ==> forall b :: b in t.blobs ==> t.blobs[b].keyId != op.id
  }

  /** Two-phase safety: what the collector remembers stays garbage whatever clients commit meanwhile. */
  lemma OpKeepsSafe(t: Tables, g: Memory, op: Op)
    requires Safe(t, g) && Enabled(t, op) && FreshId(t, op)
    ensures Safe(After(t, op), g)
  {
    var u := After(t, op);
    OpKeepsKeyBlobs(t, op);
    forall b | b in Remembered(g)
      ensures GarbageKeyBlob(u, b)
    {
      GarbagePersists(t, u, b);
    }
    RememberedAreIds(g);
  }

  lemma RememberedAreIds(g: Memory)
    ensures forall s :: s in g.superseded ==> s.id in Remembered(g)
  {
    forall s | s in g.superseded
      ensures s.id in Remembered(g)
    {
      var i :| 0 <= i < |g.superseded| && g.superseded[i] == s;
      assert Remembered(g)[i] == s.id;
    }
  }

  /**
   An entry without a key blob endangers the collector exactly when it reuses the key id of a
   remembered blob that is the newest of its orphaned slot.
   */
  lemma BareEntryKeepsSafeIff(t: Tables, g: Memory, op: Op)
    requires Safe(t, g) && Enabled(t, op) && MakesBareEntry(op) && Run(t, op).Commit?
    ensures Safe(After(t, op), g) <==> !exists b :: b in Remembered(g) && t.blobs[b].keyId == op.id && Current(t, b)
  {
    OpKeepsKeyBlobs(t, op);
    BareEntryAddsNoKeyBlob(t, op);
    AdoptionIff(t, After(t, op), g, op.id);
  }

  lemma AdoptionIff(t: Tables, u: Tables, g: Memory, id: int)
    requires Safe(t, g) && id !in t.entries && u.entries.Keys == t.entries.Keys + {id}
    requires KeyBlobsKept(t, u) && KeyBlobsKept(u, t)
    ensures Safe(u, g) <==> !exists b :: b in Remembered(g) && t.blobs[b].keyId == id && Current(t, b)
  {
    if b :| b in Remembered(g) && t.blobs[b].keyId == id && Current(t, b) {
      assert Current(u, b);
      assert !GarbageKeyBlob(u, b);
    } else {
      forall b | b in Remembered(g)
        ensures GarbageKeyBlob(u, b)
      {
        if Current(t, b) {
          GarbagePersists(t, u, b);
        } else {
          var c :| c in t.blobs && SameSlot(t.blobs[b], t.blobs[c]) && c > b;
          assert SameSlot(u.blobs[b], u.blobs[c]);
        }
      }
      RememberedAreIds(g);
    }
  }

  lemma BareEntryAddsNoKeyBlob(t: Tables, op: Op)
    requires Enabled(t, op) && MakesBareEntry(op) && Run(t, op).Commit?
    ensures KeyBlobsKept(After(t, op), t)
  {
  }

  // ---------------------------------------------------------------- the collector against clients

  /** `u` has lost nothing but garbage blobs. */
  ghost predicate OnlyGarbageGone(t: Tables, u: Tables) {
    && (forall b :: b in u.blobs ==> b in t.blobs && u.blobs[b] == t.blobs[b])
    && (forall b :: b in t.blobs && b !in u.blobs ==> Garbage(t, b))
    && (forall b :: b in u.blobs ==> GetOr(u.blobMeta, b, map[]) == GetOr(t.blobMeta, b, map[]))
  }

  lemma GarbageIsNotLoaded(t: Tables, u: Tables, k: int, part: SubComponent)
    requires OnlyGarbageGone(t, u) && k in t.entries
    ensures CurrentBlob(u, k, part) == CurrentBlob(t, k, part)
  {
    var b := CurrentBlob(t, k, part);
    if b.Some? {
      assert !Garbage(t, b.value);
      assert Fills(u, b.value, k, part) && Current(u, b.value);
      CurrentBlobIs(u, k, part, b.value);
    } else {
      forall c
        ensures !Fills(u, c, k, part)
      {
        assert !Fills(t, c, k, part);
      }
    }
  }

  lemma LoadUnchanged(t: Tables, u: Tables, k: int, bits: LoadBits)
    requires OnlyGarbageGone(t, u) && k in t.entries
    ensures LoadBlobComponents(u, k, bits) == LoadBlobComponents(t, k, bits)
  {
    GarbageIsNotLoaded(t, u, k, KeyBlob);
    GarbageIsNotLoaded(t, u, k, Cert);
    GarbageIsNotLoaded(t, u, k, CertChain);
  }

  lemma PurgeTakesOnlyGarbage(t: Tables)
    ensures OnlyGarbageGone(t, PurgeCertificates(t))
  {
  }

  lemma SweepKeepsLoads(t: Tables, g: Memory, k: int, bits: LoadBits)
    requires Safe(t, g)
    requires k in t.entries && t.entries[k].state != Unreferenced
    ensures var u := Swept(t, AsSet(g.deleted));
            && k in u.entries && u.entries[k] == t.entries[k]
            && LoadKeyComponents(u, k, bits) == LoadKeyComponents(t, k, bits)
  {
    var t1 := DeleteBlobs(t, AsSet(g.deleted));
    forall b | b in t.blobs && b !in t1.blobs
      ensures Garbage(t, b)
    {
      assert b in Remembered(g);
    }
    LoadUnchanged(t, t1, k, bits);
    EntriesDoNotAffectBlobs(t1, DeleteEntries(t1, UnreferencedIds(t1)), k, bits);
  }

  lemma EntriesDoNotAffectBlobs(t: Tables, u: Tables, k: int, bits: LoadBits)
    requires t.blobs == u.blobs && t.blobMeta == u.blobMeta
    ensures LoadBlobComponents(u, k, bits) == LoadBlobComponents(t, k, bits)
  {
    SameBlobsSameCurrent(t, u, k, KeyBlob);
    SameBlobsSameCurrent(t, u, k, Cert);
    SameBlobsSameCurrent(t, u, k, CertChain);
  }

  lemma SameBlobsSameCurrent(t: Tables, u: Tables, k: int, part: SubComponent)
    requires t.blobs == u.blobs
    ensures CurrentBlob(u, k, part) == CurrentBlob(t, k, part)
  {
    var b := CurrentBlob(t, k, part);
    if b.Some? {
      assert Fills(u, b.value, k, part) && Current(u, b.value);
      CurrentBlobIs(u, k, part, b.value);
    } else {
      forall c
        ensures !Fills(u, c, k, part)
      {
        assert !Fills(t, c, k, part);
      }
    }
  }

  /** The collector's transaction never changes what is loaded for a key that is still referenced. */
  lemma CollectionKeepsLoads(t: Tables, g: Memory, picked: seq<int>, k: int, bits: LoadBits)
    requires Safe(t, g)
    requires k in t.entries && t.entries[k].state != Unreferenced
    ensures var u := HandleSuperseded(t, AsSet(g.deleted), picked).db;
            && k in u.entries && u.entries[k] == t.entries[k]
            && LoadKeyComponents(u, k, bits) == LoadKeyComponents(t, k, bits)
  {
    SweepKeepsLoads(t, g, k, bits);
    var u := Swept(t, AsSet(g.deleted));
    PurgeTakesOnlyGarbage(u);
    LoadUnchanged(u, PurgeCertificates(u), k, bits);
  }
}
