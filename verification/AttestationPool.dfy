/** The pool of remotely provisioned attestation keys. */
module AttestationPool {
  import opened KeystoreTypes
  import opened KeystoreTables
  import opened KeystoreTx
  import opened KeystoreInvariants
  import opened GarbageCollector

  ghost predicate ExactlyOne(t: Tables, k: int, part: SubComponent) {
    exists b :: Fills(t, b, k, part) && forall c :: Fills(t, c, k, part) ==> c == b
  }

  ghost predicate NoneOf(t: Tables, k: int, part: SubComponent) {
    forall c :: !Fills(t, c, k, part)
  }

  /** A pool key starts with its key blob only; signing adds one certificate and one chain. */
  ghost predicate Complete(t: Tables, k: int)
    requires k in t.entries
  {
    && ExactlyOne(t, k, KeyBlob)
    && if t.entries[k].alias.Some?
       then ExactlyOne(t, k, Cert) && ExactlyOne(t, k, CertChain)
       else NoneOf(t, k, Cert) && NoneOf(t, k, CertChain)
  }

  ghost predicate WellFormedKey(t: Tables, k: int)
    requires k in t.entries
  {
    && t.entries[k].state == Live
    && (t.entries[k].domain.Some? <==> t.entries[k].nspace.Some?)
    && (t.entries[k].domain.Some? ==> t.entries[k].alias.Some?)
    && Complete(t, k)
  }

  /** At most one pool key serves each namespace and KeyMint instance. */
  ghost predicate OneKeyPerNamespace(t: Tables) {
    forall j, k | IsAttestation(t, j) && IsAttestation(t, k) && t.entries[j].domain.Some?
                  && t.entries[j].domain == t.entries[k].domain && t.entries[j].nspace == t.entries[k].nspace
                  && t.entries[j].kmUuid == t.entries[k].kmUuid :: j == k
  }

  ghost predicate PoolInv(t: Tables) {
    && (forall k :: IsAttestation(t, k) ==> WellFormedKey(t, k))
    && OneKeyPerNamespace(t)
  }

  /** Calls that leave pool keys to the pool operations; a new pool key must not inherit a leftover blob. */
  ghost predicate RespectsPool(t: Tables, op: Op) {
    match op
    case OpCreate(_, _, kt, _, _) => kt != Attestation
    case OpStoreKey(_, kt, _, _) => kt != Attestation
    case OpStoreCert(_, kt, _, _, _, _) => kt != Attestation
    case OpSetBlob(k, _, _, _) => !IsAttestation(t, k)
    case OpMigrate(k, _, _, _) => !IsAttestation(t, k)
    case OpCreateAttestation(_, _, _, _, id) => forall b :: b in t.blobs ==> t.blobs[b].keyId != id
    case _ => true
  }

  // ---------------------------------------------------------------- what leaves the pool alone

  /** The blobs of a key are the same in both states. */
  ghost predicate SameBlobs(t: Tables, u: Tables, k: int) {
    forall b, p :: Fills(t, b, k, p) <==> Fills(u, b, k, p)
  }

  /** Every pool key of `u` is a pool key of `t`, untouched. */
  ghost predicate PoolUntouched(t: Tables, u: Tables) {
    forall k :: IsAttestation(u, k) ==> IsAttestation(t, k) && u.entries[k] == t.entries[k] && SameBlobs(t, u, k)
  }

  lemma SameBlobsSameParts(t: Tables, u: Tables, k: int, part: SubComponent)
    requires SameBlobs(t, u, k)
    ensures ExactlyOne(t, k, part) ==> ExactlyOne(u, k, part)
    ensures NoneOf(t, k, part) ==> NoneOf(u, k, part)
  {
    if ExactlyOne(t, k, part) {
      var b :| Fills(t, b, k, part) && forall c :: Fills(t, c, k, part) ==> c == b;
      assert Fills(u, b, k, part);
    }
  }

  lemma UntouchedKey(t: Tables, u: Tables, k: int)
    requires k in t.entries && k in u.entries && SameBlobs(t, u, k)
    requires WellFormedKey(t, k)
    requires u.entries[k].alias == t.entries[k].alias && u.entries[k].state == Live
    requires u.entries[k].domain.Some? <==> u.entries[k].nspace.Some?
    requires u.entries[k].domain.Some? ==> u.entries[k].alias.Some?
    ensures WellFormedKey(u, k)
  {
    SameBlobsSameParts(t, u, k, KeyBlob);
    SameBlobsSameParts(t, u, k, Cert);
    SameBlobsSameParts(t, u, k, CertChain);
  }

  lemma UntouchedPoolInv(t: Tables, u: Tables)
    requires PoolInv(t) && PoolUntouched(t, u)
    ensures PoolInv(u)
  {
    forall k | IsAttestation(u, k)
      ensures WellFormedKey(u, k)
    {
      assert WellFormedKey(t, k);
      UntouchedKey(t, u, k);
    }
  }

  /** A blob for one key says nothing about the blobs of others. */
  lemma InsertElsewhere(t: Tables, j: int, part: SubComponent, blob: Bytes, meta: Option<BlobMeta>, k: int)
    requires j != k
    ensures SameBlobs(t, InsertBlob(t, j, part, blob, meta), k)
  {
  }

  lemma InsertIfAnyElsewhere(t: Tables, j: int, part: SubComponent, blob: Option<Bytes>, k: int)
    requires j != k
    ensures SameBlobs(t, InsertIfAny(t, j, part, blob), k)
  {
    if blob.Some? {
      InsertElsewhere(t, j, part, blob.value, None, k);
    }
  }

  lemma InsertBlobsElsewhere(t: Tables, j: int, n: NewKey, k: int)
    requires j != k
    ensures SameBlobs(t, InsertBlobs(t, j, n), k)
  {
    var t1 := InsertBlob(t, j, KeyBlob, n.blob, Some(n.blobMeta));
    InsertElsewhere(t, j, KeyBlob, n.blob, Some(n.blobMeta), k);
    InsertIfAnyElsewhere(t1, j, Cert, n.cert, k);
    InsertIfAnyElsewhere(InsertIfAny(t1, j, Cert, n.cert), j, CertChain, n.certChain, k);
  }

  lemma StoreNewKeyUntouched(t: Tables, u: Tables, key: KeyDescriptor, keyType: KeyType, n: NewKey, id: int)
    requires key.alias.Some? && Stored(t, u, key, keyType, n, id) && keyType != Attestation
    ensures PoolUntouched(t, u)
  {
    forall k | IsAttestation(u, k)
      ensures IsAttestation(t, k) && u.entries[k] == t.entries[k] && SameBlobs(t, u, k)
    {
      assert k != id;
      InsertBlobsElsewhere(t, id, n, k);
      assert SameBlobs(InsertBlobs(t, id, n), u, k);
    }
  }

  lemma StoreNewCertificateUntouched(t: Tables, key: KeyDescriptor, keyType: KeyType, cert: Bytes, kmUuid: int,
                                     now: int, id: int)
    requires Drawable(t.entries.Keys, id) && StoreNewCertificate(t, key, keyType, cert, kmUuid, now, id).Commit?
             && keyType != Attestation
    ensures PoolUntouched(t, StoreNewCertificate(t, key, keyType, cert, kmUuid, now, id).db)
  {
    var u := StoreNewCertificate(t, key, keyType, cert, kmUuid, now, id).db;
    forall k | IsAttestation(u, k)
      ensures IsAttestation(t, k) && u.entries[k] == t.entries[k] && SameBlobs(t, u, k)
    {
      InsertElsewhere(t, id, CertChain, cert, None, k);
      assert SameBlobs(InsertBlob(t, id, CertChain, cert, None), u, k);
    }
  }

  lemma SuperKeyUntouched(t: Tables, u: Tables, row: EntryRow, blob: Bytes, meta: Option<BlobMeta>, id: int)
    requires id !in t.entries && row.keyType == Super
    requires u.entries == t.entries[id := row] && u.blobs == InsertBlob(t, id, KeyBlob, blob, meta).blobs
    ensures PoolUntouched(t, u)
  {
    forall k | IsAttestation(u, k)
      ensures IsAttestation(t, k) && u.entries[k] == t.entries[k] && SameBlobs(t, u, k)
    {
      InsertElsewhere(t, id, KeyBlob, blob, meta, k);
      assert SameBlobs(InsertBlob(t, id, KeyBlob, blob, meta), u, k);
    }
  }

  lemma SetBlobUntouched(t: Tables, j: int, part: SubComponent, blob: Option<Bytes>, meta: Option<BlobMeta>)
    requires !IsAttestation(t, j) && SetBlob(t, j, part, blob, meta).Ok?
    ensures PoolUntouched(t, SetBlob(t, j, part, blob, meta).value)
  {
    forall k | IsAttestation(t, k)
      ensures SameBlobs(t, SetBlob(t, j, part, blob, meta).value, k)
    {
      if blob.Some? {
        InsertElsewhere(t, j, part, blob.value, meta, k);
      }
    }
  }

  lemma CreatingOpUntouched(t: Tables, op: Op)
    requires Enabled(t, op) && DrawsKeyId(op) && !op.OpCreateAttestation? && RespectsPool(t, op)
    ensures PoolUntouched(t, After(t, op))
  {
    if Run(t, op).Commit? {
      match op
      case OpCreate(d, n, kt, u, id) =>
      case OpStoreKey(key, kt, k, id) => 
        StoreNewKeyShape(t, key, kt, k, id);
        StoreNewKeyUntouched(t, After(t, op), key, kt, k, id);
      case OpStoreCert(key, kt, c, u, now, id) => StoreNewCertificateUntouched(t, key, kt, c, u, now, id);
      case OpStoreSuper(u, a, b, bm, km, id) =>
        SuperKeyUntouched(t, After(t, op), SuperRow(APP, u, a, KEYSTORE_UUID), b, Some(bm), id);
      case OpGetOrCreate(d, n, a, u, c, id) =>
        if c.Ok? && After(t, op) != t {
          SuperKeyUntouched(t, After(t, op), SuperRow(d, n, a, u), c.value.0, Some(c.value.1), id);
        }
    }
  }

  lemma OtherOpUntouched(t: Tables, op: Op)
    requires Inv(t) && PoolInv(t) && Enabled(t, op) && !DrawsKeyId(op) && !Removes(op) && RespectsPool(t, op)
    requires !op.OpStoreSigned? && !op.OpAssign?
    ensures PoolUntouched(t, After(t, op))
  {
    if Run(t, op).Commit? {
      match op
      case OpSetBlob(k, p, b, m) => SetBlobUntouched(t, k, p, b, m);
      case OpSetDeletedBlob(b, m) => SetBlobUntouched(t, UNASSIGNED_KEY_ID, KeyBlob, Some(b), Some(m));
      case _ => EntryOpUntouched(t, op);
    }
  }

  lemma EntryOpUntouched(t: Tables, op: Op)
    requires PoolInv(t) && Enabled(t, op) && RespectsPool(t, op)
    requires op.OpMigrate? || op.OpUse? || op.OpCleanupLeftovers? || op.OpGrant? || op.OpUngrant?
    ensures PoolUntouched(t, After(t, op))
  {
    var u := After(t, op);
    BlobsUntouched(t, op);
    forall k | IsAttestation(u, k)
      ensures IsAttestation(t, k) && u.entries[k] == t.entries[k] && SameBlobs(t, u, k)
    {
      assert IsAttestation(t, k) ==> WellFormedKey(t, k);
      assert u.entries[k].keyType == t.entries[k].keyType;
    }
  }

  // ---------------------------------------------------------------- pool operations

  lemma CreateAttestationPoolInv(t: Tables, macedKey: Bytes, rawKey: Bytes, privateKey: Bytes, kmUuid: int, id: int)
    requires PoolInv(t) && Drawable(t.entries.Keys, id)
    requires forall b :: b in t.blobs ==> t.blobs[b].keyId != id
    ensures PoolInv(CreateAttestationKey(t, macedKey, rawKey, privateKey, kmUuid, id).db)
  {
    var u := CreateAttestationKey(t, macedKey, rawKey, privateKey, kmUuid, id).db;
    forall k | IsAttestation(u, k)
      ensures WellFormedKey(u, k)
    {
      if k == id {
        NewPoolKey(t, u, id, privateKey);
      } else {
        assert WellFormedKey(t, k);
        InsertElsewhere(t, id, KeyBlob, privateKey, None, k);
        assert SameBlobs(InsertBlob(t, id, KeyBlob, privateKey, None), u, k);
        UntouchedKey(t, u, k);
      }
    }
  }

  lemma NewPoolKey(t: Tables, u: Tables, id: int, privateKey: Bytes)
    requires forall b :: b in t.blobs ==> t.blobs[b].keyId != id
    requires u.blobs == InsertBlob(t, id, KeyBlob, privateKey, None).blobs
    requires id in u.entries && u.entries[id].alias.None?
    ensures Complete(u, id)
  {
    var b := NextBlobId(t.blobs);
    assert Fills(u, b, id, KeyBlob);
    forall c, p | Fills(u, c, id, p)
      ensures c == b
    {
    }
  }

  lemma SignedKeyIsComplete(t: Tables, k: int, chain: Bytes, cert: Bytes, u: Tables)
    requires k in t.entries && k in u.entries && t.entries[k].alias.None? && u.entries[k].alias.Some?
    requires Complete(t, k)
    requires u.blobs == InsertBlob(InsertBlob(t, k, CertChain, chain, None), k, Cert, cert, None).blobs
    ensures Complete(u, k)
  {
    var c := NextBlobId(t.blobs);
    var d := NextBlobId(InsertBlob(t, k, CertChain, chain, None).blobs);
    assert Fills(u, c, k, CertChain) && Fills(u, d, k, Cert);
    forall b | Fills(u, b, k, CertChain)
      ensures b == c
    {
      assert b != c ==> Fills(t, b, k, CertChain);
    }
    forall b | Fills(u, b, k, Cert)
      ensures b == d
    {
      assert b != d ==> Fills(t, b, k, Cert);
    }
    var e :| Fills(t, e, k, KeyBlob) && forall b :: Fills(t, b, k, KeyBlob) ==> b == e;
    assert Fills(u, e, k, KeyBlob);
    forall b | Fills(u, b, k, KeyBlob)
      ensures b == e
    {
      assert Fills(t, b, k, KeyBlob);
    }
  }

  lemma StoreSignedPoolInv(t: Tables, rawKey: Bytes, cert: Bytes, chain: Bytes, expiration: int, kmUuid: int)
    requires PoolInv(t) && StoreSignedChain(t, rawKey, cert, chain, expiration, kmUuid).Commit?
    ensures PoolInv(StoreSignedChain(t, rawKey, cert, chain, expiration, kmUuid).db)
  {
    var k := TheOne(AwaitingSignature(t, rawKey, kmUuid)).value;
    AwaitingIsUnsigned(t, rawKey, kmUuid, k);
    var u := StoreSignedChain(t, rawKey, cert, chain, expiration, kmUuid).db;
    var t1 := InsertBlob(t, k, CertChain, chain, None);
    assert u.blobs == InsertBlob(t1, k, Cert, cert, None).blobs;
    assert WellFormedKey(t, k);
    SignedKeyIsComplete(t, k, chain, cert, u);
    forall j | IsAttestation(u, j) && j != k
      ensures WellFormedKey(u, j)
    {
      assert WellFormedKey(t, j);
      InsertElsewhere(t, k, CertChain, chain, None, j);
      InsertElsewhere(t1, k, Cert, cert, None, j);
      assert SameBlobs(t, u, j);
      UntouchedKey(t, u, j);
    }
  }

  lemma AwaitingIsUnsigned(t: Tables, rawKey: Bytes, kmUuid: int, k: int)
    requires k in AwaitingSignature(t, rawKey, kmUuid)
    ensures IsAttestation(t, k) && t.entries[k].alias.None? && t.entries[k].domain.None? && t.entries[k].nspace.None?
  {
    var row := t.entries[k].(state := Live);
    assert row.keyType == t.entries[k].keyType && row.alias == t.entries[k].alias;
    assert row.domain == t.entries[k].domain && row.nspace == t.entries[k].nspace;
  }

  lemma AssignPoolInv(t: Tables, domain: Domain, nspace: int, kmUuid: int)
    requires PoolInv(t) && AssignAttestationKey(t, domain, nspace, kmUuid).Commit?
    ensures PoolInv(AssignAttestationKey(t, domain, nspace, kmUuid).db)
  {
    var k := MinOf(Unassigned(t, kmUuid));
    assert k in Unassigned(t, kmUuid);
    var u := AssignAttestationKey(t, domain, nspace, kmUuid).db;
    forall j | IsAttestation(u, j)
      ensures WellFormedKey(u, j)
    {
      assert WellFormedKey(t, j);
      assert SameBlobs(t, u, j);
      UntouchedKey(t, u, j);
    }
    forall j | IsAttestation(u, j) && u.entries[j].domain == Some(domain) && u.entries[j].nspace == Some(nspace)
               && u.entries[j].kmUuid == kmUuid
      ensures j == k
    {
      assert WellFormedKey(t, j);
      assert j != k ==> j in Assigned(t, domain, nspace, kmUuid);
    }
  }

  /** Every call that respects the pool keeps it well formed. */
  lemma OpKeepsPool(t: Tables, op: Op)
    requires Inv(t) && PoolInv(t) && Enabled(t, op) && RespectsPool(t, op)
    ensures PoolInv(After(t, op))
  {
    if op.OpCreateAttestation? || op.OpStoreSigned? || op.OpAssign? {
      PoolOpKeepsPool(t, op);
    } else {
      LeavesPoolAlone(t, op);
      UntouchedPoolInv(t, After(t, op));
    }
  }

  lemma PoolOpKeepsPool(t: Tables, op: Op)
    requires PoolInv(t) && Enabled(t, op) && RespectsPool(t, op)
    requires op.OpCreateAttestation? || op.OpStoreSigned? || op.OpAssign?
    ensures PoolInv(After(t, op))
  {
    if Run(t, op).Commit? {
      match op
      case OpCreateAttestation(m, r, pk, u, id) => CreateAttestationPoolInv(t, m, r, pk, u, id);
      case OpStoreSigned(r, c, ch, e, u) => StoreSignedPoolInv(t, r, c, ch, e, u);
      case OpAssign(d, n, u) => AssignPoolInv(t, d, n, u);
    }
  }

  lemma LeavesPoolAlone(t: Tables, op: Op)
    requires Inv(t) && PoolInv(t) && Enabled(t, op) && RespectsPool(t, op)
    requires !op.OpCreateAttestation? && !op.OpStoreSigned? && !op.OpAssign?
    ensures PoolUntouched(t, After(t, op))
  {
    if DrawsKeyId(op) {
      CreatingOpUntouched(t, op);
    } else if Removes(op) {
      RemovesExactly(t, op);
    } else {
      OtherOpUntouched(t, op);
    }
  }

  /** Collection cannot hit a pool key: each has a single key blob. */
  lemma CollectionKeepsPool(t: Tables, g: Memory, picked: seq<int>)
    requires PoolInv(t) && Safe(t, g)
    ensures PoolInv(HandleSuperseded(t, AsSet(g.deleted), picked).db)
  {
    var u := Swept(t, AsSet(g.deleted));
    forall k | IsAttestation(u, k)
      ensures IsAttestation(t, k) && u.entries[k] == t.entries[k] && SameBlobs(t, u, k)
    {
      forall b, p | Fills(t, b, k, p)
        ensures Fills(u, b, k, p)
      {
        PoolBlobIsNotGarbage(t, k, b, p);
        assert b in g.deleted ==> b in Remembered(g);
      }
    }
    UntouchedPoolInv(t, u);
    var v := PurgeCertificates(u);
    forall k | IsAttestation(v, k)
      ensures SameBlobs(u, v, k)
    {
      forall b, p | Fills(u, b, k, p)
        ensures Fills(v, b, k, p)
      {
        PoolBlobIsNotGarbage(u, k, b, p);
      }
    }
    UntouchedPoolInv(u, v);
  }

  lemma PoolBlobIsNotGarbage(t: Tables, k: int, b: int, part: SubComponent)
    requires PoolInv(t) && IsAttestation(t, k) && Fills(t, b, k, part)
    ensures !Garbage(t, b)
  {
    assert WellFormedKey(t, k);
    SoleBlobIsCurrent(t, k, b, part);
  }

  lemma SoleBlobIsCurrent(t: Tables, k: int, b: int, part: SubComponent)
    requires ExactlyOne(t, k, part) || NoneOf(t, k, part)
    requires Fills(t, b, k, part)
    ensures Current(t, b)
  {
    forall c | c in t.blobs && SameSlot(t.blobs[b], t.blobs[c])
      ensures c <= b
    {
      assert Fills(t, c, k, part);
    }
  }

  // ---------------------------------------------------------------- retrieval

  datatype CertificateChain = CertificateChain(privateKey: Bytes, batchCert: Bytes, certChain: Bytes)

  ghost function RowsFor(t: Tables, domain: Domain, nspace: int, kmUuid: int): set<int> {
    set b | b in t.blobs && t.blobs[b].keyId in Assigned(t, domain, nspace, kmUuid)
  }

  predicate PartAt(rows: seq<BlobRow>, i: int, part: SubComponent) {
    0 <= i < |rows| && rows[i].part == part
  }

  /** Of the first `n` rows, row `i` is the last one with the part. */
  ghost predicate LastAt(rows: seq<BlobRow>, n: nat, i: int, part: SubComponent)
    requires n <= |rows|
  {
    0 <= i < n && rows[i].part == part && forall m :: i < m < n ==> rows[m].part != part
  }

  /** Puts the rows of one pool key together; each row fills in its own part. */
  method AssembleChain(rows: seq<BlobRow>) returns (r: Result<Option<CertificateChain>>)
    ensures rows == [] ==> r == Ok(None)
    ensures rows != [] && |rows| != 3 ==> r == Err(SystemError)
    ensures |rows| == 3 ==> r.Ok? && r.value.Some?
    ensures |rows| == 3 ==>
              forall i, j, k :: PartAt(rows, i, KeyBlob) && PartAt(rows, j, Cert) && PartAt(rows, k, CertChain) ==>
                                  r == Ok(Some(CertificateChain(rows[i].blob, rows[j].blob, rows[k].blob)))
  {
    if |rows| == 0 {
      return Ok(None);
    } else if |rows| != 3 {
      return Err(SystemError);
    }
    var key, chain, cert: Bytes := [], [], [];
    var n := 0;
    while n < |rows|
      invariant 0 <= n <= |rows| == 3
      invariant forall i :: LastAt(rows, n, i, KeyBlob) ==> key == rows[i].blob
      invariant forall i :: LastAt(rows, n, i, Cert) ==> cert == rows[i].blob
      invariant forall i :: LastAt(rows, n, i, CertChain) ==> chain == rows[i].blob
    {
      match rows[n].part {
        case KeyBlob => key := rows[n].blob;
        case CertChain => chain := rows[n].blob;
        case Cert => cert := rows[n].blob;
      }
      n := n + 1;
    }
    forall i, j, k | PartAt(rows, i, KeyBlob) && PartAt(rows, j, Cert) && PartAt(rows, k, CertChain)
      ensures CertificateChain(key, cert, chain) == CertificateChain(rows[i].blob, rows[j].blob, rows[k].blob)
    {
      OneOfEach(rows, i, j, k);
    }
    r := Ok(Some(CertificateChain(key, cert, chain)));
  }

  lemma OneOfEach(rows: seq<BlobRow>, i: int, j: int, k: int)
    requires |rows| == 3 && PartAt(rows, i, KeyBlob) && PartAt(rows, j, Cert) && PartAt(rows, k, CertChain)
    ensures LastAt(rows, 3, i, KeyBlob) && LastAt(rows, 3, j, Cert) && LastAt(rows, 3, k, CertChain)
  {
  }

  ghost predicate FilledBy(t: Tables, k: int, a: int, b: int, c: int) {
    Fills(t, a, k, KeyBlob) && Fills(t, b, k, Cert) && Fills(t, c, k, CertChain)
  }

  /**
   Retrieval finds no rows when nothing is assigned, and otherwise exactly one key blob, one
   certificate and one chain of the same key; the row count check never fires.
   */
  lemma RetrievalIsComplete(t: Tables, domain: Domain, nspace: int, kmUuid: int)
    requires PoolInv(t)
    ensures var rows := RowsFor(t, domain, nspace, kmUuid);
            || (Assigned(t, domain, nspace, kmUuid) == {} && rows == {})
            || exists k, a, b, c :: Assigned(t, domain, nspace, kmUuid) == {k} && FilledBy(t, k, a, b, c)
                                    && rows == {a, b, c} && |rows| == 3
  {
    var ks := Assigned(t, domain, nspace, kmUuid);
    var rows := RowsFor(t, domain, nspace, kmUuid);
    if ks != {} {
      HasMember(ks);
      var k :| k in ks;
      assert ks == {k};
      assert WellFormedKey(t, k);
      var a :| Fills(t, a, k, KeyBlob) && forall x :: Fills(t, x, k, KeyBlob) ==> x == a;
      var b :| Fills(t, b, k, Cert) && forall x :: Fills(t, x, k, Cert) ==> x == b;
      var c :| Fills(t, c, k, CertChain) && forall x :: Fills(t, x, k, CertChain) ==> x == c;
      forall x | x in rows
        ensures x in {a, b, c}
      {
        assert Fills(t, x, k, t.blobs[x].part);
      }
      assert rows == {a, b, c} && FilledBy(t, k, a, b, c);
    }
  }

  /** Once a pool key has been assigned to a namespace, retrieval for that namespace finds that key. */
  lemma AssignThenRetrieve(t: Tables, domain: Domain, nspace: int, kmUuid: int)
    requires PoolInv(t) && AssignAttestationKey(t, domain, nspace, kmUuid).Commit?
    ensures var r := AssignAttestationKey(t, domain, nspace, kmUuid);
            && r.out in Unassigned(t, kmUuid)
            && Assigned(r.db, domain, nspace, kmUuid) == {r.out}
            && (forall b :: b in RowsFor(r.db, domain, nspace, kmUuid) <==> b in t.blobs && t.blobs[b].keyId == r.out)
            && (forall d, n, m :: (d, n, m) != (domain, nspace, kmUuid) ==>
                  Assigned(r.db, d, n, m) == Assigned(t, d, n, m))
  {
    var r := AssignAttestationKey(t, domain, nspace, kmUuid);
    AssignUntouched(t, domain, nspace, kmUuid);
    assert Assigned(t, domain, nspace, kmUuid) == {};
    forall k
      ensures k in Assigned(r.db, domain, nspace, kmUuid) <==> k == r.out
    {
      assert k !in Assigned(t, domain, nspace, kmUuid);
    }
    forall d, n, m | (d, n, m) != (domain, nspace, kmUuid)
      ensures Assigned(r.db, d, n, m) == Assigned(t, d, n, m)
    {
      forall k
        ensures k in Assigned(r.db, d, n, m) <==> k in Assigned(t, d, n, m)
      {
      }
    }
  }

  // ---------------------------------------------------------------- redrawn ids

  /** A new pool key keeps the pool well formed exactly if no blob at all, of whatever part, is left of its id. */
  lemma CreateKeepsPoolIff(t: Tables, macedKey: Bytes, rawKey: Bytes, privateKey: Bytes, kmUuid: int, id: int)
    requires PoolInv(t) && Drawable(t.entries.Keys, id)
    ensures PoolInv(CreateAttestationKey(t, macedKey, rawKey, privateKey, kmUuid, id).db) <==>
              forall b :: b in t.blobs ==> t.blobs[b].keyId != id
  {
    var u := CreateAttestationKey(t, macedKey, rawKey, privateKey, kmUuid, id).db;
    if b :| b in t.blobs && t.blobs[b].keyId == id {
      assert IsAttestation(u, id) && u.entries[id].alias.None?;
      assert Fills(u, b, id, t.blobs[b].part) && Fills(u, NextBlobId(t.blobs), id, KeyBlob);
      assert !Complete(u, id);
      assert !WellFormedKey(u, id);
    } else {
      CreateAttestationPoolInv(t, macedKey, rawKey, privateKey, kmUuid, id);
    }
  }

  lemma NextIs(blobs: map<int, BlobRow>, n: int)
    requires n in blobs && forall b :: b in blobs ==> b <= n
    ensures NextBlobId(blobs) == n + 1
  {
  }

  const LEFT_OF_7 := Tables(map[], map[1 := BlobRow(Cert, 7, [])], map[], map[], map[], map[])

  /** An entry is created, given a certificate and removed with its namespace. */
  ghost function LeftByCalls(): Tables {
    var t1 := After(NO_TABLES, OpCreate(APP, 5, Client, 0, 7));
    var t2 := After(t1, OpSetBlob(7, Cert, Some([]), None));
    After(t2, OpUnbindNamespace(APP, 5))
  }

  lemma LeftoverIsReached()
    ensures LEFT_OF_7 == LeftByCalls()
  {
    var t1 := CreateKeyEntry(NO_TABLES, APP, 5, Client, 0, 7).db;
    assert After(NO_TABLES, OpCreate(APP, 5, Client, 0, 7)) == t1;
    var t2 := InsertBlob(t1, 7, Cert, [], None);
    assert After(t1, OpSetBlob(7, Cert, Some([]), None)) == t2;
    assert t2.blobs == map[1 := BlobRow(Cert, 7, [])];
    assert InNamespace(t2, APP, 5) == {7};
    assert DeleteEntries(t2, {7}) == LEFT_OF_7;
  }

  /** A certificate left of the id makes four rows of the three that retrieval wants. */
  lemma RedrawnIdBreaksRetrieval(raw: Bytes, key: Bytes, cert: Bytes, chain: Bytes)
    returns (t1: Tables, t2: Tables, t3: Tables)
    ensures LEFT_OF_7 == LeftByCalls()
    ensures PoolInv(LEFT_OF_7) && t1 == CreateAttestationKey(LEFT_OF_7, [], raw, key, 0, 7).db
    ensures StoreSignedChain(t1, raw, cert, chain, 0, 0) == Commit(t2, false, 7)
    ensures AssignAttestationKey(t2, APP, 10, 0) == Commit(t3, false, 7)
    ensures RowsFor(t3, APP, 10, 0) == {1, 2, 3, 4} && |RowsFor(t3, APP, 10, 0)| == 4
  {
    LeftoverIsReached();
    t1 := CreatedOnLeftover(raw, key);
    t2 := SignedAfterRedraw(t1, raw, cert, chain);
    t3 := AssignedAfterSigning(t2);
  }

  /** The blobs 1 to `n`, all of key 7. */
  ghost predicate BlobsOf7(t: Tables, n: int) {
    forall b :: (b in t.blobs <==> 1 <= b <= n) && (b in t.blobs ==> t.blobs[b].keyId == 7)
  }

  lemma InsertFor7(t: Tables, n: int, part: SubComponent, blob: Bytes)
    requires BlobsOf7(t, n) && n >= 1
    ensures BlobsOf7(InsertBlob(t, 7, part, blob, None), n + 1)
  {
    NextIs(t.blobs, n);
  }

  lemma CreatedOnLeftover(raw: Bytes, key: Bytes) returns (t1: Tables)
    ensures PoolInv(LEFT_OF_7) && t1 == CreateAttestationKey(LEFT_OF_7, [], raw, key, 0, 7).db
    ensures t1.entries == map[7 := EntryRow(Attestation, None, None, None, Live, 0)] && BlobsOf7(t1, 2)
    ensures 7 in t1.keyMeta && AttestationRawPubKey in t1.keyMeta[7]
            && t1.keyMeta[7][AttestationRawPubKey] == BytesValue(raw)
  {
    t1 := CreateAttestationKey(LEFT_OF_7, [], raw, key, 0, 7).db;
    InsertFor7(LEFT_OF_7, 1, KeyBlob, key);
    NextIs(LEFT_OF_7.blobs, 1);
  }

  lemma SignedAfterRedraw(t1: Tables, raw: Bytes, cert: Bytes, chain: Bytes) returns (t2: Tables)
    requires t1.entries == map[7 := EntryRow(Attestation, None, None, None, Live, 0)] && BlobsOf7(t1, 2)
    requires 7 in t1.keyMeta && AttestationRawPubKey in t1.keyMeta[7]
             && t1.keyMeta[7][AttestationRawPubKey] == BytesValue(raw)
    ensures StoreSignedChain(t1, raw, cert, chain, 0, 0) == Commit(t2, false, 7)
    ensures t2.entries == map[7 := EntryRow(Attestation, None, None, Some("signed"), Live, 0)] && BlobsOf7(t2, 4)
  {
    assert AwaitingSignature(t1, raw, 0) == {7};
    t2 := StoreSignedChain(t1, raw, cert, chain, 0, 0).db;
    var u := InsertBlob(t1, 7, CertChain, chain, None);
    InsertFor7(t1, 2, CertChain, chain);
    InsertFor7(u, 3, Cert, cert);
    assert t2.blobs == InsertBlob(u, 7, Cert, cert, None).blobs;
  }

  lemma AssignedAfterSigning(t2: Tables) returns (t3: Tables)
    requires t2.entries == map[7 := EntryRow(Attestation, None, None, Some("signed"), Live, 0)] && BlobsOf7(t2, 4)
    ensures AssignAttestationKey(t2, APP, 10, 0) == Commit(t3, false, 7)
    ensures RowsFor(t3, APP, 10, 0) == {1, 2, 3, 4} && |RowsFor(t3, APP, 10, 0)| == 4
  {
    assert Unassigned(t2, 0) == {7} && Assigned(t2, APP, 10, 0) == {};
    t3 := AssignAttestationKey(t2, APP, 10, 0).db;
    assert Assigned(t3, APP, 10, 0) == {7};
    forall b
      ensures b in RowsFor(t3, APP, 10, 0) <==> b in {1, 2, 3, 4}
    {
      assert b in t3.blobs <==> 1 <= b <= 4;
    }
  }

  // ---------------------------------------------------------------- pool status

  function PoolKeys(t: Tables, kmUuid: int): set<int> {
    set k | k in t.entries && IsAttestation(t, k) && t.entries[k].kmUuid == kmUuid && t.entries[k].state == Live
  }

  function SignedKeys(t: Tables, kmUuid: int): set<int> {
    set k | k in PoolKeys(t, kmUuid) && t.entries[k].alias.Some?
  }

  predicate ExpiresBefore(t: Tables, k: int, date: int) {
    && k in t.keyMeta && AttestationExpirationDate in t.keyMeta[k]
    && t.keyMeta[k][AttestationExpirationDate].IntValue? && t.keyMeta[k][AttestationExpirationDate].i < date
  }

  datatype PoolStatus = PoolStatus(expiring: nat, unassigned: nat, attested: nat, total: nat)

  /** Counts the pool row by row. */
  method GetPoolStatus(t: Tables, date: int, kmUuid: int, rows: seq<int>) returns (s: PoolStatus)
    requires Distinct(rows) && AsSet(rows) == PoolKeys(t, kmUuid)
    ensures s.total == |PoolKeys(t, kmUuid)|
    ensures s.attested == |SignedKeys(t, kmUuid)|
    ensures s.unassigned == |Unassigned(t, kmUuid)|
    ensures s.expiring == |set k | k in SignedKeys(t, kmUuid) && ExpiresBefore(t, k, date)|
    ensures s.unassigned <= s.attested <= s.total && s.expiring <= s.attested
  {
    var expiring := set k | k in SignedKeys(t, kmUuid) && ExpiresBefore(t, k, date);
    var attested, unassigned := 0, 0;
    var i := 0;
    while i < |rows|
      invariant 0 <= i <= |rows|
      invariant attested == CountIn(rows[..i], SignedKeys(t, kmUuid))
      invariant unassigned == CountIn(rows[..i], Unassigned(t, kmUuid))
    {
      assert rows[..i + 1][..i] == rows[..i];
      assert rows[i] in AsSet(rows);
      var row := t.entries[rows[i]];
      if row.alias.Some? && row.domain.None? {
        attested, unassigned := attested + 1, unassigned + 1;
      } else if row.alias.Some? {
        attested := attested + 1;
      }
      i := i + 1;
    }
    assert rows[..i] == rows;
    CountsSubset(rows, SignedKeys(t, kmUuid));
    CountsSubset(rows, Unassigned(t, kmUuid));
    SubsetSizes(Unassigned(t, kmUuid), SignedKeys(t, kmUuid));
    SubsetSizes(SignedKeys(t, kmUuid), PoolKeys(t, kmUuid));
    SubsetSizes(expiring, SignedKeys(t, kmUuid));
    DistinctSize(rows);
    s := PoolStatus(|expiring|, unassigned, attested, |rows|);
  }

  /** How many of the rows are in a set. */
  ghost function CountIn(rows: seq<int>, s: set<int>): nat {
    if rows == [] then 0
    else CountIn(rows[..|rows| - 1], s) + if rows[|rows| - 1] in s then 1 else 0
  }

  lemma {:induction false} CountsSubset(rows: seq<int>, s: set<int>)
    requires Distinct(rows) && s <= AsSet(rows)
    ensures CountIn(rows, s) == |s|
  {
    if rows != [] {
      var n := |rows| - 1;
      var r := s - {rows[n]};
      assert r <= AsSet(rows[..n]);
      assert rows[n] !in rows[..n];
      CountsSubset(rows[..n], r);
      SameCount(rows[..n], s, r);
      assert rows[n] in s ==> s == r + {rows[n]};
    }
  }

  lemma {:induction false} SameCount(rows: seq<int>, s: set<int>, r: set<int>)
    requires forall i :: 0 <= i < |rows| ==> (rows[i] in s <==> rows[i] in r)
    ensures CountIn(rows, s) == CountIn(rows, r)
  {
    if rows != [] {
      SameCount(rows[..|rows| - 1], s, r);
    }
  }

  lemma SubsetSizes(a: set<int>, b: set<int>)
    requires a <= b
    ensures |a| <= |b|
  {
    assert b == a + (b - a);
  }

  lemma {:induction false} DistinctSize(s: seq<int>)
    requires Distinct(s)
    ensures |AsSet(s)| == |s|
  {
    if s != [] {
      DistinctSize(s[1..]);
      assert AsSet(s) == AsSet(s[1..]) + {s[0]};
    }
  }
}
