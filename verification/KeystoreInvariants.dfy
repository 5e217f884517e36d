/** What every transaction keeps, and therefore what holds in every reachable state. */
module KeystoreInvariants {
  import opened KeystoreTypes
  import opened KeystoreTables
  import opened KeystoreTx

  /** Parameters, metadata and grants belong to keys that exist. */
  ghost predicate RowsReferToKeys(t: Tables) {
    && t.params.Keys <= t.entries.Keys
    && t.keyMeta.Keys <= t.entries.Keys
    && (forall g :: g in t.grants ==> t.grants[g].keyId in t.entries)
  }

  ghost predicate OneGrantPerGrantee(t: Tables) {
    forall g, h | g in t.grants && h in t.grants && t.grants[g].keyId == t.grants[h].keyId
                  && t.grants[g].grantee == t.grants[h].grantee :: g == h
  }

  ghost predicate ClientAliasesUnique(t: Tables) {
    forall j, k, d, n, a | j in t.entries && k in t.entries && Bound(t.entries[j], d, n, a, Client)
                           && Bound(t.entries[k], d, n, a, Client) :: j == k
  }

  /** Blob metadata rows belong to key blobs that exist. */
  ghost predicate MetadataOnKeyBlobs(t: Tables) {
    forall b :: b in t.blobMeta && t.blobMeta[b] != map[] ==> b in t.blobs && t.blobs[b].part == KeyBlob
  }

  ghost predicate Integrity(t: Tables) {
    && RowsReferToKeys(t)
    && OneGrantPerGrantee(t)
    && ClientAliasesUnique(t)
    && UNASSIGNED_KEY_ID !in t.entries
  }

  ghost predicate Inv(t: Tables) {
    Integrity(t) && MetadataOnKeyBlobs(t)
  }

  /** Integrity is kept, and so is the placement of metadata if it was in order. */
  ghost predicate Keeps(t: Tables, u: Tables) {
    Integrity(u) && (MetadataOnKeyBlobs(t) ==> MetadataOnKeyBlobs(u))
  }

  /** A call that attaches no metadata to a certificate. */
  predicate Plain(op: Op) {
    op.OpSetBlob? && op.part != KeyBlob && op.content.Some? ==> op.meta.None? || op.meta.value == map[]
  }

  lemma EmptyTablesInv()
    ensures Inv(NO_TABLES)
  {
  }

  // ---------------------------------------------------------------- statement by statement

  lemma NewEntryInv(t: Tables, id: int, row: EntryRow)
    requires Integrity(t) && Drawable(t.entries.Keys, id)
    requires row.keyType == Client ==> row.alias.None?
    ensures Keeps(t, t.(entries := t.entries[id := row]))
  {
  }

  lemma InsertBlobInv(t: Tables, k: int, part: SubComponent, blob: Bytes, meta: Option<BlobMeta>)
    requires Integrity(t)
    ensures Integrity(InsertBlob(t, k, part, blob, meta))
    ensures part == KeyBlob || meta.None? || meta.value == map[] ==> Keeps(t, InsertBlob(t, k, part, blob, meta))
  {
    var b := NextBlobId(t.blobs);
    assert b !in t.blobs;
    if MetadataOnKeyBlobs(t) {
      assert GetOr(t.blobMeta, b, map[]) == map[];
    }
  }

  lemma DeleteEntriesInv(t: Tables, ks: set<int>)
    requires Integrity(t)
    ensures Keeps(t, DeleteEntries(t, ks))
  {
    var u := DeleteEntries(t, ks);
    forall j, k, d, n, a | j in u.entries && k in u.entries && Bound(u.entries[j], d, n, a, Client)
                           && Bound(u.entries[k], d, n, a, Client)
      ensures j == k
    {
      assert Bound(t.entries[j], d, n, a, Client) && Bound(t.entries[k], d, n, a, Client);
    }
  }

  lemma AddRowsInv(t: Tables, k: int, ps: seq<KeyParam>, meta: KeyMeta)
    requires Integrity(t) && k in t.entries
    ensures Keeps(t, AddKeyMeta(AddParams(t, k, ps), k, meta))
    ensures Keeps(t, AddKeyMeta(t, k, meta))
  {
  }

  lemma RebindInv(t: Tables, id: int, alias: string, domain: Domain, nspace: int, keyType: KeyType)
    requires Integrity(t)
    requires RebindAlias(t, id, alias, domain, nspace, keyType).Commit?
    ensures Keeps(t, RebindAlias(t, id, alias, domain, nspace, keyType).db)
  {
    var u := RebindAlias(t, id, alias, domain, nspace, keyType).db;
    assert u.entries.Keys == t.entries.Keys;
    forall j, k, d, n, a | j in u.entries && k in u.entries && Bound(u.entries[j], d, n, a, Client)
                           && Bound(u.entries[k], d, n, a, Client)
      ensures j == k
    {
      assert j != id ==> Bound(t.entries[j], d, n, a, Client);
      assert k != id ==> Bound(t.entries[k], d, n, a, Client);
    }
  }

  lemma InsertIfAnyInv(t: Tables, k: int, part: SubComponent, blob: Option<Bytes>)
    requires Integrity(t)
    ensures Keeps(t, InsertIfAny(t, k, part, blob))
    ensures InsertIfAny(t, k, part, blob).entries == t.entries
  {
    if blob.Some? {
      InsertBlobInv(t, k, part, blob.value, None);
    }
  }

  lemma PopulateInv(t: Tables, id: int, k: NewKey)
    requires Integrity(t) && id in t.entries
    ensures Keeps(t, Populate(t, id, k))
    ensures Populate(t, id, k).entries == t.entries
  {
    var t1 := InsertBlob(t, id, KeyBlob, k.blob, Some(k.blobMeta));
    InsertBlobInv(t, id, KeyBlob, k.blob, Some(k.blobMeta));
    TwoMoreInv(t1, id, k);
    AddRowsInv(InsertBlobs(t, id, k), id, k.params, k.metadata);
  }

  lemma TwoMoreInv(t: Tables, id: int, k: NewKey)
    requires Integrity(t)
    ensures Keeps(t, InsertIfAny(InsertIfAny(t, id, Cert, k.cert), id, CertChain, k.certChain))
    ensures InsertIfAny(InsertIfAny(t, id, Cert, k.cert), id, CertChain, k.certChain).entries == t.entries
  {
    InsertIfAnyInv(t, id, Cert, k.cert);
    InsertIfAnyInv(InsertIfAny(t, id, Cert, k.cert), id, CertChain, k.certChain);
  }

  /** `u` and `t` hold the same blobs. */
  predicate SameBlobTables(t: Tables, u: Tables) {
    u.blobs == t.blobs && u.blobMeta == t.blobMeta
  }

  predicate SameOtherTables(t: Tables, u: Tables) {
    u.entries == t.entries && u.params == t.params && u.keyMeta == t.keyMeta && u.grants == t.grants
  }

  lemma InsertIfAnyIgnoresEntries(t: Tables, u: Tables, id: int, part: SubComponent, blob: Option<Bytes>)
    requires SameBlobTables(t, u)
    ensures SameBlobTables(InsertIfAny(t, id, part, blob), InsertIfAny(u, id, part, blob))
    ensures SameOtherTables(u, InsertIfAny(u, id, part, blob))
  {
  }

  lemma InsertBlobsIgnoresEntries(t: Tables, u: Tables, id: int, k: NewKey)
    requires SameBlobTables(t, u)
    ensures SameBlobTables(InsertBlobs(t, id, k), InsertBlobs(u, id, k))
    ensures SameOtherTables(u, InsertBlobs(u, id, k))
  {
    var t1 := InsertBlob(t, id, KeyBlob, k.blob, Some(k.blobMeta));
    var u1 := InsertBlob(u, id, KeyBlob, k.blob, Some(k.blobMeta));
    TwoMoreIgnoreEntries(t1, u1, id, k);
  }

  lemma TwoMoreIgnoreEntries(t: Tables, u: Tables, id: int, k: NewKey)
    requires SameBlobTables(t, u)
    ensures SameBlobTables(InsertIfAny(InsertIfAny(t, id, Cert, k.cert), id, CertChain, k.certChain),
                           InsertIfAny(InsertIfAny(u, id, Cert, k.cert), id, CertChain, k.certChain))
    ensures SameOtherTables(u, InsertIfAny(InsertIfAny(u, id, Cert, k.cert), id, CertChain, k.certChain))
  {
    InsertIfAnyIgnoresEntries(t, u, id, Cert, k.cert);
    InsertIfAnyIgnoresEntries(InsertIfAny(t, id, Cert, k.cert), InsertIfAny(u, id, Cert, k.cert), id, CertChain,
                              k.certChain);
  }

  /** What storing a key comes to: its rows are added, and whoever had the alias loses it. */
  ghost predicate Stored(t: Tables, u: Tables, key: KeyDescriptor, keyType: KeyType, k: NewKey, id: int)
    requires key.alias.Some?
  {
    && SameBlobTables(InsertBlobs(t, id, k), u)
    && StoredEntry(t, u, key, keyType, k, id)
  }

  ghost predicate StoredEntry(t: Tables, u: Tables, key: KeyDescriptor, keyType: KeyType, k: NewKey, id: int)
    requires key.alias.Some?
  {
    && u.params == t.params[id := GetOr(t.params, id, []) + k.params]
    && u.keyMeta == MergeMeta(t.keyMeta, id, k.metadata)
    && u.grants == t.grants
    && u.entries.Keys == t.entries.Keys + {id}
    && u.entries[id] == EntryRow(keyType, Some(key.domain), Some(key.nspace), key.alias, Live, k.kmUuid)
    && (forall j :: j in t.entries ==>
          u.entries[j] == if Bound(t.entries[j], key.domain, key.nspace, key.alias.value, keyType)
                          then Unbound(t.entries[j]) else t.entries[j])
  }

  /** An entry can be given an alias if it is still being made, under the right name, and is not itself displaced. */
  lemma RebindShape(t: Tables, id: int, alias: string, domain: Domain, nspace: int, keyType: KeyType)
    ensures var r := RebindAlias(t, id, alias, domain, nspace, keyType);
            && (r.Commit? <==> Nameable(domain) && Rebindable(t, id, domain, nspace, keyType)
                               && !Bound(t.entries[id], domain, nspace, alias, keyType))
            && (r.Commit? ==>
                  && (r.needGc <==> Displaced(t, domain, nspace, alias, keyType) != {})
                  && r.db == t.(entries := r.db.entries)
                  && r.db.entries.Keys == t.entries.Keys
                  && r.db.entries[id] == t.entries[id].(alias := Some(alias), state := Live)
                  && (forall j :: j in t.entries && j != id ==>
                        r.db.entries[j] == if Bound(t.entries[j], domain, nspace, alias, keyType)
                                           then Unbound(t.entries[j]) else t.entries[j]))
            && (r.Abort? ==> r.error == SystemError)
  {
  }

  lemma StoreNewKeyShape(t: Tables, key: KeyDescriptor, keyType: KeyType, k: NewKey, id: int)
    requires Drawable(t.entries.Keys, id)
    ensures StoreNewKey(t, key, keyType, k, id).Commit? <==> Storable(key)
    ensures var r := StoreNewKey(t, key, keyType, k, id);
            r.Commit? ==> && Stored(t, r.db, key, keyType, k, id) && r.out == id
                          && (r.needGc <==> Displaced(t, key.domain, key.nspace, key.alias.value, keyType) != {})
  {
    if Storable(key) {
      var t1 := CreateKeyEntry(t, key.domain, key.nspace, keyType, k.kmUuid, id).db;
      InsertBlobsIgnoresEntries(t, t1, id, k);
      FilledShape(t, t1, InsertBlobs(t1, id, k), key, keyType, k, id);
    }
  }

  lemma DisplacedBefore(t: Tables, u: Tables, id: int, domain: Domain, nspace: int, alias: string, keyType: KeyType)
    requires id !in t.entries && u.entries.Keys == t.entries.Keys + {id} && u.entries[id].alias.None?
    requires forall k :: k in t.entries ==> u.entries[k] == t.entries[k]
    ensures Displaced(u, domain, nspace, alias, keyType) == Displaced(t, domain, nspace, alias, keyType)
  {
    forall k
      ensures k in Displaced(u, domain, nspace, alias, keyType) <==> k in Displaced(t, domain, nspace, alias, keyType)
    {
      if k == id {
        assert !Bound(u.entries[id], domain, nspace, alias, keyType);
      }
    }
  }

  lemma FilledShape(t: Tables, t1: Tables, t2: Tables, key: KeyDescriptor, keyType: KeyType, k: NewKey, id: int)
    requires id !in t.entries && Storable(key)
    requires t1 == t.(entries := t.entries[id := EntryRow(keyType, Some(key.domain), Some(key.nspace), None, Existing,
                                                          k.kmUuid)])
    requires SameOtherTables(t1, t2)
    ensures var r := RebindAlias(AddKeyMeta(AddParams(t2, id, k.params), id, k.metadata), id, key.alias.value,
                                 key.domain, key.nspace, keyType);
            && r.Commit? && StoredEntry(t, r.db, key, keyType, k, id) && SameBlobTables(t2, r.db)
            && (r.needGc <==> Displaced(t, key.domain, key.nspace, key.alias.value, keyType) != {})
  {
    var t3 := AddKeyMeta(AddParams(t2, id, k.params), id, k.metadata);
    assert t3.entries == t.entries[id := EntryRow(keyType, Some(key.domain), Some(key.nspace), None, Existing,
                                                  k.kmUuid)];
    DisplacedBefore(t, t3, id, key.domain, key.nspace, key.alias.value, keyType);
    RebindShape(t3, id, key.alias.value, key.domain, key.nspace, keyType);
    BoundShape(t, t3, RebindAlias(t3, id, key.alias.value, key.domain, key.nspace, keyType).db, key, keyType, k, id);
  }

  lemma BoundShape(t: Tables, t3: Tables, u: Tables, key: KeyDescriptor, keyType: KeyType, k: NewKey, id: int)
    requires id !in t.entries && key.alias.Some?
    requires t3.entries == t.entries[id := EntryRow(keyType, Some(key.domain), Some(key.nspace), None, Existing,
                                                    k.kmUuid)]
    requires t3.params == t.params[id := GetOr(t.params, id, []) + k.params]
    requires t3.keyMeta == MergeMeta(t.keyMeta, id, k.metadata) && t3.grants == t.grants
    requires u == t3.(entries := u.entries) && u.entries.Keys == t3.entries.Keys
    requires u.entries[id] == t3.entries[id].(alias := key.alias, state := Live)
    requires forall j :: j in t3.entries && j != id ==>
               u.entries[j] == if Bound(t3.entries[j], key.domain, key.nspace, key.alias.value, keyType)
                               then Unbound(t3.entries[j]) else t3.entries[j]
    ensures StoredEntry(t, u, key, keyType, k, id)
  {
  }

  lemma StoreNewKeyInv(t: Tables, key: KeyDescriptor, keyType: KeyType, k: NewKey, id: int)
    requires Integrity(t) && Drawable(t.entries.Keys, id) && StoreNewKey(t, key, keyType, k, id).Commit?
    ensures Keeps(t, StoreNewKey(t, key, keyType, k, id).db)
  {
    var row := EntryRow(keyType, Some(key.domain), Some(key.nspace), None, Existing, k.kmUuid);
    NewEntryInv(t, id, row);
    var t1 := t.(entries := t.entries[id := row]);
    PopulateInv(t1, id, k);
    RebindInv(Populate(t1, id, k), id, key.alias.value, key.domain, key.nspace, keyType);
  }

  lemma StoreNewCertificateInv(t: Tables, key: KeyDescriptor, keyType: KeyType, cert: Bytes, kmUuid: int, now: int,
                               id: int)
    requires Integrity(t) && Drawable(t.entries.Keys, id)
             && StoreNewCertificate(t, key, keyType, cert, kmUuid, now, id).Commit?
    ensures Keeps(t, StoreNewCertificate(t, key, keyType, cert, kmUuid, now, id).db)
  {
    var row := EntryRow(keyType, Some(key.domain), Some(key.nspace), None, Existing, kmUuid);
    NewEntryInv(t, id, row);
    var t1 := t.(entries := t.entries[id := row]);
    InsertBlobInv(t1, id, CertChain, cert, None);
    var t2 := InsertBlob(t1, id, CertChain, cert, None);
    AddRowsInv(t2, id, [], map[CreationDate := IntValue(now)]);
    RebindInv(AddKeyMeta(t2, id, map[CreationDate := IntValue(now)]), id, key.alias.value, key.domain, key.nspace,
              keyType);
  }

  lemma MigrateInv(t: Tables, id: int, destination: KeyDescriptor, caller: int, permitted: bool)
    requires Integrity(t) && MigrateKeyNamespace(t, id, destination, caller, permitted).Commit?
    ensures Keeps(t, MigrateKeyNamespace(t, id, destination, caller, permitted).db)
  {
    var u := MigrateKeyNamespace(t, id, destination, caller, permitted).db;
    forall j, k, d, n, a | j in u.entries && k in u.entries && Bound(u.entries[j], d, n, a, Client)
                           && Bound(u.entries[k], d, n, a, Client)
      ensures j == k
    {
      assert j != id ==> Bound(t.entries[j], d, n, a, Client);
      assert k != id ==> Bound(t.entries[k], d, n, a, Client);
    }
  }

  /** An update of entry rows that gives no client key an alias, domain or namespace it did not have. */
  ghost predicate NoNewNames(t: Tables, u: Tables) {
    && u.entries.Keys == t.entries.Keys
    && u == t.(entries := u.entries)
    && (forall k :: k in t.entries && u.entries[k].keyType == Client ==>
          t.entries[k].(state := Live) == u.entries[k].(state := Live))
  }

  lemma NoNewNamesInv(t: Tables, u: Tables)
    requires Integrity(t) && NoNewNames(t, u)
    ensures Keeps(t, u)
  {
    forall j, k, d, n, a | j in u.entries && k in u.entries && Bound(u.entries[j], d, n, a, Client)
                           && Bound(u.entries[k], d, n, a, Client)
      ensures j == k
    {
      assert t.entries[j].(state := Live) == u.entries[j].(state := Live);
      assert t.entries[k].(state := Live) == u.entries[k].(state := Live);
      assert Bound(t.entries[j], d, n, a, Client) && Bound(t.entries[k], d, n, a, Client);
    }
  }

  lemma SuperKeyInv(t: Tables, row: EntryRow, meta: KeyMeta, blob: Bytes, blobMeta: BlobMeta, id: int)
    requires Integrity(t) && Drawable(t.entries.Keys, id) && row.keyType == Super
    ensures Keeps(t,
                  InsertBlob(AddKeyMeta(t.(entries := t.entries[id := row]), id, meta), id, KeyBlob, blob,
                             Some(blobMeta)))
    ensures Keeps(t, InsertBlob(t.(entries := t.entries[id := row]), id, KeyBlob, blob, Some(blobMeta)))
  {
    NewEntryInv(t, id, row);
    var t1 := t.(entries := t.entries[id := row]);
    AddRowsInv(t1, id, [], meta);
    InsertBlobInv(t1, id, KeyBlob, blob, Some(blobMeta));
    InsertBlobInv(AddKeyMeta(t1, id, meta), id, KeyBlob, blob, Some(blobMeta));
  }

  lemma GrantInv(t: Tables, key: KeyDescriptor, caller: int, grantee: int, access: AccessVector, permitted: bool,
                 id: int)
    requires Integrity(t) && Drawable(t.grants.Keys, id)
             && GrantKey(t, key, caller, grantee, access, permitted, id).Commit?
    ensures Keeps(t, GrantKey(t, key, caller, grantee, access, permitted, id).db)
  {
    var a := LoadAccessTuple(t, key, Client, caller);
    AccessTupleIsLive(t, key, Client, caller);
    var k := a.value.keyId;
    var u := GrantKey(t, key, caller, grantee, access, permitted, id).db;
    if GrantsOf(t, k, grantee) == {} {
      assert forall g :: g in t.grants && t.grants[g].keyId == k && t.grants[g].grantee == grantee ==>
               g in GrantsOf(t, k, grantee);
    }
  }

  /** Access control only ever lets a caller reach a live key. */
  lemma AccessTupleIsLive(t: Tables, key: KeyDescriptor, keyType: KeyType, caller: int)
    requires LoadAccessTuple(t, key, keyType, caller).Ok?
    ensures IsLive(t, LoadAccessTuple(t, key, keyType, caller).value.keyId)
  {
    var id := LoadAccessTuple(t, key, keyType, caller).value.keyId;
    if key.domain == APP {
      assert id in LiveBound(t, APP, caller, key.alias.value, keyType);
    } else if key.domain == SELINUX {
      assert id in LiveBound(t, SELINUX, key.nspace, key.alias.value, keyType);
    }
  }

  lemma StoreSignedInv(t: Tables, rawKey: Bytes, cert: Bytes, chain: Bytes, expiration: int, kmUuid: int)
    requires Integrity(t) && StoreSignedChain(t, rawKey, cert, chain, expiration, kmUuid).Commit?
    ensures Keeps(t, StoreSignedChain(t, rawKey, cert, chain, expiration, kmUuid).db)
  {
    var k := TheOne(AwaitingSignature(t, rawKey, kmUuid)).value;
    assert k in AwaitingSignature(t, rawKey, kmUuid);
    assert t.entries[k].keyType == t.entries[k].(state := Live).keyType == Attestation;
    var t1 := t.(entries := t.entries[k := t.entries[k].(alias := Some("signed"))]);
    NoNewNamesInv(t, t1);
    var t2 := AddKeyMeta(t1, k, map[AttestationExpirationDate := IntValue(expiration)]);
    AddRowsInv(t1, k, [], map[AttestationExpirationDate := IntValue(expiration)]);
    InsertBlobInv(t2, k, CertChain, chain, None);
    InsertBlobInv(InsertBlob(t2, k, CertChain, chain, None), k, Cert, cert, None);
  }

  lemma AssignInv(t: Tables, domain: Domain, nspace: int, kmUuid: int)
    requires Integrity(t) && AssignAttestationKey(t, domain, nspace, kmUuid).Commit?
    ensures Keeps(t, AssignAttestationKey(t, domain, nspace, kmUuid).db)
  {
    var k := MinOf(Unassigned(t, kmUuid));
    assert k in Unassigned(t, kmUuid);
    NoNewNamesInv(t, AssignAttestationKey(t, domain, nspace, kmUuid).db);
  }

  lemma UseOnceInv(t: Tables, k: int)
    requires Integrity(t) && UseOnce(t, k).Commit?
    ensures Keeps(t, UseOnce(t, k).db)
  {
    var u := t.(params := t.params[k := CountDown(GetOr(t.params, k, []))]);
    assert k in t.params;
    assert Keeps(t, u);
    DeleteEntriesInv(u, {k});
  }

  // ---------------------------------------------------------------- every call

  /** Apart from a new entry and its blob nothing has changed for the other keys. */
  ghost predicate OnlyNewEntry(t: Tables, u: Tables, id: int) {
    && u.entries.Keys == t.entries.Keys + {id}
    && (forall k :: k in t.entries && k != id ==> u.entries[k] == t.entries[k])
    && u.params == t.params && u.grants == t.grants
    && (forall k :: k != id ==> GetOr(u.keyMeta, k, map[]) == GetOr(t.keyMeta, k, map[]))
  }

  lemma StoreSuperKeyShape(t: Tables, user: int, alias: string, blob: Bytes, blobMeta: BlobMeta, meta: KeyMeta, id: int)
    requires Drawable(t.entries.Keys, id)
    ensures var r := StoreSuperKey(t, user, alias, blob, blobMeta, meta, id);
            OnlyNewEntry(t, r.db, id) && SameBlobTables(InsertBlob(t, id, KeyBlob, blob, Some(blobMeta)), r.db)
  {
  }

  lemma NewSuperShape(t: Tables, row: EntryRow, blob: Bytes, meta: Option<BlobMeta>, id: int)
    requires id !in t.entries
    ensures var u := InsertBlob(t.(entries := t.entries[id := row]), id, KeyBlob, blob, meta);
            OnlyNewEntry(t, u, id) && SameBlobTables(InsertBlob(t, id, KeyBlob, blob, meta), u)
  {
  }

  lemma GetOrCreateShape(t: Tables, domain: Domain, nspace: int, alias: string, kmUuid: int,
                         created: Result<(Bytes, BlobMeta)>, id: int)
    requires Drawable(t.entries.Keys, id) && GetOrCreateKeyWith(t, domain, nspace, alias, kmUuid, created, id).Commit?
    ensures var u := GetOrCreateKeyWith(t, domain, nspace, alias, kmUuid, created, id).db;
            u != t ==>
              && created.Ok? && OnlyNewEntry(t, u, id)
              && SameBlobTables(InsertBlob(t, id, KeyBlob, created.value.0, Some(created.value.1)), u)
  {
    if created.Ok? {
      NewSuperShape(t, SuperRow(domain, nspace, alias, kmUuid), created.value.0, Some(created.value.1), id);
    }
  }

  lemma SuperOpKeepsInv(t: Tables, op: Op)
    requires Integrity(t) && Enabled(t, op) && (op.OpStoreSuper? || op.OpGetOrCreate?)
    ensures Keeps(t, After(t, op))
  {
    if op.OpStoreSuper? {
      SuperKeyInv(t, SuperRow(APP, op.user, op.alias, KEYSTORE_UUID), op.keyMeta, op.blob, op.blobMeta, op.id);
    } else if op.created.Ok? {
      SuperKeyInv(t, SuperRow(op.domain, op.nspace, op.alias, op.kmUuid), map[], op.created.value.0,
                  op.created.value.1, op.id);
    }
  }

  lemma CreatingOpKeepsInv(t: Tables, op: Op)
    requires Integrity(t) && Enabled(t, op) && DrawsKeyId(op)
    ensures Keeps(t, After(t, op))
  {
    if op.OpStoreSuper? || op.OpGetOrCreate? {
      SuperOpKeepsInv(t, op);
    } else if Run(t, op).Commit? {
      match op
      case OpCreate(d, n, kt, u, id) => NewEntryInv(t, id, EntryRow(kt, Some(d), Some(n), None, Existing, u));
      case OpStoreKey(key, kt, k, id) => StoreNewKeyInv(t, key, kt, k, id);
      case OpStoreCert(key, kt, c, u, now, id) => StoreNewCertificateInv(t, key, kt, c, u, now, id);
      case OpCreateAttestation(m, r, pk, u, id) => CreateAttestationInv(t, m, r, pk, u, id);
    }
  }

  predicate Removes(op: Op) {
    op.OpUnbind? || op.OpUnbindNamespace? || op.OpUnbindUser? || op.OpDeleteExpired? || op.OpDeleteAllAttestation?
  }

  /** The keys that a removing call takes out. */
  ghost function Removed(t: Tables, op: Op): set<int>
    requires Removes(op)
  {
    match op
    case OpUnbind(key, kt, c, p) =>
      var r := UnbindKey(t, key, kt, c, p);
      if r.Commit? then {r.out} else {}
    case OpUnbindNamespace(d, n) => if Nameable(d) then InNamespace(t, d, n) else {}
    case OpUnbindUser(u, keep) => KeysOfUser(t, u, keep)
    case OpDeleteExpired(now) => Expired(t, now)
    case OpDeleteAllAttestation => set k | k in t.entries && IsAttestation(t, k)
  }

  lemma RemovesExactly(t: Tables, op: Op)
    requires Enabled(t, op) && Removes(op)
    ensures After(t, op) == DeleteEntries(t, Removed(t, op))
    ensures Removed(t, op) <= t.entries.Keys
  {
    if op.OpUnbind? && Run(t, op).Commit? {
      AccessTupleIsLive(t, op.key, op.keyType, op.caller);
    }
    assert DeleteEntries(t, {}) == t;
  }

  /**
   Every call keeps referential integrity, unique grants and unique client aliases, and every call that attaches
   no metadata to a certificate also keeps metadata on key blobs.
   */
  lemma OpKeepsInv(t: Tables, op: Op)
    requires Integrity(t) && Enabled(t, op)
    ensures Integrity(After(t, op))
    ensures Plain(op) ==> Keeps(t, After(t, op))
  {
    if DrawsKeyId(op) {
      CreatingOpKeepsInv(t, op);
    } else if Removes(op) {
      RemovesExactly(t, op);
      DeleteEntriesInv(t, Removed(t, op));
    } else {
      OtherOpKeepsInv(t, op);
    }
  }

  lemma OtherOpKeepsInv(t: Tables, op: Op)
    requires Integrity(t) && Enabled(t, op) && !DrawsKeyId(op) && !Removes(op)
    ensures Integrity(After(t, op))
    ensures Plain(op) ==> Keeps(t, After(t, op))
  {
    if Run(t, op).Commit? {
      match op
      case OpSetBlob(k, p, b, m) =>
        if b.Some? {
          InsertBlobInv(t, k, p, b.value, m);
        }
      case OpSetDeletedBlob(b, m) => InsertBlobInv(t, UNASSIGNED_KEY_ID, KeyBlob, b, Some(m));
      case OpMigrate(k, d, c, p) => MigrateInv(t, k, d, c, p);
      case OpUse(k) => UseOnceInv(t, k);
      case OpCleanupLeftovers => NoNewNamesInv(t, After(t, op));
      case OpGrant(key, c, g, av, p, id) => GrantInv(t, key, c, g, av, p, id);
      case OpUngrant(key, c, g, p) =>
      case OpStoreSigned(r, c, ch, e, u) => StoreSignedInv(t, r, c, ch, e, u);
      case OpAssign(d, n, u) => AssignInv(t, d, n, u);
    }
  }

  lemma CreateAttestationInv(t: Tables, macedKey: Bytes, rawKey: Bytes, privateKey: Bytes, kmUuid: int, id: int)
    requires Integrity(t) && Drawable(t.entries.Keys, id)
    ensures Keeps(t, CreateAttestationKey(t, macedKey, rawKey, privateKey, kmUuid, id).db)
  {
    var row := EntryRow(Attestation, None, None, None, Live, kmUuid);
    NewEntryInv(t, id, row);
    var t1 := t.(entries := t.entries[id := row]);
    InsertBlobInv(t1, id, KeyBlob, privateKey, None);
    AddRowsInv(InsertBlob(t1, id, KeyBlob, privateKey, None), id, [],
               map[AttestationMacedPublicKey := BytesValue(macedKey), AttestationRawPubKey := BytesValue(rawKey)]);
  }

  lemma PurgeInv(t: Tables)
    requires Integrity(t)
    ensures Keeps(t, PurgeCertificates(t))
  {
  }

  /** The collector's transaction keeps the invariant whatever it deletes. */
  lemma HandleSupersededKeepsInv(t: Tables, done: set<int>, picked: seq<int>)
    requires Integrity(t)
    ensures Keeps(t, HandleSuperseded(t, done, picked).db)
  {
    var t1 := DeleteBlobs(t, done);
    assert Keeps(t, t1);
    DeleteEntriesInv(t1, UnreferencedIds(t1));
    PurgeInv(Swept(t, done));
  }
}
