/**
 The transactions of the key database. A transaction either commits new tables, together
 with a hint for the garbage collector, or aborts and leaves the tables alone.
 */
module KeystoreTx {
  import opened KeystoreTypes
  import opened KeystoreTables

  datatype Tx<+T> = Commit(db: Tables, needGc: bool, out: T) | Abort(error: Error)

  /** Random ids are drawn until one is neither reserved nor taken in the table it is for. */
  predicate Drawable(used: set<int>, id: int) {
    id != UNASSIGNED_KEY_ID && id !in used
  }

  predicate Nameable(d: Domain) {
    d == APP || d == SELINUX
  }

  // ---------------------------------------------------------------- client keys

  function CreateKeyEntry(t: Tables, domain: Domain, nspace: int, keyType: KeyType, kmUuid: int, id: int): Tx<int>
    requires Drawable(t.entries.Keys, id)
  {
    if !Nameable(domain) then Abort(SystemError)
    else
      var row := EntryRow(keyType, Some(domain), Some(nspace), None, Existing, kmUuid);
      Commit(t.(entries := t.entries[id := row]), false, id)
  }

  predicate Rebindable(t: Tables, id: int, domain: Domain, nspace: int, keyType: KeyType) {
    && id in t.entries
    && t.entries[id].domain == Some(domain)
    && t.entries[id].nspace == Some(nspace)
    && t.entries[id].state == Existing
    && t.entries[id].keyType == keyType
  }

  function RebindAlias(t: Tables, id: int, alias: string, domain: Domain, nspace: int, keyType: KeyType): Tx<()> {
    if !Nameable(domain) then Abort(SystemError)
    else
      var u := DisplaceAlias(t, domain, nspace, alias, keyType);
      if !Rebindable(u, id, domain, nspace, keyType) then Abort(SystemError)
      else
        Commit(u.(entries := u.entries[id := u.entries[id].(alias := Some(alias), state := Live)]),
               Displaced(t, domain, nspace, alias, keyType) != {}, ())
  }

  datatype NewKey = NewKey(
    params: seq<KeyParam>,
    blob: Bytes,
    blobMeta: BlobMeta,
    cert: Option<Bytes>,
    certChain: Option<Bytes>,
    metadata: KeyMeta,
    kmUuid: int)

  predicate Storable(key: KeyDescriptor) {
    key.alias.Some? && Nameable(key.domain) && key.blob.None?
  }

  /** The blobs, parameters and metadata of a new key, before its alias is bound. */
  ghost function Populate(t: Tables, id: int, k: NewKey): Tables {
    AddKeyMeta(AddParams(InsertBlobs(t, id, k), id, k.params), id, k.metadata)
  }

  ghost function InsertBlobs(t: Tables, id: int, k: NewKey): Tables {
    InsertIfAny(InsertIfAny(InsertBlob(t, id, KeyBlob, k.blob, Some(k.blobMeta)), id, Cert, k.cert), id, CertChain,
                k.certChain)
  }

  ghost function InsertIfAny(t: Tables, id: int, part: SubComponent, blob: Option<Bytes>): Tables {
    if blob.Some? then InsertBlob(t, id, part, blob.value, None) else t
  }

  ghost function StoreNewKey(t: Tables, key: KeyDescriptor, keyType: KeyType, k: NewKey, id: int): Tx<int>
    requires Drawable(t.entries.Keys, id)
  {
    if !Storable(key) then Abort(InvalidArgument)
    else
      var created := CreateKeyEntry(t, key.domain, key.nspace, keyType, k.kmUuid, id);
      var bound := RebindAlias(Populate(created.db, id, k), id, key.alias.value, key.domain, key.nspace, keyType);
      if bound.Abort? then Abort(bound.error) else Commit(bound.db, bound.needGc, id)
  }

  ghost function StoreNewCertificate(t: Tables, key: KeyDescriptor, keyType: KeyType, cert: Bytes, kmUuid: int,
                                     now: int, id: int): Tx<int>
    requires Drawable(t.entries.Keys, id)
  {
    if !Storable(key) then Abort(InvalidArgument)
    else
      var created := CreateKeyEntry(t, key.domain, key.nspace, keyType, kmUuid, id);
      var filled := AddKeyMeta(InsertBlob(created.db, id, CertChain, cert, None), id,
                               map[CreationDate := IntValue(now)]);
      var bound := RebindAlias(filled, id, key.alias.value, key.domain, key.nspace, keyType);
      if bound.Abort? then Abort(bound.error) else Commit(bound.db, bound.needGc, id)
  }

  ghost function SetBlobTx(t: Tables, k: int, part: SubComponent, blob: Option<Bytes>, meta: Option<BlobMeta>): Tx<()> {
    var r := SetBlob(t, k, part, blob, meta);
    if r.Err? then Abort(r.error) else Commit(r.value, true, ())
  }

  /** Key blobs of removed legacy keys are handed to the collector under the reserved key id. */
  ghost function SetDeletedBlob(t: Tables, blob: Bytes, meta: BlobMeta): Tx<()> {
    SetBlobTx(t, UNASSIGNED_KEY_ID, KeyBlob, Some(blob), Some(meta))
  }

  predicate Occupied(t: Tables, domain: Domain, nspace: int, alias: string) {
    exists k :: k in t.entries && t.entries[k].alias == Some(alias) && t.entries[k].domain == Some(domain)
                && t.entries[k].nspace == Some(nspace)
  }

  function MigrateKeyNamespace(t: Tables, id: int, destination: KeyDescriptor, caller: int, permitted: bool): Tx<()> {
    if !Nameable(destination.domain) then Abort(InvalidArgument)
    else if !permitted then Abort(PermissionDenied)
    else if destination.alias.None? then Abort(InvalidArgument)
    else
      var nspace := if destination.domain == APP then caller else destination.nspace;
      if Occupied(t, destination.domain, nspace, destination.alias.value) then Abort(InvalidArgument)
      else if id !in t.entries then Abort(SystemError)
      else
        var row := t.entries[id].(alias := destination.alias, domain := Some(destination.domain),
                                  nspace := Some(nspace));
        Commit(t.(entries := t.entries[id := row]), false, ())
  }

  // ---------------------------------------------------------------- usage counts

  function FirstLimit(ps: seq<KeyParam>): Option<Value> {
    if ps == [] then None
    else if ps[0].tag == UsageCountLimit then Some(ps[0].data)
    else FirstLimit(ps[1..])
  }

  function CountedDown(p: KeyParam): KeyParam {
    if p.tag == UsageCountLimit && p.data.IntValue? && p.data.i > 0 then p.(data := IntValue(p.data.i - 1)) else p
  }

  function CountDown(ps: seq<KeyParam>): (r: seq<KeyParam>)
    ensures |r| == |ps|
  {
    seq(|ps|, i requires 0 <= i < |ps| => CountedDown(ps[i]))
  }

  /** Uses a limited use key once; the last use removes the key. */
  function UseOnce(t: Tables, k: int): Tx<()> {
    var limit := FirstLimit(GetOr(t.params, k, []));
    if limit.None? then Abort(InvalidKeyBlob)
    else if !limit.value.IntValue? then Abort(SystemError)
    else
      var u := t.(params := t.params[k := CountDown(GetOr(t.params, k, []))]);
      if limit.value.i == 1 then Commit(DeleteEntries(u, {k}), k in t.entries, ())
      else if limit.value.i == 0 then Abort(InvalidKeyBlob)
      else Commit(u, false, ())
  }

  // ---------------------------------------------------------------- removal

  ghost function UnbindKey(t: Tables, key: KeyDescriptor, keyType: KeyType, caller: int, permitted: bool): Tx<int> {
    var a := LoadAccessTuple(t, key, keyType, caller);
    if a.Err? then Abort(a.error)
    else if !permitted then Abort(PermissionDenied)
    else Commit(DeleteEntries(t, {a.value.keyId}), a.value.keyId in t.entries, a.value.keyId)
  }

  function InNamespace(t: Tables, domain: Domain, nspace: int): set<int> {
    set k | k in t.entries && t.entries[k].domain == Some(domain) && t.entries[k].nspace == Some(nspace)
            && t.entries[k].keyType == Client
  }

  function UnbindKeysForNamespace(t: Tables, domain: Domain, nspace: int): Tx<()> {
    if !Nameable(domain) then Abort(InvalidArgument)
    else Commit(DeleteEntries(t, InNamespace(t, domain, nspace)), true, ())
  }

  /** SQL integer division truncates toward zero. */
  function SqlDiv(a: int, b: int): int
    requires b > 0
  {
    if a >= 0 then a / b else -((-a) / b)
  }

  predicate OfUser(row: EntryRow, user: int) {
    && row.state == Live
    && row.nspace.Some?
    && (|| (row.keyType == Client && row.domain == Some(APP) && SqlDiv(row.nspace.value, AID_USER_OFFSET) == user)
        || (row.keyType == Super && row.nspace.value == user && row.alias == Some(USER_SUPER_KEY_ALIAS)))
  }

  /** A key whose current key blob is not encrypted by another key. */
  ghost predicate NotSuperEncrypted(t: Tables, k: int) {
    var b := CurrentBlob(t, k, KeyBlob);
    b.Some? && EncryptedBy !in GetOr(t.blobMeta, b.value, map[])
  }

  ghost function KeysOfUser(t: Tables, user: int, keepNonSuperEncrypted: bool): set<int> {
    set k | k in t.entries && OfUser(t.entries[k], user) && !(keepNonSuperEncrypted && NotSuperEncrypted(t, k))
  }

  ghost function UnbindKeysForUser(t: Tables, user: int, keepNonSuperEncrypted: bool): Tx<()> {
    var ks := KeysOfUser(t, user, keepNonSuperEncrypted);
    Commit(DeleteEntries(t, ks), ks != {}, ())
  }

  /** At start-up, entries whose creation was interrupted are given up. */
  function CleanupLeftovers(t: Tables): Tx<()> {
    Commit(t.(entries := map k | k in t.entries ::
                if t.entries[k].state == Existing then t.entries[k].(state := Unreferenced) else t.entries[k]),
           true, ())
  }

  // ---------------------------------------------------------------- super keys

  function SuperRow(domain: Domain, nspace: int, alias: string, kmUuid: int): EntryRow {
    EntryRow(Super, Some(domain), Some(nspace), Some(alias), Live, kmUuid)
  }

  ghost function StoreSuperKey(t: Tables, user: int, alias: string, blob: Bytes, blobMeta: BlobMeta, meta: KeyMeta,
                               id: int): Tx<int>
    requires Drawable(t.entries.Keys, id)
  {
    var t1 := t.(entries := t.entries[id := SuperRow(APP, user, alias, KEYSTORE_UUID)]);
    Commit(InsertBlob(AddKeyMeta(t1, id, meta), id, KeyBlob, blob, Some(blobMeta)), false, id)
  }

  ghost function GetOrCreateKeyWith(t: Tables, domain: Domain, nspace: int, alias: string, kmUuid: int,
                                    created: Result<(Bytes, BlobMeta)>, id: int): Tx<int>
    requires Drawable(t.entries.Keys, id)
  {
    var found := LiveBound(t, domain, nspace, alias, Super);
    if |found| > 1 then Abort(SystemError)
    else if |found| == 1 then Commit(t, false, TheOne(found).value)
    else if created.Err? then Abort(created.error)
    else
      var t1 := t.(entries := t.entries[id := SuperRow(domain, nspace, alias, kmUuid)]);
      Commit(InsertBlob(t1, id, KeyBlob, created.value.0, Some(created.value.1)), false, id)
  }

  // ---------------------------------------------------------------- grants

  ghost function GrantKey(t: Tables, key: KeyDescriptor, caller: int, grantee: int, access: AccessVector,
                          permitted: bool, id: int): Tx<int>
    requires Drawable(t.grants.Keys, id)
  {
    var a := LoadAccessTuple(t, key, Client, caller);
    if a.Err? then Abort(a.error)
    else if !permitted then Abort(PermissionDenied)
    else
      var existing := GrantsOf(t, a.value.keyId, grantee);
      if existing != {} then
        var g := AnyOf(existing);
        Commit(t.(grants := t.grants[g := t.grants[g].(access := access)]), false, g)
      else
        Commit(t.(grants := t.grants[id := GrantRow(grantee, a.value.keyId, access)]), false, id)
  }

  ghost function UngrantKey(t: Tables, key: KeyDescriptor, caller: int, grantee: int, permitted: bool): Tx<()> {
    var a := LoadAccessTuple(t, key, Client, caller);
    if a.Err? then Abort(a.error)
    else if !permitted then Abort(PermissionDenied)
    else Commit(t.(grants := t.grants - GrantsOf(t, a.value.keyId, grantee)), false, ())
  }

  // ---------------------------------------------------------------- attestation keys

  predicate IsAttestation(t: Tables, k: int) {
    k in t.entries && t.entries[k].keyType == Attestation
  }

  ghost function CreateAttestationKey(t: Tables, macedKey: Bytes, rawKey: Bytes, privateKey: Bytes, kmUuid: int,
                                      id: int): Tx<int>
    requires Drawable(t.entries.Keys, id)
  {
    var t1 := t.(entries := t.entries[id := EntryRow(Attestation, None, None, None, Live, kmUuid)]);
    var t2 := InsertBlob(t1, id, KeyBlob, privateKey, None);
    Commit(AddKeyMeta(t2, id,
                      map[AttestationMacedPublicKey := BytesValue(macedKey),
                          AttestationRawPubKey := BytesValue(rawKey)]),
           false, id)
  }

  /** Pool keys waiting for a certificate for the given public key. */
  function AwaitingSignature(t: Tables, rawKey: Bytes, kmUuid: int): set<int> {
    set k | k in t.keyMeta && AttestationRawPubKey in t.keyMeta[k]
            && t.keyMeta[k][AttestationRawPubKey] == BytesValue(rawKey)
            && k in t.entries && t.entries[k].(state := Live) == EntryRow(Attestation, None, None, None, Live, kmUuid)
  }

  ghost function StoreSignedChain(t: Tables, rawKey: Bytes, cert: Bytes, chain: Bytes, expiration: int,
                                  kmUuid: int): Tx<int> {
    var found := TheOne(AwaitingSignature(t, rawKey, kmUuid));
    if found.Err? then Abort(found.error)
    else
      var k := found.value;
      var t1 := t.(entries := t.entries[k := t.entries[k].(alias := Some("signed"))]);
      var t2 := AddKeyMeta(t1, k, map[AttestationExpirationDate := IntValue(expiration)]);
      Commit(InsertBlob(InsertBlob(t2, k, CertChain, chain, None), k, Cert, cert, None), false, k)
  }

  /** Signed pool keys that no one uses yet. */
  function Unassigned(t: Tables, kmUuid: int): set<int> {
    set k | k in t.entries && IsAttestation(t, k) && t.entries[k].alias.Some? && t.entries[k].domain.None?
            && t.entries[k].state == Live && t.entries[k].kmUuid == kmUuid
  }

  /** Pool keys in use by one namespace. */
  function Assigned(t: Tables, domain: Domain, nspace: int, kmUuid: int): set<int> {
    set k | k in t.entries && IsAttestation(t, k) && t.entries[k].domain == Some(domain)
            && t.entries[k].nspace == Some(nspace)
            && t.entries[k].state == Live && t.entries[k].kmUuid == kmUuid
  }

  ghost function MinOf(s: set<int>): (m: int)
    requires s != {}
    ensures m in s
    ensures forall x :: x in s ==> m <= x
  {
    HasMember(s);
    var x :| x in s;
    if s == {x} then x
    else
      assert s == (s - {x}) + {x};
      var y := MinOf(s - {x});
      if y < x then y else x
  }

  ghost function AssignAttestationKey(t: Tables, domain: Domain, nspace: int, kmUuid: int): Tx<int> {
    if !Nameable(domain) then Abort(SystemError)
    else if Unassigned(t, kmUuid) == {} || Assigned(t, domain, nspace, kmUuid) != {} then Abort(OutOfKeys)
    else
      var k := MinOf(Unassigned(t, kmUuid));
      Commit(t.(entries := t.entries[k := t.entries[k].(domain := Some(domain), nspace := Some(nspace))]), false, k)
  }

  function Expired(t: Tables, now: int): set<int> {
    set k | k in t.entries && IsAttestation(t, k) && k in t.keyMeta && AttestationExpirationDate in t.keyMeta[k]
            && t.keyMeta[k][AttestationExpirationDate].IntValue? && t.keyMeta[k][AttestationExpirationDate].i < now
  }

  function DeleteExpiredAttestationKeys(t: Tables, now: int): Tx<int> {
    var ks := Expired(t, now);
    Commit(DeleteEntries(t, ks), ks != {}, |ks|)
  }

  function DeleteAllAttestationKeys(t: Tables): Tx<int> {
    var ks := set k | k in t.entries && IsAttestation(t, k);
    Commit(DeleteEntries(t, ks), ks != {}, |ks|)
  }

  // ---------------------------------------------------------------- collection

  /** What is left once the blobs a collector is done with and all unreferenced entries are gone. */
  function Swept(t: Tables, done: set<int>): Tables {
    var t1 := DeleteBlobs(t, done);
    DeleteEntries(t1, UnreferencedIds(t1))
  }

  /** Removes superseded and orphaned certificates; their metadata rows are not touched. */
  ghost function PurgeCertificates(t: Tables): Tables {
    t.(blobs := map b | b in t.blobs && !(t.blobs[b].part != KeyBlob && Garbage(t, b)) :: t.blobs[b])
  }

  ghost predicate Distinct(s: seq<int>) {
    forall i, j :: 0 <= i < j < |s| ==> s[i] != s[j]
  }

  /** A result the `LIMIT`ed query for garbage key blobs may give: any `max` of them, or all if fewer. */
  ghost predicate Pick(t: Tables, picked: seq<int>, max: nat) {
    && Distinct(picked)
    && (forall i :: 0 <= i < |picked| ==> GarbageKeyBlob(t, picked[i]))
    && |picked| <= max
    && (|picked| < max ==> forall b :: GarbageKeyBlob(t, b) ==> b in picked)
  }

  ghost function HandleSuperseded(t: Tables, done: set<int>, picked: seq<int>): Tx<seq<int>> {
    var u := Swept(t, done);
    Commit(if picked != [] then u else PurgeCertificates(u), false, picked)
  }

  /** A boot level key that is not bound to a boot level key blob. */
  predicate Doomed(t: Tables, k: int) {
    && k in t.entries && k in t.params
    && (exists p :: p in t.params[k] && p.tag == MaxBootLevelLimit)
    && !(exists b :: b in t.blobs && t.blobs[b].keyId == k && b in t.blobMeta && MaxBootLevel in t.blobMeta[b])
  }

  /** The schema upgrade gives up such keys. */
  function UpgradeFrom0To1(t: Tables): Tx<()> {
    Commit(t.(entries := map k | k in t.entries ::
                if Doomed(t, k) then t.entries[k].(state := Unreferenced) else t.entries[k]),
           false, ())
  }

  // ---------------------------------------------------------------- all client transactions

  /** A database call, with the ids it draws and the answers it gets from outside. */
  datatype Op =
    | OpCreate(domain: Domain, nspace: int, keyType: KeyType, kmUuid: int, id: int)
    | OpStoreKey(key: KeyDescriptor, keyType: KeyType, newKey: NewKey, id: int)
    | OpStoreCert(key: KeyDescriptor, keyType: KeyType, cert: Bytes, kmUuid: int, now: int, id: int)
    | OpSetBlob(keyId: int, part: SubComponent, content: Option<Bytes>, meta: Option<BlobMeta>)
    | OpSetDeletedBlob(blob: Bytes, blobMeta: BlobMeta)
    | OpMigrate(keyId: int, destination: KeyDescriptor, caller: int, permitted: bool)
    | OpUse(keyId: int)
    | OpUnbind(key: KeyDescriptor, keyType: KeyType, caller: int, permitted: bool)
    | OpUnbindNamespace(domain: Domain, nspace: int)
    | OpUnbindUser(user: int, keep: bool)
    | OpCleanupLeftovers
    | OpStoreSuper(user: int, alias: string, blob: Bytes, blobMeta: BlobMeta, keyMeta: KeyMeta, id: int)
    | OpGetOrCreate(domain: Domain, nspace: int, alias: string, kmUuid: int, created: Result<(Bytes, BlobMeta)>,
                    id: int)
    | OpGrant(key: KeyDescriptor, caller: int, grantee: int, access: AccessVector, permitted: bool, id: int)
    | OpUngrant(key: KeyDescriptor, caller: int, grantee: int, permitted: bool)
    | OpCreateAttestation(macedKey: Bytes, rawKey: Bytes, privateKey: Bytes, kmUuid: int, id: int)
    | OpStoreSigned(rawKey: Bytes, cert: Bytes, chain: Bytes, expiration: int, kmUuid: int)
    | OpAssign(domain: Domain, nspace: int, kmUuid: int)
    | OpDeleteExpired(now: int)
    | OpDeleteAllAttestation

  predicate DrawsKeyId(op: Op) {
    || op.OpCreate? || op.OpStoreKey? || op.OpStoreCert?
    || op.OpStoreSuper? || op.OpGetOrCreate? || op.OpCreateAttestation?
  }

  predicate Enabled(t: Tables, op: Op) {
    && (DrawsKeyId(op) ==> Drawable(t.entries.Keys, op.id))
    && (op.OpGrant? ==> Drawable(t.grants.Keys, op.id))
  }

  ghost function Unit<T>(tx: Tx<T>): Tx<()> {
    if tx.Commit? then Commit(tx.db, tx.needGc, ()) else Abort(tx.error)
  }

  ghost function Run(t: Tables, op: Op): Tx<()>
    requires Enabled(t, op)
  {
    match op
    case OpCreate(d, n, kt, u, id) => Unit(CreateKeyEntry(t, d, n, kt, u, id))
    case OpStoreKey(key, kt, k, id) => Unit(StoreNewKey(t, key, kt, k, id))
    case OpStoreCert(key, kt, c, u, now, id) => Unit(StoreNewCertificate(t, key, kt, c, u, now, id))
    case OpSetBlob(k, p, b, m) => SetBlobTx(t, k, p, b, m)
    case OpSetDeletedBlob(b, m) => SetDeletedBlob(t, b, m)
    case OpMigrate(k, d, c, p) => MigrateKeyNamespace(t, k, d, c, p)
    case OpUse(k) => UseOnce(t, k)
    case OpUnbind(key, kt, c, p) => Unit(UnbindKey(t, key, kt, c, p))
    case OpUnbindNamespace(d, n) => UnbindKeysForNamespace(t, d, n)
    case OpUnbindUser(u, keep) => UnbindKeysForUser(t, u, keep)
    case OpCleanupLeftovers => CleanupLeftovers(t)
    case OpStoreSuper(u, a, b, bm, km, id) => Unit(StoreSuperKey(t, u, a, b, bm, km, id))
    case OpGetOrCreate(d, n, a, u, c, id) => Unit(GetOrCreateKeyWith(t, d, n, a, u, c, id))
    case OpGrant(key, c, g, av, p, id) => Unit(GrantKey(t, key, c, g, av, p, id))
    case OpUngrant(key, c, g, p) => UngrantKey(t, key, c, g, p)
    case OpCreateAttestation(m, r, pk, u, id) => Unit(CreateAttestationKey(t, m, r, pk, u, id))
    case OpStoreSigned(r, c, ch, e, u) => Unit(StoreSignedChain(t, r, c, ch, e, u))
    case OpAssign(d, n, u) => Unit(AssignAttestationKey(t, d, n, u))
    case OpDeleteExpired(now) => Unit(DeleteExpiredAttestationKeys(t, now))
    case OpDeleteAllAttestation => Unit(DeleteAllAttestationKeys(t))
  }

  /** The tables after a call; an aborted call changes nothing. */
  ghost function After(t: Tables, op: Op): Tables
    requires Enabled(t, op)
  {
    var r := Run(t, op);
    if r.Commit? then r.db else t
  }
}
