/**
 The persistent tables of the key database and the queries made on them. Tables whose
 rows are only ever addressed through their foreign key (blob metadata, key parameters and
 key metadata) are grouped by that key.
 */
module KeystoreTables {
  import opened KeystoreTypes

  datatype EntryRow = EntryRow(
    keyType: KeyType,
    domain: Option<Domain>,
    nspace: Option<int>,
    alias: Option<string>,
    state: LifeCycle,
    kmUuid: int)

  datatype BlobRow = BlobRow(part: SubComponent, keyId: int, blob: Bytes)

  datatype GrantRow = GrantRow(grantee: int, keyId: int, access: AccessVector)

  datatype Tables = Tables(
    entries: map<int, EntryRow>,
    blobs: map<int, BlobRow>,
    blobMeta: map<int, BlobMeta>,
    params: map<int, seq<KeyParam>>,
    keyMeta: map<int, KeyMeta>,
    grants: map<int, GrantRow>)

  const NO_TABLES := Tables(map[], map[], map[], map[], map[], map[])

  const UNASSIGNED_KEY_ID := -1
  const AID_USER_OFFSET := 100000
  const USER_SUPER_KEY_ALIAS := "USER_SUPER_KEY"
  const KEYSTORE_UUID := 0x41e3b9ce27584e91bcfda55d9185ab11

  // ---------------------------------------------------------------- blob queries

  lemma HasMember(s: set<int>)
    requires s != {}
    ensures exists x :: x in s
  {
    if forall x :: x !in s {
      assert false;
    }
  }

  /** Some row of a non-empty answer. */
  ghost function AnyOf(s: set<int>): (x: int)
    requires s != {}
    ensures x in s
  {
    HasMember(s);
    var x :| x in s;
    x
  }

  ghost function MaxOf(s: set<int>): (m: int)
    requires s != {}
    ensures m in s
    ensures forall x :: x in s ==> x <= m
  {
    HasMember(s);
    var x :| x in s;
    if s == {x} then x
    else
      assert s == (s - {x}) + {x};
      var y := MaxOf(s - {x});
      if x < y then y else x
  }

  /** SQLite numbers a new row one above the largest row id in use. */
  ghost function NextBlobId(blobs: map<int, BlobRow>): (id: int)
    ensures forall b :: b in blobs ==> b < id
  {
    if blobs.Keys == {} then 1 else MaxOf(blobs.Keys) + 1
  }

  predicate SameSlot(r: BlobRow, s: BlobRow) {
    r.part == s.part && r.keyId == s.keyId
  }

  /** A blob is current when no later row fills the same slot of the same key. */
  predicate Current(t: Tables, b: int)
    requires b in t.blobs
  {
    forall c | c in t.blobs && SameSlot(t.blobs[b], t.blobs[c]) :: c <= b
  }

  predicate Orphaned(t: Tables, b: int)
    requires b in t.blobs
  {
    t.blobs[b].keyId !in t.entries
  }

  /** Blobs that the garbage collector may remove. */
  predicate Garbage(t: Tables, b: int)
    requires b in t.blobs
  {
    !Current(t, b) || Orphaned(t, b)
  }

  predicate GarbageKeyBlob(t: Tables, b: int) {
    b in t.blobs && t.blobs[b].part == KeyBlob && Garbage(t, b)
  }

  ghost function GarbageKeyBlobs(t: Tables): set<int> {
    set b | b in t.blobs && GarbageKeyBlob(t, b)
  }

  ghost predicate Fills(t: Tables, b: int, k: int, part: SubComponent) {
    b in t.blobs && t.blobs[b].keyId == k && t.blobs[b].part == part
  }

  ghost function Filling(t: Tables, k: int, part: SubComponent): set<int> {
    set b | b in t.blobs && Fills(t, b, k, part)
  }

  /** The row that `SELECT MAX(id) ... GROUP BY subcomponent_type` reports for a key. */
  ghost function CurrentBlob(t: Tables, k: int, part: SubComponent): (r: Option<int>)
    ensures r.None? ==> forall b :: !Fills(t, b, k, part)
    ensures r.Some? ==> Fills(t, r.value, k, part) && Current(t, r.value)
  {
    var s := Filling(t, k, part);
    if s == {} then
      assert forall b :: Fills(t, b, k, part) ==> b in s;
      None
    else
      assert forall c :: c in t.blobs && t.blobs[c].keyId == k && t.blobs[c].part == part ==> c in s;
      Some(MaxOf(s))
  }

  lemma CurrentBlobIs(t: Tables, k: int, part: SubComponent, b: int)
    requires Fills(t, b, k, part) && Current(t, b)
    ensures CurrentBlob(t, k, part) == Some(b)
  {
    var r := CurrentBlob(t, k, part);
    assert r.Some?;
    assert SameSlot(t.blobs[b], t.blobs[r.value]);
  }

  // ---------------------------------------------------------------- loading a key

  datatype LoadBits = LoadBits(km: bool, public: bool)

  datatype BlobComponents = BlobComponents(
    hasKeyBlob: bool,
    keyBlob: Option<(Bytes, BlobMeta)>,
    cert: Option<Bytes>,
    certChain: Option<Bytes>)

  datatype KeyEntry = KeyEntry(
    id: int,
    keyBlob: Option<(Bytes, BlobMeta)>,
    cert: Option<Bytes>,
    certChain: Option<Bytes>,
    kmUuid: int,
    parameters: seq<KeyParam>,
    metadata: KeyMeta,
    pureCert: bool)

  ghost function BlobOf(t: Tables, k: int, part: SubComponent): Option<Bytes> {
    var b := CurrentBlob(t, k, part);
    if b.Some? then Some(t.blobs[b.value].blob) else None
  }

  ghost function LoadBlobComponents(t: Tables, k: int, bits: LoadBits): BlobComponents {
    var b := CurrentBlob(t, k, KeyBlob);
    BlobComponents(
      b.Some?,
      if b.Some? && bits.km then Some((t.blobs[b.value].blob, GetOr(t.blobMeta, b.value, map[]))) else None,
      if bits.public then BlobOf(t, k, Cert) else None,
      if bits.public then BlobOf(t, k, CertChain) else None)
  }

  ghost function LoadKeyComponents(t: Tables, k: int, bits: LoadBits): Result<KeyEntry> {
    if k !in t.entries then Err(SystemError)
    else
      var c := LoadBlobComponents(t, k, bits);
      Ok(KeyEntry(k, c.keyBlob, c.cert, c.certChain, t.entries[k].kmUuid,
                  GetOr(t.params, k, []), GetOr(t.keyMeta, k, map[]), !c.hasKeyBlob))
  }

  // ---------------------------------------------------------------- finding a key

  predicate Bound(row: EntryRow, domain: Domain, nspace: int, alias: string, keyType: KeyType) {
    && row.keyType == keyType
    && row.domain == Some(domain)
    && row.nspace == Some(nspace)
    && row.alias == Some(alias)
  }

  /** The live entries that carry an alias. */
  function LiveBound(t: Tables, domain: Domain, nspace: int, alias: string, keyType: KeyType): set<int> {
    set k | k in t.entries && t.entries[k].state == Live && Bound(t.entries[k], domain, nspace, alias, keyType)
  }

  ghost function TheOne(s: set<int>): (r: Result<int>)
    ensures r.Ok? <==> |s| == 1
    ensures r.Ok? ==> s == {r.value}
    ensures r.Err? ==> r.error == if s == {} then KeyNotFound else SystemError
  {
    if |s| == 1 then
      assert |s - {AnyOf(s)}| == 0;
      Ok(AnyOf(s))
    else if s == {} then Err(KeyNotFound)
    else Err(SystemError)
  }

  ghost function LoadKeyEntryId(t: Tables, key: KeyDescriptor, keyType: KeyType): Result<int> {
    if key.alias.None? then Err(SystemError)
    else TheOne(LiveBound(t, key.domain, key.nspace, key.alias.value, keyType))
  }

  datatype AccessTuple = AccessTuple(keyId: int, descriptor: KeyDescriptor, access: Option<AccessVector>)

  predicate IsLive(t: Tables, k: int) {
    k in t.entries && t.entries[k].state == Live
  }

  /** The grants of one key to one grantee. */
  function GrantsOf(t: Tables, k: int, grantee: int): set<int> {
    set g | g in t.grants && t.grants[g].keyId == k && t.grants[g].grantee == grantee
  }

  ghost function AccessOf(t: Tables, k: int, grantee: int): Option<AccessVector> {
    var gs := GrantsOf(t, k, grantee);
    if gs == {} then None else Some(t.grants[AnyOf(gs)].access)
  }

  /** Completes a key descriptor to what access control needs. */
  ghost function LoadAccessTuple(t: Tables, key: KeyDescriptor, keyType: KeyType, caller: int): Result<AccessTuple> {
    match key.domain
    case APP =>
      var accessKey := key.(nspace := caller);
      var id := LoadKeyEntryId(t, accessKey, keyType);
      if id.Err? then Err(id.error) else Ok(AccessTuple(id.value, accessKey, None))
    case SELINUX =>
      var id := LoadKeyEntryId(t, key, keyType);
      if id.Err? then Err(id.error) else Ok(AccessTuple(id.value, key, None))
    case GRANT =>
      if key.nspace in t.grants && t.grants[key.nspace].grantee == caller && IsLive(t, t.grants[key.nspace].keyId)
      then Ok(AccessTuple(t.grants[key.nspace].keyId, key, Some(t.grants[key.nspace].access)))
      else Err(KeyNotFound)
    case KEY_ID =>
      if !IsLive(t, key.nspace) then Err(KeyNotFound)
      else
        var row := t.entries[key.nspace];
        if row.domain.None? || row.nspace.None? then Err(SystemError)
        else
          var access := if row.domain.value != APP || row.nspace.value != caller
                        then AccessOf(t, key.nspace, caller) else None;
          Ok(AccessTuple(key.nspace, key.(domain := row.domain.value, nspace := row.nspace.value), access))
    case BLOB => Err(SystemError)
  }

  // ---------------------------------------------------------------- single statements

  /** `INSERT OR REPLACE` of a set of tagged values. */
  function MergeMeta<T>(m: map<int, map<T, Value>>, id: int, add: map<T, Value>): map<int, map<T, Value>> {
    m[id := GetOr(m, id, map[]) + add]
  }

  ghost function InsertBlob(t: Tables, k: int, part: SubComponent, blob: Bytes, meta: Option<BlobMeta>): Tables {
    var b := NextBlobId(t.blobs);
    t.(blobs := t.blobs[b := BlobRow(part, k, blob)],
       blobMeta := if meta.Some? then MergeMeta(t.blobMeta, b, meta.value) else t.blobMeta)
  }

  /** Drops every row of one slot; metadata rows are not touched. */
  function ClearSlot(t: Tables, k: int, part: SubComponent): Tables {
    t.(blobs := map b | b in t.blobs && !(t.blobs[b].part == part && t.blobs[b].keyId == k) :: t.blobs[b])
  }

  ghost function SetBlob(t: Tables, k: int, part: SubComponent, blob: Option<Bytes>,
                         meta: Option<BlobMeta>): Result<Tables> {
    match (blob, part)
    case (Some(b), _) => Ok(InsertBlob(t, k, part, b, meta))
    case (None, KeyBlob) => Err(SystemError)
    case (None, _) => Ok(ClearSlot(t, k, part))
  }

  /** Removes key entries together with their metadata, parameters and grants; blobs become orphans. */
  function DeleteEntries(t: Tables, ks: set<int>): Tables {
    t.(entries := t.entries - ks,
       keyMeta := t.keyMeta - ks,
       params := t.params - ks,
       grants := map g | g in t.grants && t.grants[g].keyId !in ks :: t.grants[g])
  }

  function DeleteBlobs(t: Tables, bs: set<int>): Tables {
    t.(blobs := t.blobs - bs, blobMeta := t.blobMeta - bs)
  }

  function AddParams(t: Tables, k: int, ps: seq<KeyParam>): Tables {
    t.(params := t.params[k := GetOr(t.params, k, []) + ps])
  }

  function AddKeyMeta(t: Tables, k: int, meta: KeyMeta): Tables {
    t.(keyMeta := MergeMeta(t.keyMeta, k, meta))
  }

  /** The rows an alias is taken away from when it is bound to another key. */
  function Displaced(t: Tables, domain: Domain, nspace: int, alias: string, keyType: KeyType): set<int> {
    set k | k in t.entries && Bound(t.entries[k], domain, nspace, alias, keyType)
  }

  function Unbound(row: EntryRow): EntryRow {
    row.(alias := None, domain := None, nspace := None, state := Unreferenced)
  }

  function DisplaceAlias(t: Tables, domain: Domain, nspace: int, alias: string, keyType: KeyType): Tables {
    var ks := Displaced(t, domain, nspace, alias, keyType);
    t.(entries := map k | k in t.entries :: if k in ks then Unbound(t.entries[k]) else t.entries[k])
  }

  function UnreferencedIds(t: Tables): set<int> {
    set k | k in t.entries && t.entries[k].state == Unreferenced
  }
}
