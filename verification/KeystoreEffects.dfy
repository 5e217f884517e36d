/**
 What each call of the key database leaves behind, said row by row: which entries come, go or change, what goes with
 them, when the call is refused and with which error.
 */
module KeystoreEffects {
  import opened KeystoreTypes
  import opened KeystoreTables
  import opened KeystoreTx
  import opened KeystoreInvariants
  import opened AttestationPool
  import opened GcSystem
  import opened KeystoreClients

  // ---------------------------------------------------------------- removal

  /** The rows of a table but those of some keys. */
  ghost predicate Without<T>(before: map<int, T>, after: map<int, T>, ks: set<int>) {
    && (forall k :: k in after <==> k in before && k !in ks)
    && (forall k :: k in after ==> after[k] == before[k])
  }

  /** Exactly the given entries have gone, with parameters, metadata and grants; blobs are left to the collector. */
  ghost predicate Gone(t: Tables, u: Tables, ks: set<int>) {
    && Without(t.entries, u.entries, ks) && Without(t.params, u.params, ks) && Without(t.keyMeta, u.keyMeta, ks)
    && (forall g :: g in u.grants <==> g in t.grants && t.grants[g].keyId !in ks)
    && (forall g :: g in u.grants ==> u.grants[g] == t.grants[g])
    && u.blobs == t.blobs && u.blobMeta == t.blobMeta
  }

  /** A key is removed exactly if the caller finds it and may remove it. */
  lemma UnbindEffect(t: Tables, key: KeyDescriptor, keyType: KeyType, caller: int, permitted: bool)
    ensures var r := UnbindKey(t, key, keyType, caller, permitted);
            var a := LoadAccessTuple(t, key, keyType, caller);
            && (r.Commit? <==> a.Ok? && permitted)
            && (r.Abort? ==> r.error == if a.Err? then a.error else PermissionDenied)
            && (r.Commit? ==> r.needGc && r.out == a.value.keyId && Gone(t, r.db, {a.value.keyId}))
  {
    if LoadAccessTuple(t, key, keyType, caller).Ok? {
      AccessTupleIsLive(t, key, keyType, caller);
    }
  }

  /** All client keys under a namespace go, and no others. */
  lemma UnbindNamespaceEffect(t: Tables, domain: Domain, nspace: int)
    ensures var r := UnbindKeysForNamespace(t, domain, nspace);
            && (r.Commit? <==> domain in {APP, SELINUX})
            && (r.Abort? ==> r.error == InvalidArgument)
            && (r.Commit? ==>
                  && r.needGc
                  && Gone(t, r.db, set k | k in t.entries && t.entries[k].keyType == Client
                                           && t.entries[k].domain == Some(domain)
                                           && t.entries[k].nspace == Some(nspace)))
  {
  }

  /** The live app keys of a user, and the user's own super key. */
  ghost predicate BelongsTo(row: EntryRow, user: nat) {
    && row.state == Live && row.nspace.Some?
    && var n := row.nspace.value;
       || (row.keyType == Client && row.domain == Some(APP) && n < (user + 1) * 100000
           && (n >= user * 100000 || (user == 0 && n > -100000)))
       || (row.keyType == Super && n == user && row.alias == Some("USER_SUPER_KEY"))
  }

  /** Those go, save the ones not encrypted by another key if these are to be kept. */
  lemma UnbindUserEffect(t: Tables, user: nat, keep: bool)
    ensures var r := UnbindKeysForUser(t, user, keep);
            var ks := set k | k in t.entries && BelongsTo(t.entries[k], user) && !(keep && PlainlyStored(t, k));
            r.Commit? && (r.needGc <==> ks != {}) && Gone(t, r.db, ks)
  {
    var ks := set k | k in t.entries && BelongsTo(t.entries[k], user) && !(keep && PlainlyStored(t, k));
    forall k
      ensures k in KeysOfUser(t, user, keep) <==> k in ks
    {
      PlainIff(t, k);
      if k in t.entries {
        UserOf(t.entries[k], user);
      }
    }
    assert KeysOfUser(t, user, keep) == ks;
  }

  lemma UserOf(row: EntryRow, user: nat)
    ensures OfUser(row, user) <==> BelongsTo(row, user)
  {
  }

  lemma PlainIff(t: Tables, k: int)
    ensures NotSuperEncrypted(t, k) <==> PlainlyStored(t, k)
  {
    if b :| Fills(t, b, k, KeyBlob) && Current(t, b) && EncryptedBy !in GetOr(t.blobMeta, b, map[]) {
      CurrentBlobIs(t, k, KeyBlob, b);
    }
  }

  /** At start-up the entries left unfinished are given up, and collection is asked for in any case. */
  lemma CleanupEffect(t: Tables)
    ensures var r := CleanupLeftovers(t);
            && r.Commit? && r.needGc && r.db == t.(entries := r.db.entries) && r.db.entries.Keys == t.entries.Keys
            && forall k :: k in t.entries ==>
                 r.db.entries[k] == if t.entries[k].state == Existing
                                    then EntryRow(t.entries[k].keyType, t.entries[k].domain, t.entries[k].nspace,
                                                  t.entries[k].alias, Unreferenced, t.entries[k].kmUuid)
                                    else t.entries[k]
  {
  }

  ghost predicate Limited(t: Tables, k: int) {
    exists p :: p in GetOr(t.params, k, []) && p.tag == MaxBootLevelLimit
  }

  ghost predicate HasBoundBlob(t: Tables, k: int) {
    exists b :: b in t.blobs && t.blobs[b].keyId == k && MaxBootLevel in GetOr(t.blobMeta, b, map[])
  }

  /** The schema upgrade gives up exactly the keys with a boot level limit and no blob that is bound to one. */
  lemma UpgradeEffect(t: Tables)
    ensures var r := UpgradeFrom0To1(t);
            && r.Commit? && !r.needGc && r.db == t.(entries := r.db.entries) && r.db.entries.Keys == t.entries.Keys
            && forall k :: k in t.entries ==>
                 r.db.entries[k] == if Limited(t, k) && !HasBoundBlob(t, k) then t.entries[k].(state := Unreferenced)
                                    else t.entries[k]
  {
    forall k | k in t.entries
      ensures Doomed(t, k) <==> Limited(t, k) && !HasBoundBlob(t, k)
    {
      DoomedIff(t, k);
    }
  }

  lemma DoomedIff(t: Tables, k: int)
    requires k in t.entries
    ensures Doomed(t, k) <==> Limited(t, k) && !HasBoundBlob(t, k)
  {
    if b :| b in t.blobs && t.blobs[b].keyId == k && MaxBootLevel in GetOr(t.blobMeta, b, map[]) {
      assert b in t.blobMeta;
    }
  }

  // ---------------------------------------------------------------- collection

  /** Nothing needs the row any more: its key is gone, or a newer row holds the same part of the key. */
  ghost predicate Outdated(t: Tables, b: int)
    requires b in t.blobs
  {
    || t.blobs[b].keyId !in t.entries
    || exists c :: c in t.blobs && c > b && t.blobs[c].keyId == t.blobs[b].keyId && t.blobs[c].part == t.blobs[b].part
  }

  /** The sweep takes the blobs that are done with and the unreferenced entries, and all that goes with either. */
  lemma SweepEffect(t: Tables, done: set<int>)
    ensures var u := Swept(t, done);
            && Gone(t, u.(blobs := t.blobs, blobMeta := t.blobMeta),
                    set k | k in t.entries && t.entries[k].state == Unreferenced)
            && Without(t.blobs, u.blobs, done) && Without(t.blobMeta, u.blobMeta, done)
  {
  }

  /** A collector's transaction sweeps, and turns to certificates once no key blob is left to hand out. */
  lemma CollectEffect(t: Tables, done: set<int>, picked: seq<int>)
    ensures var r := HandleSuperseded(t, done, picked);
            var u := Swept(t, done);
            && r.Commit? && !r.needGc && r.out == picked && r.db == u.(blobs := r.db.blobs)
            && Without(u.blobs, r.db.blobs,
                       set b | b in u.blobs && picked == [] && u.blobs[b].part != KeyBlob && Outdated(u, b))
  {
    var u := Swept(t, done);
    forall b | b in u.blobs
      ensures Garbage(u, b) <==> Outdated(u, b)
    {
      OutdatedIff(u, b);
    }
    PurgeEffect(u);
  }

  lemma PurgeEffect(u: Tables)
    requires forall b :: b in u.blobs ==> (Garbage(u, b) <==> Outdated(u, b))
    ensures PurgeCertificates(u) == u.(blobs := PurgeCertificates(u).blobs)
    ensures Without(u.blobs, PurgeCertificates(u).blobs,
                    set b | b in u.blobs && u.blobs[b].part != KeyBlob && Outdated(u, b))
  {
  }

  lemma OutdatedIff(t: Tables, b: int)
    requires b in t.blobs
    ensures Garbage(t, b) <==> Outdated(t, b)
  {
    if !Current(t, b) {
      var c :| c in t.blobs && SameSlot(t.blobs[b], t.blobs[c]) && c > b;
      assert t.blobs[c].keyId == t.blobs[b].keyId;
    }
  }

  /** The collector is told of key blobs that are outdated, up to the number asked for, and of all if they are fewer. */
  lemma PickedAre(t: Tables, picked: seq<int>, max: nat)
    requires Pick(t, picked, max)
    ensures |picked| <= max
    ensures forall b :: b in picked ==> b in t.blobs && t.blobs[b].part == KeyBlob && Outdated(t, b)
    ensures |picked| < max ==>
              forall b :: b in t.blobs && t.blobs[b].part == KeyBlob && Outdated(t, b) ==> b in picked
  {
    forall b | b in t.blobs
      ensures Garbage(t, b) <==> Outdated(t, b)
    {
      OutdatedIff(t, b);
    }
  }

  // ---------------------------------------------------------------- creation

  /** Which rows a name is taken from, and what is left of them. */
  ghost predicate HasName(row: EntryRow, domain: Domain, nspace: int, alias: string, keyType: KeyType) {
    row == EntryRow(keyType, Some(domain), Some(nspace), Some(alias), row.state, row.kmUuid)
  }

  ghost predicate TakesName(t: Tables, u: Tables, id: int, domain: Domain, nspace: int, alias: string,
                            keyType: KeyType) {
    forall k :: k in t.entries ==>
      && k in u.entries
      && u.entries[k] == if HasName(t.entries[k], domain, nspace, alias, keyType)
                         then EntryRow(keyType, None, None, None, Unreferenced, t.entries[k].kmUuid)
                         else t.entries[k]
  }

  /** A bare entry is made for an app or under the policy only. */
  lemma CreateEffect(t: Tables, domain: Domain, nspace: int, keyType: KeyType, kmUuid: int, id: int)
    requires Drawable(t.entries.Keys, id)
    ensures var r := CreateKeyEntry(t, domain, nspace, keyType, kmUuid, id);
            && (r.Commit? <==> domain in {APP, SELINUX}) && (r.Abort? ==> r.error == SystemError)
            && (r.Commit? ==>
                  && r.out == id && !r.needGc && r.db == t.(entries := r.db.entries)
                  && r.db.entries.Keys == t.entries.Keys + {id}
                  && r.db.entries[id] == EntryRow(keyType, Some(domain), Some(nspace), None, Existing, kmUuid)
                  && forall k :: k in t.entries ==> r.db.entries[k] == t.entries[k])
  {
  }

  ghost predicate MayBeStored(key: KeyDescriptor) {
    key.alias.Some? && key.domain in {APP, SELINUX} && key.blob.None?
  }

  ghost predicate NameIsTaken(t: Tables, key: KeyDescriptor, keyType: KeyType)
    requires key.alias.Some?
  {
    exists k :: k in t.entries && HasName(t.entries[k], key.domain, key.nspace, key.alias.value, keyType)
  }

  /** Storing a key gives its name to it alone. */
  lemma StoreKeyEffect(t: Tables, key: KeyDescriptor, keyType: KeyType, n: NewKey, id: int)
    requires Drawable(t.entries.Keys, id)
    ensures var r := StoreNewKey(t, key, keyType, n, id);
            && (r.Commit? <==> MayBeStored(key)) && (r.Abort? ==> r.error == InvalidArgument)
            && (r.Commit? ==>
                  && r.out == id && (r.needGc <==> NameIsTaken(t, key, keyType))
                  && r.db.entries.Keys == t.entries.Keys + {id}
                  && r.db.entries[id] == EntryRow(keyType, Some(key.domain), Some(key.nspace), key.alias, Live,
                                                n.kmUuid)
                  && TakesName(t, r.db, id, key.domain, key.nspace, key.alias.value, keyType)
                  && r.db.grants == t.grants)
  {
    StoreNewKeyShape(t, key, keyType, n, id);
    if MayBeStored(key) {
      NamesAgree(t, key.domain, key.nspace, key.alias.value, keyType);
    }
  }

  lemma NamesAgree(t: Tables, domain: Domain, nspace: int, alias: string, keyType: KeyType)
    ensures forall k :: k in t.entries ==>
              (Bound(t.entries[k], domain, nspace, alias, keyType) <==>
               HasName(t.entries[k], domain, nspace, alias, keyType))
    ensures forall k :: k in t.entries && Bound(t.entries[k], domain, nspace, alias, keyType) ==>
              Unbound(t.entries[k]) == EntryRow(keyType, None, None, None, Unreferenced, t.entries[k].kmUuid)
    ensures Displaced(t, domain, nspace, alias, keyType) != {} <==>
              exists k :: k in t.entries && HasName(t.entries[k], domain, nspace, alias, keyType)
  {
    if k :| k in t.entries && HasName(t.entries[k], domain, nspace, alias, keyType) {
      assert k in Displaced(t, domain, nspace, alias, keyType);
    } else {
      forall k
        ensures k !in Displaced(t, domain, nspace, alias, keyType)
      {
        assert k in t.entries ==> !HasName(t.entries[k], domain, nspace, alias, keyType);
      }
    }
  }

  /** An entry is finished under a name exactly if it is unfinished, in that place and of that type. */
  lemma RebindEffect(t: Tables, id: int, alias: string, domain: Domain, nspace: int, keyType: KeyType)
    ensures var r := RebindAlias(t, id, alias, domain, nspace, keyType);
            && (r.Commit? <==>
                  && domain in {APP, SELINUX} && id in t.entries
                  && t.entries[id] == EntryRow(keyType, Some(domain), Some(nspace), t.entries[id].alias, Existing,
                                               t.entries[id].kmUuid)
                  && t.entries[id].alias != Some(alias))
            && (r.Abort? ==> r.error == SystemError)
            && (r.Commit? ==>
                  && r.db == t.(entries := r.db.entries) && r.db.entries.Keys == t.entries.Keys
                  && r.db.entries[id] == t.entries[id].(alias := Some(alias), state := Live)
                  && forall k :: k in t.entries && k != id ==>
                       r.db.entries[k] == if HasName(t.entries[k], domain, nspace, alias, keyType)
                                          then EntryRow(keyType, None, None, None, Unreferenced, t.entries[k].kmUuid)
                                          else t.entries[k])
  {
    NamesAgree(t, domain, nspace, alias, keyType);
    RebindShape(t, id, alias, domain, nspace, keyType);
  }

  /** Storing a certificate makes an entry whose chain it is, dated, with no key of its own. */
  lemma StoreCertificateEffect(t: Tables, key: KeyDescriptor, keyType: KeyType, cert: Bytes, kmUuid: int, now: int,
                               id: int)
    requires Integrity(t) && Drawable(t.entries.Keys, id)
    ensures var r := StoreNewCertificate(t, key, keyType, cert, kmUuid, now, id);
            && (r.Commit? <==> MayBeStored(key)) && (r.Abort? ==> r.error == InvalidArgument)
            && (r.Commit? ==>
                  && r.out == id && (r.needGc <==> NameIsTaken(t, key, keyType))
                  && r.db.entries.Keys == t.entries.Keys + {id}
                  && r.db.entries[id] == EntryRow(keyType, Some(key.domain), Some(key.nspace), key.alias, Live, kmUuid)
                  && TakesName(t, r.db, id, key.domain, key.nspace, key.alias.value, keyType)
                  && r.db.params == t.params && r.db.grants == t.grants
                  && r.db.keyMeta == t.keyMeta[id := map[CreationDate := IntValue(now)]]
                  && r.db.blobs == t.blobs[NextBlobId(t.blobs) := BlobRow(CertChain, id, cert)]
                  && r.db.blobMeta == t.blobMeta)
  {
    if MayBeStored(key) {
      NamesAgree(t, key.domain, key.nspace, key.alias.value, keyType);
      CertificateRows(t, key, keyType, cert, kmUuid, now, id);
    }
  }

  lemma CertificateRows(t: Tables, key: KeyDescriptor, keyType: KeyType, cert: Bytes, kmUuid: int, now: int, id: int)
    requires Integrity(t) && Drawable(t.entries.Keys, id) && Storable(key)
    ensures var r := StoreNewCertificate(t, key, keyType, cert, kmUuid, now, id);
            && r.Commit? && r.out == id
            && (r.needGc <==> Displaced(t, key.domain, key.nspace, key.alias.value, keyType) != {})
            && r.db.entries.Keys == t.entries.Keys + {id}
            && r.db.entries[id] == EntryRow(keyType, Some(key.domain), Some(key.nspace), key.alias, Live, kmUuid)
            && (forall k :: k in t.entries ==>
                  r.db.entries[k] == if Bound(t.entries[k], key.domain, key.nspace, key.alias.value, keyType)
                                     then Unbound(t.entries[k]) else t.entries[k])
            && r.db.params == t.params && r.db.grants == t.grants && r.db.blobMeta == t.blobMeta
            && r.db.keyMeta == t.keyMeta[id := map[CreationDate := IntValue(now)]]
            && r.db.blobs == t.blobs[NextBlobId(t.blobs) := BlobRow(CertChain, id, cert)]
  {
    var t1 := CreateKeyEntry(t, key.domain, key.nspace, keyType, kmUuid, id).db;
    var t2 := AddKeyMeta(InsertBlob(t1, id, CertChain, cert, None), id, map[CreationDate := IntValue(now)]);
    CertificateFills(t, t1, id, cert, now);
    RebindRows(t, t2, t1.entries[id], key, id);
  }

  lemma CertificateFills(t: Tables, t1: Tables, id: int, cert: Bytes, now: int)
    requires Integrity(t) && id !in t.entries && t1 == t.(entries := t1.entries)
    ensures var t2 := AddKeyMeta(InsertBlob(t1, id, CertChain, cert, None), id, map[CreationDate := IntValue(now)]);
            && t2.entries == t1.entries && t2.params == t.params && t2.grants == t.grants && t2.blobMeta == t.blobMeta
            && t2.keyMeta == t.keyMeta[id := map[CreationDate := IntValue(now)]]
            && t2.blobs == t.blobs[NextBlobId(t.blobs) := BlobRow(CertChain, id, cert)]
  {
    assert id !in t.keyMeta;
    assert map[] + map[CreationDate := IntValue(now)] == map[CreationDate := IntValue(now)];
  }

  lemma RebindRows(t: Tables, t2: Tables, row: EntryRow, key: KeyDescriptor, id: int)
    requires id !in t.entries && Storable(key) && t2.entries == t.entries[id := row]
    requires row == EntryRow(row.keyType, Some(key.domain), Some(key.nspace), None, Existing, row.kmUuid)
    ensures var r := RebindAlias(t2, id, key.alias.value, key.domain, key.nspace, row.keyType);
            && r.Commit? && r.db == t2.(entries := r.db.entries) && r.db.entries.Keys == t.entries.Keys + {id}
            && (r.needGc <==> Displaced(t, key.domain, key.nspace, key.alias.value, row.keyType) != {})
            && r.db.entries[id] == row.(alias := key.alias, state := Live)
            && forall k :: k in t.entries ==>
                 r.db.entries[k] == if Bound(t.entries[k], key.domain, key.nspace, key.alias.value, row.keyType)
                                    then Unbound(t.entries[k]) else t.entries[k]
  {
    DisplacedBefore(t, t2, id, key.domain, key.nspace, key.alias.value, row.keyType);
    RebindShape(t2, id, key.alias.value, key.domain, key.nspace, row.keyType);
    assert forall k :: k in t.entries ==> k in t2.entries && t2.entries[k] == t.entries[k] && k != id;
  }

  /** So under an id nothing is left of it loads as a pure certificate. */
  lemma StoreCertificateThenLoad(t: Tables, key: KeyDescriptor, keyType: KeyType, cert: Bytes, kmUuid: int, now: int,
                                 id: int)
    requires Integrity(t) && Drawable(t.entries.Keys, id) && MayBeStored(key)
    requires forall b :: b in t.blobs ==> t.blobs[b].keyId != id
    ensures var r := StoreNewCertificate(t, key, keyType, cert, kmUuid, now, id);
            && r.Commit?
            && LoadKeyComponents(r.db, id, BOTH)
               == Ok(KeyEntry(id, None, None, Some(cert), kmUuid, [], map[CreationDate := IntValue(now)], true))
  {
    StoreCertificateEffect(t, key, keyType, cert, kmUuid, now, id);
    var u := StoreNewCertificate(t, key, keyType, cert, kmUuid, now, id).db;
    var b := NextBlobId(t.blobs);
    assert Fills(u, b, id, CertChain) && Current(u, b);
    CurrentBlobIs(u, id, CertChain, b);
    assert CurrentBlob(u, id, KeyBlob).None? && CurrentBlob(u, id, Cert).None? by {
      forall c
        ensures !Fills(u, c, id, KeyBlob) && !Fills(u, c, id, Cert)
      {
      }
    }
    assert id !in t.params;
  }

  // ---------------------------------------------------------------- uses

  /** The first limit among the parameters, if any, is the one at the index. */
  ghost predicate FirstLimitAt(ps: seq<KeyParam>, i: int) {
    && 0 <= i < |ps| && ps[i].tag == UsageCountLimit
    && forall j :: 0 <= j < i ==> ps[j].tag != UsageCountLimit
  }

  lemma {:induction false} FirstLimitIs(ps: seq<KeyParam>, i: int)
    requires FirstLimitAt(ps, i)
    ensures FirstLimit(ps) == Some(ps[i].data)
  {
    if i > 0 {
      assert ps[0].tag != UsageCountLimit;
      assert ps[1..][i - 1] == ps[i];
      FirstLimitIs(ps[1..], i - 1);
    }
  }

  lemma {:induction false} NoLimitIs(ps: seq<KeyParam>)
    requires forall p :: p in ps ==> p.tag != UsageCountLimit
    ensures FirstLimit(ps).None?
  {
    if ps != [] {
      assert ps[0] in ps;
      NoLimitIs(ps[1..]);
    }
  }

  /** All positive limits are one less, and every other parameter is as before. */
  ghost predicate OneLess(ps: seq<KeyParam>, qs: seq<KeyParam>) {
    && |qs| == |ps|
    && forall i :: 0 <= i < |ps| ==>
         if ps[i].tag == UsageCountLimit && exists n :: n > 0 && ps[i].data == IntValue(n)
         then qs[i].(data := ps[i].data) == ps[i] && qs[i].data == IntValue(ps[i].data.i - 1)
         else qs[i] == ps[i]
  }

  /** A use is refused without a limit or with one of zero, removes the key with one of one, and else counts down. */
  lemma UseEffect(t: Tables, k: int, i: int)
    requires FirstLimitAt(GetOr(t.params, k, []), i)
    ensures var r := UseOnce(t, k);
            match GetOr(t.params, k, [])[i].data
            case IntValue(n) =>
              if n == 0 then r == Abort(InvalidKeyBlob)
              else if n == 1 then
                r.Commit? && (r.needGc <==> k in t.entries) && Gone(t, r.db, {k})
              else
                && r.Commit? && !r.needGc && r.db == t.(params := r.db.params)
                && r.db.params.Keys == t.params.Keys && OneLess(t.params[k], r.db.params[k])
                && forall j :: j in t.params && j != k ==> r.db.params[j] == t.params[j]
            case _ => r == Abort(SystemError)
  {
    FirstLimitIs(GetOr(t.params, k, []), i);
  }

  lemma UnlimitedUse(t: Tables, k: int)
    requires forall p :: p in GetOr(t.params, k, []) ==> p.tag != UsageCountLimit
    ensures UseOnce(t, k) == Abort(InvalidKeyBlob)
  {
    NoLimitIs(GetOr(t.params, k, []));
  }

  // ---------------------------------------------------------------- blobs

  /** The newest row holds the blob with its metadata, and every other row is as before. */
  ghost predicate NewRow(t: Tables, u: Tables, row: BlobRow, meta: BlobMeta) {
    exists b :: NewRowAt(t, u, b, row, meta)
  }

  ghost predicate NewRowAt(t: Tables, u: Tables, b: int, row: BlobRow, meta: BlobMeta) {
    && b !in t.blobs && (forall c :: c in t.blobs ==> c < b)
    && u.blobs == t.blobs[b := row] && GetOr(u.blobMeta, b, map[]) == GetOr(t.blobMeta, b, map[]) + meta
    && forall c :: c != b ==> GetOr(u.blobMeta, c, map[]) == GetOr(t.blobMeta, c, map[])
  }

  /** A blob is added, or all of a certificate's rows go, but never those of a key blob. */
  lemma SetBlobEffect(t: Tables, k: int, part: SubComponent, blob: Option<Bytes>, meta: Option<BlobMeta>)
    ensures var r := SetBlobTx(t, k, part, blob, meta);
            && (r.Abort? <==> blob.None? && part == KeyBlob) && (r.Abort? ==> r.error == SystemError)
            && (r.Commit? ==> r.needGc && r.db == t.(blobs := r.db.blobs, blobMeta := r.db.blobMeta))
            && (r.Commit? && blob.Some? ==>
                  NewRow(t, r.db, BlobRow(part, k, blob.value), if meta.Some? then meta.value else map[]))
            && (r.Commit? && blob.None? ==>
                  && r.db.blobMeta == t.blobMeta
                  && (forall b :: b in r.db.blobs <==>
                               b in t.blobs && !(t.blobs[b].keyId == k && t.blobs[b].part == part))
                  && (forall b :: b in r.db.blobs ==> r.db.blobs[b] == t.blobs[b]))
  {
    if blob.Some? {
      InsertIsNewRow(t, k, part, blob.value, meta);
    }
  }

  lemma InsertIsNewRow(t: Tables, k: int, part: SubComponent, blob: Bytes, meta: Option<BlobMeta>)
    ensures NewRow(t, InsertBlob(t, k, part, blob, meta), BlobRow(part, k, blob),
                   if meta.Some? then meta.value else map[])
  {
    var b := NextBlobId(t.blobs);
    var u := InsertBlob(t, k, part, blob, meta);
    assert GetOr(t.blobMeta, b, map[]) + map[] == GetOr(t.blobMeta, b, map[]);
    assert NewRowAt(t, u, b, BlobRow(part, k, blob), if meta.Some? then meta.value else map[]);
  }

  /** The blob of a removed legacy key is handed to the collector with its metadata. */
  lemma DeletedBlobEffect(t: Tables, blob: Bytes, meta: BlobMeta)
    ensures var r := SetDeletedBlob(t, blob, meta);
            && r.Commit? && r.needGc && r.db == t.(blobs := r.db.blobs, blobMeta := r.db.blobMeta)
            && NewRow(t, r.db, BlobRow(KeyBlob, -1, blob), meta)
            && (-1 !in t.entries ==> forall b :: b in r.db.blobs && b !in t.blobs ==> GarbageKeyBlob(r.db, b))
  {
    InsertIsNewRow(t, -1, KeyBlob, blob, Some(meta));
  }

  // ---------------------------------------------------------------- moving

  ghost predicate Destination(destination: KeyDescriptor, caller: int, row: EntryRow) {
    && row.alias.Some? && row.alias == destination.alias && row.domain == Some(destination.domain)
    && row.nspace == Some(if destination.domain == APP then caller else destination.nspace)
  }

  /** A key moves to a free name that the caller may use, and else stays. */
  lemma MoveEffect(t: Tables, id: int, destination: KeyDescriptor, caller: int, permitted: bool)
    ensures var r := MigrateKeyNamespace(t, id, destination, caller, permitted);
            var free := forall k :: k in t.entries ==> !Destination(destination, caller, t.entries[k]);
            && (r.Abort? ==>
                  r.error == if destination.domain !in {APP, SELINUX} then InvalidArgument
                             else if !permitted then PermissionDenied
                             else if destination.alias.None? || !free then InvalidArgument
                             else SystemError)
            && (r.Commit? <==> destination.domain in {APP, SELINUX} && permitted && destination.alias.Some? && free
                               && id in t.entries)
            && (r.Commit? ==>
                  && !r.needGc && r.db == t.(entries := r.db.entries) && r.db.entries.Keys == t.entries.Keys
                  && Destination(destination, caller, r.db.entries[id])
                  && r.db.entries[id].keyType == t.entries[id].keyType && r.db.entries[id].state == t.entries[id].state
                  && r.db.entries[id].kmUuid == t.entries[id].kmUuid
                  && forall k :: k in t.entries && k != id ==> r.db.entries[k] == t.entries[k])
  {
    if destination.alias.Some? {
      var nspace := if destination.domain == APP then caller else destination.nspace;
      assert Occupied(t, destination.domain, nspace, destination.alias.value) <==>
               exists k :: k in t.entries && Destination(destination, caller, t.entries[k]);
    }
  }

  // ---------------------------------------------------------------- super keys

  ghost predicate IsSuper(t: Tables, k: int, domain: Domain, nspace: int, alias: string) {
    && k in t.entries
    && t.entries[k] == EntryRow(Super, Some(domain), Some(nspace), Some(alias), Live, t.entries[k].kmUuid)
  }

  /** A super key is stored under the user's namespace with its blob and both kinds of metadata. */
  lemma StoreSuperEffect(t: Tables, user: int, alias: string, blob: Bytes, blobMeta: BlobMeta, meta: KeyMeta, id: int)
    requires Drawable(t.entries.Keys, id)
    ensures var r := StoreSuperKey(t, user, alias, blob, blobMeta, meta, id);
            && r.Commit? && !r.needGc && r.out == id
            && r.db.entries == t.entries[id := EntryRow(Super, Some(APP), Some(user), Some(alias), Live, KEYSTORE_UUID)]
            && NewRow(t, r.db, BlobRow(KeyBlob, id, blob), blobMeta)
            && GetOr(r.db.keyMeta, id, map[]) == GetOr(t.keyMeta, id, map[]) + meta
            && (forall k :: k != id ==> GetOr(r.db.keyMeta, k, map[]) == GetOr(t.keyMeta, k, map[]))
            && r.db.params == t.params && r.db.grants == t.grants
  {
    var t1 := t.(entries := t.entries[id := SuperRow(APP, user, alias, KEYSTORE_UUID)]);
    NewSuperIsNewRow(t, AddKeyMeta(t1, id, meta), blob, blobMeta, id);
    InsertKeepsOthers(AddKeyMeta(t1, id, meta), id, KeyBlob, blob, Some(blobMeta));
    MergedMeta(t, t1, id, meta);
  }

  lemma InsertKeepsOthers(t: Tables, k: int, part: SubComponent, blob: Bytes, meta: Option<BlobMeta>)
    ensures var u := InsertBlob(t, k, part, blob, meta);
            u.entries == t.entries && u.params == t.params && u.keyMeta == t.keyMeta && u.grants == t.grants
  {
  }

  lemma MergedMeta(t: Tables, t1: Tables, id: int, meta: KeyMeta)
    requires t1 == t.(entries := t1.entries)
    ensures var u := AddKeyMeta(t1, id, meta);
            && u.entries == t1.entries && u.params == t.params && u.grants == t.grants
            && GetOr(u.keyMeta, id, map[]) == GetOr(t.keyMeta, id, map[]) + meta
            && forall k :: k != id ==> GetOr(u.keyMeta, k, map[]) == GetOr(t.keyMeta, k, map[])
  {
  }

  /** The one super key of a name is returned, and several of them are an error. */
  lemma SuperKeyIsFound(t: Tables, domain: Domain, nspace: int, alias: string, kmUuid: int,
                        created: Result<(Bytes, BlobMeta)>, id: int, k: int)
    requires Drawable(t.entries.Keys, id) && IsSuper(t, k, domain, nspace, alias)
    ensures GetOrCreateKeyWith(t, domain, nspace, alias, kmUuid, created, id)
            == if exists j :: IsSuper(t, j, domain, nspace, alias) && j != k then Abort(SystemError)
               else Commit(t, false, k)
  {
    var found := LiveBound(t, domain, nspace, alias, Super);
    assert k in found;
    if j :| IsSuper(t, j, domain, nspace, alias) && j != k {
      assert {j, k} <= found;
      SubsetSizes({j, k}, found);
    } else {
      forall j | j in found
        ensures j == k
      {
        assert IsSuper(t, j, domain, nspace, alias);
      }
      assert found == {k};
    }
  }

  /** If there is none a new one is made, provided that one could be created. */
  lemma SuperKeyIsMade(t: Tables, domain: Domain, nspace: int, alias: string, kmUuid: int,
                       created: Result<(Bytes, BlobMeta)>, id: int)
    requires Drawable(t.entries.Keys, id) && forall k :: !IsSuper(t, k, domain, nspace, alias)
    ensures var r := GetOrCreateKeyWith(t, domain, nspace, alias, kmUuid, created, id);
            if created.Err? then r == Abort(created.error)
            else
              && r.Commit? && !r.needGc && r.out == id
              && r.db.entries == t.entries[id := EntryRow(Super, Some(domain), Some(nspace), Some(alias), Live, kmUuid)]
              && NewRow(t, r.db, BlobRow(KeyBlob, id, created.value.0), created.value.1)
              && r.db.keyMeta == t.keyMeta && r.db.params == t.params && r.db.grants == t.grants
  {
    NoneIsLive(t, domain, nspace, alias);
    if created.Ok? {
      var t1 := t.(entries := t.entries[id := SuperRow(domain, nspace, alias, kmUuid)]);
      NewSuperIsNewRow(t, t1, created.value.0, created.value.1, id);
      InsertKeepsOthers(t1, id, KeyBlob, created.value.0, Some(created.value.1));
    }
  }

  lemma NoneIsLive(t: Tables, domain: Domain, nspace: int, alias: string)
    requires forall k :: !IsSuper(t, k, domain, nspace, alias)
    ensures LiveBound(t, domain, nspace, alias, Super) == {}
  {
    forall k
      ensures k !in LiveBound(t, domain, nspace, alias, Super)
    {
      assert !IsSuper(t, k, domain, nspace, alias);
    }
  }

  lemma NewSuperIsNewRow(t: Tables, t1: Tables, blob: Bytes, meta: BlobMeta, id: int)
    requires t1.blobs == t.blobs && t1.blobMeta == t.blobMeta
    ensures NewRow(t, InsertBlob(t1, id, KeyBlob, blob, Some(meta)), BlobRow(KeyBlob, id, blob), meta)
  {
    InsertIsNewRow(t1, id, KeyBlob, blob, Some(meta));
    var b :| NewRowAt(t1, InsertBlob(t1, id, KeyBlob, blob, Some(meta)), b, BlobRow(KeyBlob, id, blob), meta);
    assert NewRowAt(t, InsertBlob(t1, id, KeyBlob, blob, Some(meta)), b, BlobRow(KeyBlob, id, blob), meta);
  }
}
