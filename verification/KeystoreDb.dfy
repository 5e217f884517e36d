/**
 The database as the program drives it: statement by statement on the tables it holds, with
 loops where the program loops, and a rollback where a transaction fails.
 */
module KeystoreDb {
  import opened KeystoreTypes
  import opened KeystoreTables
  import opened KeystoreTx
  import opened KeystoreInvariants
  import opened GarbageCollector
  import opened GcChain
  import KeyIdLock

  /** Draws ids until one is usable, as far as the given draws go. */
  method FirstUsableId(draws: seq<int>, used: set<int>) returns (r: Option<int>)
    ensures r.Some? ==> Drawable(used, r.value)
    ensures r.Some? ==> exists i :: 0 <= i < |draws| && draws[i] == r.value
                                    && forall j :: 0 <= j < i ==> !Drawable(used, draws[j])
    ensures r.None? ==> forall j :: 0 <= j < |draws| ==> !Drawable(used, draws[j])
  {
    var i := 0;
    while i < |draws|
      invariant 0 <= i <= |draws|
      invariant forall j :: 0 <= j < i ==> !Drawable(used, draws[j])
    {
      if draws[i] != UNASSIGNED_KEY_ID && draws[i] !in used {
        return Some(draws[i]);
      }
      i := i + 1;
    }
    r := None;
  }

  method LargestRowId(s: set<int>) returns (m: int)
    requires s != {}
    ensures m == MaxOf(s)
  {
    HasMember(s);
    m :| m in s;
    var rest := s - {m};
    while rest != {}
      invariant m in s && rest <= s
      invariant forall x :: x in s && x !in rest ==> x <= m
      decreases |rest|
    {
      HasMember(rest);
      var x :| x in rest;
      if x > m {
        m := x;
      }
      rest := rest - {x};
    }
  }

  /** The outcome of a transaction: its result and its tables, or an error and the tables as before. */
  ghost predicate Outcome<T>(before: Tables, after: Tables, tx: Tx<T>, r: Result<T>, needGc: bool) {
    match tx
    case Commit(db, gc, out) => after == db && r == Ok(out) && needGc == gc
    case Abort(e) => after == before && r == Err(e)
  }

  class Database {
    var entries: map<int, EntryRow>
    var blobs: map<int, BlobRow>
    var blobMeta: map<int, BlobMeta>
    var params: map<int, seq<KeyParam>>
    var keyMeta: map<int, KeyMeta>
    var grants: map<int, GrantRow>

    function Db(): Tables
      reads this
    {
      Tables(entries, blobs, blobMeta, params, keyMeta, grants)
    }

    constructor ()
      ensures Inv(Db()) && Db() == NO_TABLES
    {
      entries, blobs, blobMeta, params, keyMeta, grants := map[], map[], map[], map[], map[], map[];
    }

    method Restore(t: Tables)
      modifies this
      ensures Db() == t
    {
      entries, blobs, blobMeta := t.entries, t.blobs, t.blobMeta;
      params, keyMeta, grants := t.params, t.keyMeta, t.grants;
    }

    method SetBlobInternal(k: int, part: SubComponent, blob: Option<Bytes>, meta: Option<BlobMeta>)
      returns (r: Result<()>)
      modifies this
      ensures match SetBlob(old(Db()), k, part, blob, meta)
              case Ok(u) => Db() == u && r == Ok(())
              case Err(e) => Db() == old(Db()) && r == Err(e)
    {
      if blob.Some? {
        var id := 1;
        if blobs.Keys != {} {
          var top := LargestRowId(blobs.Keys);
          id := top + 1;
        }
        blobs := blobs[id := BlobRow(part, k, blob.value)];
        if meta.Some? {
          assert id in blobs.Keys;
          var newest := LargestRowId(blobs.Keys);
          assert newest == id;
          blobMeta := MergeMeta(blobMeta, newest, meta.value);
        }
        r := Ok(());
      } else if part == Cert || part == CertChain {
        blobs := map b | b in blobs && !(blobs[b].part == part && blobs[b].keyId == k) :: blobs[b];
        r := Ok(());
      } else {
        r := Err(SystemError);
      }
    }

    method UnbindAlias(alias: string, domain: Domain, nspace: int, keyType: KeyType) returns (updated: bool)
      modifies this`entries
      ensures Db() == DisplaceAlias(old(Db()), domain, nspace, alias, keyType)
      ensures updated <==> Displaced(old(Db()), domain, nspace, alias, keyType) != {}
    {
      var bound := set k | k in entries && Bound(entries[k], domain, nspace, alias, keyType);
      entries := map k | k in entries :: if k in bound then Unbound(entries[k]) else entries[k];
      updated := bound != {};
    }

    /** Takes the alias away from whoever has it and gives it to the new entry. */
    method RebindAliasInternal(id: int, alias: string, domain: Domain, nspace: int, keyType: KeyType)
      returns (r: Result<bool>)
      modifies this`entries
      ensures match RebindAlias(old(Db()), id, alias, domain, nspace, keyType)
              case Commit(u, gc, _) => Db() == u && r == Ok(gc)
              case Abort(e) => r == Err(e)
    {
      if domain != APP && domain != SELINUX {
        return Err(SystemError);
      }
      var updated := UnbindAlias(alias, domain, nspace, keyType);
      if !Rebindable(Db(), id, domain, nspace, keyType) {
        return Err(SystemError);
      }
      entries := entries[id := entries[id].(alias := Some(alias), state := Live)];
      r := Ok(updated);
    }

    method InsertNewBlobs(id: int, k: NewKey)
      modifies this
      ensures Db() == InsertBlobs(old(Db()), id, k)
    {
      var stored := SetBlobInternal(id, KeyBlob, Some(k.blob), Some(k.blobMeta));
      if k.cert.Some? {
        stored := SetBlobInternal(id, Cert, k.cert, None);
      }
      if k.certChain.Some? {
        stored := SetBlobInternal(id, CertChain, k.certChain, None);
      }
    }

    method InsertContents(id: int, k: NewKey)
      modifies this
      ensures Db() == Populate(old(Db()), id, k)
    {
      InsertNewBlobs(id, k);
      AddParameters(id, k.params);
      keyMeta := MergeMeta(keyMeta, id, k.metadata);
    }

    /** Inserts the entry and then takes the lock on its id, for which the call has to wait if a guard exists. */
    method CreateKeyEntryInternal(domain: Domain, nspace: int, keyType: KeyType, kmUuid: int, id: int,
                                  lock: KeyIdLock.KeyIdLockDb)
      returns (r: Result<int>, waits: bool)
      requires Drawable(entries.Keys, id)
      modifies this`entries, lock
      ensures Outcome(old(Db()), Db(), CreateKeyEntry(old(Db()), domain, nspace, keyType, kmUuid, id), r, false)
      ensures waits <==> r.Ok? && id in old(lock.locked)
      ensures lock.locked == if r.Ok? then old(lock.locked) + {id} else old(lock.locked)
    {
      if domain != APP && domain != SELINUX {
        return Err(SystemError), false;
      }
      entries := entries[id := EntryRow(keyType, Some(domain), Some(nspace), None, Existing, kmUuid)];
      var acquired := lock.TryGet(id, KeyIdLock.World(Db(), lock.locked, map[], map[], None), 0);
      return Ok(id), !acquired;
    }

    /** The part of the transaction that follows once the entry is there and its id locked. */
    method FillAndBind(key: KeyDescriptor, keyType: KeyType, k: NewKey, id: int) returns (r: Result<bool>)
      requires key.alias.Some?
      modifies this
      ensures match RebindAlias(Populate(old(Db()), id, k), id, key.alias.value, key.domain, key.nspace, keyType)
              case Commit(u, gc, _) => Db() == u && r == Ok(gc)
              case Abort(e) => r == Err(e)
    {
      InsertContents(id, k);
      r := RebindAliasInternal(id, key.alias.value, key.domain, key.nspace, keyType);
    }

    /**
     Stores a key in one transaction and leaves its id locked. There is no result while a guard on the id exists:
     the call waits with the transaction open, and others see the tables as before.
     */
    method StoreNewKey(key: KeyDescriptor, keyType: KeyType, k: NewKey, id: int, lock: KeyIdLock.KeyIdLockDb)
      returns (r: Option<Result<int>>, needGc: bool)
      requires Drawable(entries.Keys, id)
      modifies this, lock
      ensures r.None? <==> Storable(key) && id in old(lock.locked)
      ensures r.None? ==> Db() == old(Db())
      ensures r.Some? ==>
                Outcome(old(Db()), Db(), KeystoreTx.StoreNewKey(old(Db()), key, keyType, k, id), r.value, needGc)
      ensures lock.locked == if r.Some? && r.value.Ok? then old(lock.locked) + {id} else old(lock.locked)
    {
      if !Storable(key) {
        return Some(Err(InvalidArgument)), false;
      }
      var before := Db();
      var created, waits := CreateKeyEntryInternal(key.domain, key.nspace, keyType, k.kmUuid, id, lock);
      if waits {
        Restore(before);
        return None, false;
      }
      var bound := FillAndBind(key, keyType, k, id);
      if bound.Err? {
        Restore(before);
        lock.Release(id, KeyIdLock.World(before, lock.locked, map[0 := id], map[], None), 0);
        return Some(Err(bound.error)), false;
      }
      return Some(Ok(id)), bound.value;
    }

    /** Inserts parameter rows one by one. */
    method AddParameters(id: int, ps: seq<KeyParam>)
      modifies this`params
      ensures Db() == AddParams(old(Db()), id, ps)
    {
      ghost var rows := GetOr(params, id, []);
      params := params[id := GetOr(params, id, [])];
      var i := 0;
      while i < |ps|
        invariant 0 <= i <= |ps|
        invariant id in params && params[id] == rows + ps[..i]
        invariant params == old(params)[id := params[id]]
      {
        assert rows + ps[..i + 1] == (rows + ps[..i]) + [ps[i]];
        params := params[id := params[id] + [ps[i]]];
        i := i + 1;
      }
      assert ps[..i] == ps;
    }

    method MarkUnreferenced(k: int) returns (updated: bool)
      modifies this
      ensures Db() == DeleteEntries(old(Db()), {k})
      ensures updated <==> k in old(entries)
    {
      updated := k in entries;
      entries := entries - {k};
      keyMeta := keyMeta - {k};
      params := params - {k};
      grants := map g | g in grants && grants[g].keyId != k :: grants[g];
    }

    /** Removes the keys of a user one by one, sparing those not protected by the user's secret if asked to. */
    method UnbindKeysForUser(user: int, keep: bool) returns (needGc: bool)
      modifies this
      ensures Outcome(old(Db()), Db(), KeystoreTx.UnbindKeysForUser(old(Db()), user, keep), Ok(()), needGc)
    {
      var keys := set k | k in entries && OfUser(entries[k], user);
      ghost var gone;
      needGc, gone := UnbindListed(keys, user, keep);
    }

    method UnbindListed(keys: set<int>, user: int, keep: bool) returns (needGc: bool, ghost gone: set<int>)
      requires keys == set k | k in entries && OfUser(entries[k], user)
      modifies this
      ensures gone == KeysOfUser(old(Db()), user, keep)
      ensures Db() == DeleteEntries(old(Db()), gone)
      ensures needGc <==> gone != {}
    {
      var todo := keys;
      ghost var t := Db();
      needGc, gone := false, {};
      StartHalfway(t, keys, user, keep);
      while todo != {}
        invariant Db() == DeleteEntries(t, gone)
        invariant Halfway(t, gone, todo, user, keep)
        invariant needGc <==> gone != {}
        decreases |todo|
      {
        HasMember(todo);
        var k :| k in todo;
        OneFurther(t, gone, todo, user, keep, k);
        todo := todo - {k};
        var updated := UnbindUserKey(k, keep);
        if updated {
          DeleteMore(t, gone, k);
          needGc := true;
          gone := gone + {k};
        }
      }
    }

    method UnbindUserKey(k: int, keep: bool) returns (updated: bool)
      requires k in entries
      modifies this
      ensures updated <==> !(keep && NotSuperEncrypted(old(Db()), k))
      ensures Db() == if updated then DeleteEntries(old(Db()), {k}) else old(Db())
    {
      if keep {
        var plain := HasPlainKeyBlob(k);
        if plain {
          return false;
        }
      }
      updated := MarkUnreferenced(k);
    }

    /** Whether the current key blob carries no encryption key reference. */
    method HasPlainKeyBlob(k: int) returns (r: bool)
      ensures r <==> NotSuperEncrypted(Db(), k)
    {
      var rows := set b | b in blobs && blobs[b].keyId == k && blobs[b].part == KeyBlob;
      assert rows == Filling(Db(), k, KeyBlob);
      if rows == {} {
        return false;
      }
      var newest := LargestRowId(rows);
      r := EncryptedBy !in GetOr(blobMeta, newest, map[]);
    }

    /** Uses a limited use key once. */
    method CheckAndUpdateKeyUsageCount(k: int) returns (r: Result<()>, needGc: bool)
      modifies this
      ensures Outcome(old(Db()), Db(), UseOnce(old(Db()), k), r, needGc)
    {
      var before := Db();
      var rows := GetOr(params, k, []);
      var i := 0;
      while i < |rows| && rows[i].tag != UsageCountLimit
        invariant 0 <= i <= |rows|
        invariant FirstLimit(rows) == FirstLimit(rows[i..])
      {
        i := i + 1;
      }
      if i == |rows| {
        assert rows[i..] == [];
        return Err(InvalidKeyBlob), false;
      }
      var limit := rows[i].data;
      assert FirstLimit(rows[i..]) == Some(limit);
      if !limit.IntValue? {
        return Err(SystemError), false;
      }
      var j := 0;
      var updated := rows;
      while j < |rows|
        invariant 0 <= j <= |rows| == |updated|
        invariant updated == CountDown(rows)[..j] + rows[j..]
      {
        updated := updated[j := CountedDown(rows[j])];
        j := j + 1;
      }
      assert updated == CountDown(rows);
      params := params[k := updated];
      if limit.i == 1 {
        needGc := MarkUnreferenced(k);
        r := Ok(());
      } else if limit.i == 0 {
        Restore(before);
        return Err(InvalidKeyBlob), false;
      } else {
        return Ok(()), false;
      }
    }

    method DeleteBlobRows(done: seq<int>)
      modifies this`blobs, this`blobMeta
      ensures Db() == DeleteBlobs(old(Db()), AsSet(done))
    {
      var i := 0;
      while i < |done|
        invariant 0 <= i <= |done|
        invariant blobs == old(blobs) - AsSet(done[..i])
        invariant blobMeta == old(blobMeta) - AsSet(done[..i])
      {
        assert AsSet(done[..i + 1]) == AsSet(done[..i]) + {done[i]};
        blobMeta := blobMeta - {done[i]};
        blobs := blobs - {done[i]};
        i := i + 1;
      }
      assert done[..i] == done;
    }

    /** Up to `max` key blobs that are superseded or orphaned. */
    method FindGarbage(max: nat) returns (picked: seq<int>)
      ensures Pick(Db(), picked, max)
    {
      var garbage := set b | b in blobs && GarbageKeyBlob(Db(), b);
      picked := [];
      while garbage != {} && |picked| < max
        invariant Distinct(picked) && |picked| <= max
        invariant forall j :: 0 <= j < |picked| ==> GarbageKeyBlob(Db(), picked[j]) && picked[j] !in garbage
        invariant forall b :: b in garbage ==> GarbageKeyBlob(Db(), b)
        invariant forall b :: GarbageKeyBlob(Db(), b) ==> b in garbage || b in picked
        decreases |garbage|
      {
        HasMember(garbage);
        var b :| b in garbage;
        picked := picked + [b];
        garbage := garbage - {b};
      }
    }

    /** Deletes the blobs the collector is done with and finds the next ones for it to handle. */
    method HandleNextSuperseded(done: seq<int>, max: nat) returns (picked: seq<int>)
      modifies this
      ensures Pick(Swept(old(Db()), AsSet(done)), picked, max)
      ensures Db() == HandleSuperseded(old(Db()), AsSet(done), picked).db
    {
      DeleteBlobRows(done);
      CleanupUnreferenced();
      picked := FindGarbage(max);
      if picked == [] {
        DeleteGarbageCertificates();
      }
    }

    method DeleteGarbageCertificates()
      modifies this`blobs
      ensures Db() == PurgeCertificates(old(Db()))
    {
      blobs := map b | b in blobs && !(blobs[b].part != KeyBlob && Garbage(Db(), b)) :: blobs[b];
    }

    /** Reads the blobs found, with their metadata. */
    method ReadBlobs(ids: seq<int>) returns (found: seq<SupersededBlob>)
      requires forall i :: 0 <= i < |ids| ==> ids[i] in blobs
      ensures found == Recall(Db(), ids)
    {
      found := [];
      var i := 0;
      while i < |ids|
        invariant 0 <= i == |found| <= |ids|
        invariant forall j :: 0 <= j < i ==> found[j] == Remember(Db(), ids[j])
      {
        found := found + [SupersededBlob(ids[i], blobs[ids[i]].blob, GetOr(blobMeta, ids[i], map[]))];
        i := i + 1;
      }
      RecallIs(Db(), ids, found);
    }

    method CleanupUnreferenced()
      modifies this
      ensures Db() == DeleteEntries(old(Db()), UnreferencedIds(old(Db())))
    {
      var dead := set k | k in entries && entries[k].state == Unreferenced;
      keyMeta := keyMeta - dead;
      params := params - dead;
      grants := map g | g in grants && grants[g].keyId !in dead :: grants[g];
      entries := entries - dead;
    }

    /** The one live entry that carries an alias. */
    method LoadEntryId(key: KeyDescriptor, keyType: KeyType) returns (r: Result<int>)
      ensures r == LoadKeyEntryId(Db(), key, keyType)
    {
      if key.alias.None? {
        return Err(SystemError);
      }
      var found := LiveBound(Db(), key.domain, key.nspace, key.alias.value, keyType);
      if |found| == 1 {
        HasMember(found);
        var k :| k in found;
        assert |found - {k}| == 0;
        return Ok(k);
      }
      r := Err(if found == {} then KeyNotFound else SystemError);
    }

    /** The access vector of a grantee, if there is a grant. */
    method LoadAccess(k: int, grantee: int) returns (r: Option<AccessVector>)
      requires OneGrantPerGrantee(Db())
      ensures r == AccessOf(Db(), k, grantee)
    {
      var found := GrantsOf(Db(), k, grantee);
      if found == {} {
        return None;
      }
      HasMember(found);
      var g :| g in found;
      TheGrant(Db(), k, grantee, g);
      r := Some(grants[g].access);
    }

    method LoadTuple(key: KeyDescriptor, keyType: KeyType, caller: int) returns (r: Result<AccessTuple>)
      requires OneGrantPerGrantee(Db())
      ensures r == LoadAccessTuple(Db(), key, keyType, caller)
    {
      match key.domain {
        case APP =>
          var accessKey := key.(nspace := caller);
          var id := LoadEntryId(accessKey, keyType);
          r := if id.Err? then Err(id.error) else Ok(AccessTuple(id.value, accessKey, None));
        case SELINUX =>
          var id := LoadEntryId(key, keyType);
          r := if id.Err? then Err(id.error) else Ok(AccessTuple(id.value, key, None));
        case GRANT =>
          if key.nspace in grants && grants[key.nspace].grantee == caller && IsLive(Db(), grants[key.nspace].keyId) {
            r := Ok(AccessTuple(grants[key.nspace].keyId, key, Some(grants[key.nspace].access)));
          } else {
            r := Err(KeyNotFound);
          }
        case KEY_ID =>
          if !IsLive(Db(), key.nspace) {
            return Err(KeyNotFound);
          }
          var row := entries[key.nspace];
          if row.domain.None? || row.nspace.None? {
            return Err(SystemError);
          }
          var access := None;
          if row.domain.value != APP || row.nspace.value != caller {
            access := LoadAccess(key.nspace, caller);
          }
          r := Ok(AccessTuple(key.nspace, key.(domain := row.domain.value, nspace := row.nspace.value), access));
        case BLOB => r := Err(SystemError);
      }
    }

    /** Grants access to a key, or changes the access of a grant that exists; `permitted` is the caller's permission. */
    method Grant(key: KeyDescriptor, caller: int, grantee: int, access: AccessVector, permitted: bool, id: int)
      returns (r: Result<int>)
      requires Integrity(Db()) && Drawable(grants.Keys, id)
      modifies this`grants
      ensures Outcome(old(Db()), Db(), GrantKey(old(Db()), key, caller, grantee, access, permitted, id), r, false)
      ensures Integrity(Db())
    {
      ghost var t := Db();
      GrantKeepsIntegrity(t, key, caller, grantee, access, permitted, id);
      var a := LoadTuple(key, Client, caller);
      if a.Err? {
        return Err(a.error);
      }
      if !permitted {
        return Err(PermissionDenied);
      }
      var existing := GrantsOf(Db(), a.value.keyId, grantee);
      if existing != {} {
        HasMember(existing);
        var g :| g in existing;
        TheGrant(t, a.value.keyId, grantee, g);
        grants := grants[g := grants[g].(access := access)];
        r := Ok(g);
      } else {
        grants := grants[id := GrantRow(grantee, a.value.keyId, access)];
        r := Ok(id);
      }
    }

    method Ungrant(key: KeyDescriptor, caller: int, grantee: int, permitted: bool) returns (r: Result<()>)
      requires OneGrantPerGrantee(Db())
      modifies this`grants
      ensures Outcome(old(Db()), Db(), UngrantKey(old(Db()), key, caller, grantee, permitted), r, false)
    {
      var a := LoadTuple(key, Client, caller);
      if a.Err? {
        return Err(a.error);
      }
      if !permitted {
        return Err(PermissionDenied);
      }
      grants := grants - GrantsOf(Db(), a.value.keyId, grantee);
      r := Ok(());
    }
  }

  lemma TheGrant(t: Tables, k: int, grantee: int, g: int)
    requires OneGrantPerGrantee(t) && g in GrantsOf(t, k, grantee)
    ensures GrantsOf(t, k, grantee) == {g} && AnyOf(GrantsOf(t, k, grantee)) == g
  {
    var s := GrantsOf(t, k, grantee);
    forall h | h in s
      ensures h == g
    {
      assert t.grants[h].keyId == t.grants[g].keyId && t.grants[h].grantee == t.grants[g].grantee;
    }
    assert s == {g};
  }

  lemma GrantKeepsIntegrity(t: Tables, key: KeyDescriptor, caller: int, grantee: int, access: AccessVector,
                            permitted: bool, id: int)
    requires Integrity(t) && Drawable(t.grants.Keys, id)
    ensures var r := GrantKey(t, key, caller, grantee, access, permitted, id);
            (r.Commit? ==> Integrity(r.db)) && (r.Commit? ==> !r.needGc)
  {
    if GrantKey(t, key, caller, grantee, access, permitted, id).Commit? {
      GrantInv(t, key, caller, grantee, access, permitted, id);
    }
  }

  /** The keys of a user that are gone and those still to be looked at. */
  ghost predicate Halfway(t: Tables, gone: set<int>, todo: set<int>, user: int, keep: bool) {
    && todo !! gone && gone <= KeysOfUser(t, user, keep) <= gone + todo
    && forall k :: k in todo ==> k in t.entries && OfUser(t.entries[k], user)
  }

  lemma StartHalfway(t: Tables, keys: set<int>, user: int, keep: bool)
    requires keys == set k | k in t.entries && OfUser(t.entries[k], user)
    ensures Halfway(t, {}, keys, user, keep) && DeleteEntries(t, {}) == t
  {
  }

  lemma OneFurther(t: Tables, gone: set<int>, todo: set<int>, user: int, keep: bool, k: int)
    requires Halfway(t, gone, todo, user, keep) && k in todo
    ensures k in DeleteEntries(t, gone).entries
    ensures NotSuperEncrypted(DeleteEntries(t, gone), k) <==> NotSuperEncrypted(t, k)
    ensures if keep && NotSuperEncrypted(t, k) then Halfway(t, gone, todo - {k}, user, keep)
            else Halfway(t, gone + {k}, todo - {k}, user, keep)
  {
    PlainAfterDeletion(t, gone, k);
  }

  lemma DeleteMore(t: Tables, gone: set<int>, k: int)
    ensures DeleteEntries(DeleteEntries(t, gone), {k}) == DeleteEntries(t, gone + {k})
  {
  }

  lemma PlainAfterDeletion(t: Tables, gone: set<int>, k: int)
    ensures NotSuperEncrypted(DeleteEntries(t, gone), k) <==> NotSuperEncrypted(t, k)
  {
    SameBlobsSameCurrent(t, DeleteEntries(t, gone), k, KeyBlob);
  }

  /** The collector's worker state and the flag it shares with those who notify it. */
  class Collector {
    var superseded: seq<SupersededBlob>
    var deleted: seq<int>
    var notified: bool
    const db: Database

    constructor (db: Database)
      ensures this.db == db && Mem() == EMPTY_MEMORY && !notified
    {
      this.db, superseded, deleted, notified := db, [], [], false;
    }

    function Mem(): Memory
      reads this
    {
      Memory(superseded, deleted)
    }

    /** Asks the database for the next batch and hands it the ids that are done. */
    method Fetch() returns (ghost picked: seq<int>)
      requires superseded == []
      modifies this`superseded, this`deleted, db
      ensures Answers(old(db.Db()), old(Mem()), picked)
      ensures db.Db() == FetchDb(old(db.Db()), old(Mem()), picked)
      ensures Mem() == FetchMemory(old(db.Db()), old(Mem()), picked)
    {
      ghost var u := Swept(db.Db(), AsSet(deleted));
      var ids := db.HandleNextSuperseded(deleted, MAX_BLOBS);
      picked := ids;
      deleted := [];
      if ids != [] {
        assert db.Db() == u;
        superseded := db.ReadBlobs(ids);
      }
    }

    /**
     Handles one blob, fetching a new batch when there is none in stock. What is returned is the
     blob to be invalidated; it will be deleted even if that fails.
     */
    method ProcessOneKey() returns (handled: Option<SupersededBlob>, ghost picked: seq<int>)
      modifies this`superseded, this`deleted, db
      ensures Answers(old(db.Db()), old(Mem()), picked)
      ensures db.Db() == FetchDb(old(db.Db()), old(Mem()), picked)
      ensures Mem() == Pop(FetchMemory(old(db.Db()), old(Mem()), picked))
      ensures handled == (var s := FetchMemory(old(db.Db()), old(Mem()), picked).superseded;
                          if s == [] then None else Some(s[|s| - 1]))
    {
      picked := [];
      if superseded == [] {
        picked := Fetch();
      }
      if superseded == [] {
        return None, picked;
      }
      var last := superseded[|superseded| - 1];
      superseded := superseded[..|superseded| - 1];
      deleted := deleted + [last.id];
      handled := Some(last);
    }

    /** One step; the answer says whether the worker has to queue another one. */
    method Step() returns (queueAgain: bool)
      requires Safe(db.Db(), Mem())
      modifies this, db
      ensures Safe(db.Db(), Mem())
      ensures queueAgain == notified == (deleted != [])
      ensures deleted == [] ==> NoGarbage(db.Db())
    {
      notified := false;
      ghost var t, g := db.Db(), Mem();
      var handled, picked := ProcessOneKey();
      FetchKeepsSafe(t, g, picked);
      PopKeepsSafe(db.Db(), FetchMemory(t, g, picked));
      if deleted == [] {
        StopsOnlyWhenClean(t, g, picked);
      }
      queueAgain := false;
      if deleted != [] && !notified {
        notified := true;
        queueAgain := true;
      }
    }

    /** Step after step until no other one is to be queued, with no one else at work. */
    method Drain() returns (steps: nat)
      requires Safe(db.Db(), Mem())
      modifies this, db
      ensures steps == |Pending(old(db.Db()), old(Mem()))| + 1
      ensures NoGarbage(db.Db()) && deleted == []
    {
      steps := 0;
      var again := true;
      ghost var n := |Pending(db.Db(), Mem())|;
      while again
        invariant if again then Safe(db.Db(), Mem()) && steps + |Pending(db.Db(), Mem())| == n
                  else steps == n + 1 && NoGarbage(db.Db()) && deleted == []
        decreases again, |Pending(db.Db(), Mem())|
      {
        ghost var t, g := db.Db(), Mem();
        var handled, picked := ProcessOneKey();
        StepFrom(t, g, db.Db(), Mem(), picked);
        again := deleted != [];
        steps := steps + 1;
      }
    }
  }

  ghost function Remember(t: Tables, b: int): SupersededBlob
    requires b in t.blobs
  {
    SupersededBlob(b, t.blobs[b].blob, GetOr(t.blobMeta, b, map[]))
  }

  lemma {:induction false} RecallIs(t: Tables, ids: seq<int>, found: seq<SupersededBlob>)
    requires forall i :: 0 <= i < |ids| ==> ids[i] in t.blobs
    requires |found| == |ids| && forall i :: 0 <= i < |ids| ==> found[i] == Remember(t, ids[i])
    ensures Recall(t, ids) == found
    decreases |ids|
  {
    if ids != [] {
      RecallIs(t, ids[1..], found[1..]);
      assert found == [found[0]] + found[1..];
    }
  }

  lemma StepFrom(t: Tables, g: Memory, u: Tables, h: Memory, picked: seq<int>)
    requires Safe(t, g) && Answers(t, g, picked) && u == FetchDb(t, g, picked) && h == Pop(FetchMemory(t, g, picked))
    ensures h.deleted == [] ==> Pending(t, g) == {} && NoGarbage(u)
    ensures h.deleted != [] ==> Safe(u, h) && |Pending(t, g)| == |Pending(u, h)| + 1
  {
    var s, r := StagesOf(t, g, u, h, picked);
    OneStep(s, r, Pending(t, g));
  }

  lemma StagesOf(t: Tables, g: Memory, u: Tables, h: Memory, picked: seq<int>) returns (s: Stage, r: Stage)
    requires Answers(t, g, picked) && u == FetchDb(t, g, picked) && h == Pop(FetchMemory(t, g, picked))
    ensures s == Stage(t, g, []) && r.t == u && r.g == h && GcChain.Step(s, r)
  {
    var g1 := FetchMemory(t, g, picked);
    var handled := if g1.superseded == [] then [] else [g1.superseded[|g1.superseded| - 1].id];
    s, r := Stage(t, g, []), Stage(u, h, handled);
    assert StepTo(s, r, picked);
  }

  lemma StopsOnlyWhenClean(t: Tables, g: Memory, picked: seq<int>)
    requires Safe(t, g) && Answers(t, g, picked) && Pop(FetchMemory(t, g, picked)).deleted == []
    ensures NoGarbage(FetchDb(t, g, picked))
  {
    assert g.superseded == [] && picked == [];
    EmptyAnswerMeansClean(t, g);
  }
}
