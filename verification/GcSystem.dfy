/**
 Clients and the collector together: every interleaving of database calls, notifications,
 queueing and collector steps.
 */
module GcSystem {
  import opened KeystoreTypes
  import opened KeystoreTables
  import opened KeystoreTx
  import opened KeystoreInvariants
  import opened GarbageCollector
  import opened GcChain
  import opened AttestationPool

  // ---------------------------------------------------------------- calls that owe a notification

  /** Nothing is garbage that was not garbage before. */
  ghost predicate NoNewGarbage(t: Tables, u: Tables) {
    && UnreferencedIds(u) <= UnreferencedIds(t)
    && (forall b :: b in u.blobs && Garbage(u, b) ==> b in t.blobs && Garbage(t, b))
  }

  lemma CleanStaysClean(t: Tables, u: Tables)
    requires NoGarbage(t) && NoNewGarbage(t, u)
    ensures NoGarbage(u)
  {
  }

  /** `u` adds blobs of existing entries to `t`, each the newest of its slot, in slots that held orphans at most. */
  ghost predicate QuietExtension(t: Tables, u: Tables) {
    && t.entries.Keys <= u.entries.Keys
    && UnreferencedIds(u) <= UnreferencedIds(t)
    && (forall b :: b in t.blobs ==> b in u.blobs && u.blobs[b] == t.blobs[b])
    && (forall b :: b in u.blobs && b !in t.blobs ==> u.blobs[b].keyId in u.entries && Current(u, b))
    && (forall b, c :: b in u.blobs && b !in t.blobs && c in t.blobs && SameSlot(u.blobs[b], u.blobs[c]) ==>
          Orphaned(t, c))
  }

  lemma QuietExtensionAddsNoGarbage(t: Tables, u: Tables)
    requires QuietExtension(t, u)
    ensures NoNewGarbage(t, u)
  {
    forall b | b in u.blobs && Garbage(u, b)
      ensures b in t.blobs && Garbage(t, b)
    {
      if !Current(u, b) {
        var c :| c in u.blobs && SameSlot(u.blobs[b], u.blobs[c]) && c > b;
        assert c in t.blobs ==> SameSlot(t.blobs[b], t.blobs[c]);
        assert SameSlot(u.blobs[c], u.blobs[b]);
      }
    }
  }

  /** `u` extends `t` by blobs of one key, each the newest of its part. */
  ghost predicate AddsParts(t: Tables, u: Tables, id: int) {
    && (forall b :: b in t.blobs ==> b in u.blobs && u.blobs[b] == t.blobs[b])
    && (forall b :: b in u.blobs && b !in t.blobs ==> u.blobs[b].keyId == id && Current(u, b))
  }

  ghost predicate NoNewPart(t: Tables, u: Tables, id: int, part: SubComponent) {
    forall c :: Fills(u, c, id, part) ==> c in t.blobs
  }

  lemma AddPart(t: Tables, u: Tables, id: int, part: SubComponent, blob: Option<Bytes>)
    requires AddsParts(t, u, id) && NoNewPart(t, u, id, part)
    ensures AddsParts(t, InsertIfAny(u, id, part, blob), id)
    ensures forall p :: p != part && NoNewPart(t, u, id, p) ==> NoNewPart(t, InsertIfAny(u, id, part, blob), id, p)
  {
    if blob.Some? {
      var v := InsertIfAny(u, id, part, blob);
      var n := NextBlobId(u.blobs);
      forall b, c | b in v.blobs && b !in t.blobs && c in v.blobs && SameSlot(v.blobs[b], v.blobs[c])
        ensures c <= b
      {
        assert b != n && c == n ==> Fills(u, b, id, part);
        assert b != n && c != n ==> SameSlot(u.blobs[b], u.blobs[c]);
      }
      forall p, c | p != part && NoNewPart(t, u, id, p) && Fills(v, c, id, p)
        ensures c in t.blobs
      {
        assert Fills(u, c, id, p);
      }
    }
  }

  lemma InsertBlobsAddsParts(t: Tables, id: int, k: NewKey)
    ensures AddsParts(t, InsertBlobs(t, id, k), id)
  {
    var t1 := InsertBlob(t, id, KeyBlob, k.blob, Some(k.blobMeta));
    AddPart(t, t, id, KeyBlob, Some(k.blob));
    var plain := InsertIfAny(t, id, KeyBlob, Some(k.blob));
    assert t1.blobs == plain.blobs;
    SamePartsAdded(t, plain, t1, id);
    forall c, p | p != KeyBlob && Fills(t1, c, id, p)
      ensures c in t.blobs
    {
    }
    AddPart(t, t1, id, Cert, k.cert);
    AddPart(t, InsertIfAny(t1, id, Cert, k.cert), id, CertChain, k.certChain);
  }

  lemma SamePartsAdded(t: Tables, u: Tables, v: Tables, id: int)
    requires AddsParts(t, u, id) && v.blobs == u.blobs
    ensures AddsParts(t, v, id)
  {
    forall b | b in v.blobs && b !in t.blobs
      ensures Current(v, b)
    {
      assert Current(u, b);
    }
  }

  /** Blobs for a key that had no entry, or no blob of these parts, are a quiet extension. */
  lemma PartsAreQuiet(t: Tables, u: Tables, id: int)
    requires AddsParts(t, u, id) && id in u.entries
    requires t.entries.Keys <= u.entries.Keys && UnreferencedIds(u) <= UnreferencedIds(t)
    requires || id !in t.entries
             || forall b, c :: b in u.blobs && b !in t.blobs && c in t.blobs ==> !SameSlot(u.blobs[b], t.blobs[c])
    ensures NoNewGarbage(t, u)
  {
    assert QuietExtension(t, u);
    QuietExtensionAddsNoGarbage(t, u);
  }

  lemma QuietStoreNewKey(t: Tables, u: Tables, key: KeyDescriptor, keyType: KeyType, k: NewKey, id: int)
    requires id !in t.entries && key.alias.Some? && Stored(t, u, key, keyType, k, id)
    requires Displaced(t, key.domain, key.nspace, key.alias.value, keyType) == {}
    ensures NoNewGarbage(t, u)
  {
    InsertBlobsAddsParts(t, id, k);
    SamePartsAdded(t, InsertBlobs(t, id, k), u, id);
    forall j | j in UnreferencedIds(u)
      ensures j in UnreferencedIds(t)
    {
      assert j !in Displaced(t, key.domain, key.nspace, key.alias.value, keyType);
    }
    PartsAreQuiet(t, u, id);
  }

  lemma QuietStoreNewCertificate(t: Tables, key: KeyDescriptor, keyType: KeyType, cert: Bytes, kmUuid: int, now: int,
                                 id: int)
    requires Drawable(t.entries.Keys, id)
    requires StoreNewCertificate(t, key, keyType, cert, kmUuid, now, id).Commit?
    requires !StoreNewCertificate(t, key, keyType, cert, kmUuid, now, id).needGc
    ensures NoNewGarbage(t, StoreNewCertificate(t, key, keyType, cert, kmUuid, now, id).db)
  {
    var u := StoreNewCertificate(t, key, keyType, cert, kmUuid, now, id).db;
    AddPart(t, t, id, CertChain, Some(cert));
    SamePartsAdded(t, InsertIfAny(t, id, CertChain, Some(cert)), u, id);
    assert u.entries.Keys == t.entries.Keys + {id};
    forall j | j in UnreferencedIds(u)
      ensures j in UnreferencedIds(t)
    {
    }
    PartsAreQuiet(t, u, id);
  }

  lemma QuietNewEntry(t: Tables, u: Tables, row: EntryRow, id: int, blob: Option<Bytes>)
    requires id !in t.entries && row.state != Unreferenced
    requires u.entries == t.entries[id := row] && u.blobs == InsertIfAny(t, id, KeyBlob, blob).blobs
    ensures NoNewGarbage(t, u)
  {
    AddPart(t, t, id, KeyBlob, blob);
    SamePartsAdded(t, InsertIfAny(t, id, KeyBlob, blob), u, id);
    PartsAreQuiet(t, u, id);
  }

  lemma QuietStoreSigned(t: Tables, rawKey: Bytes, cert: Bytes, chain: Bytes, expiration: int, kmUuid: int)
    requires PoolInv(t) && StoreSignedChain(t, rawKey, cert, chain, expiration, kmUuid).Commit?
    ensures NoNewGarbage(t, StoreSignedChain(t, rawKey, cert, chain, expiration, kmUuid).db)
  {
    var u := StoreSignedChain(t, rawKey, cert, chain, expiration, kmUuid).db;
    var k := TheOne(AwaitingSignature(t, rawKey, kmUuid)).value;
    assert k in AwaitingSignature(t, rawKey, kmUuid);
    AwaitingIsUnsigned(t, rawKey, kmUuid, k);
    assert WellFormedKey(t, k);
    SignedPartsAreQuiet(t, u, k, cert, chain);
  }

  lemma SameStatesSameUnreferenced(t: Tables, u: Tables)
    requires u.entries.Keys == t.entries.Keys && forall j :: j in u.entries ==> u.entries[j].state == t.entries[j].state
    ensures UnreferencedIds(u) == UnreferencedIds(t)
  {
    forall j
      ensures j in UnreferencedIds(u) <==> j in UnreferencedIds(t)
    {
    }
  }

  lemma SignedPartsAreQuiet(t: Tables, u: Tables, k: int, cert: Bytes, chain: Bytes)
    requires k in t.entries && NoneOf(t, k, Cert) && NoneOf(t, k, CertChain)
    requires u.entries.Keys == t.entries.Keys && forall j :: j in u.entries ==> u.entries[j].state == t.entries[j].state
    requires u.blobs == InsertIfAny(InsertIfAny(t, k, CertChain, Some(chain)), k, Cert, Some(cert)).blobs
    ensures NoNewGarbage(t, u)
  {
    var t1 := InsertIfAny(t, k, CertChain, Some(chain));
    var t2 := InsertIfAny(t1, k, Cert, Some(cert));
    AddPart(t, t, k, CertChain, Some(chain));
    AddPart(t, t1, k, Cert, Some(cert));
    SamePartsAdded(t, t2, u, k);
    forall b, c | b in u.blobs && b !in t.blobs && c in t.blobs
      ensures !SameSlot(u.blobs[b], t.blobs[c])
    {
      assert !Fills(t, c, k, Cert) && !Fills(t, c, k, CertChain);
    }
    SameStatesSameUnreferenced(t, u);
    PartsAreQuiet(t, u, k);
  }

  lemma QuietSuperOp(t: Tables, op: Op)
    requires Enabled(t, op) && (op.OpStoreSuper? || op.OpGetOrCreate?) && Run(t, op).Commit?
    ensures NoNewGarbage(t, After(t, op))
  {
    if op.OpStoreSuper? {
      QuietNewEntry(t, After(t, op), SuperRow(APP, op.user, op.alias, KEYSTORE_UUID), op.id, Some(op.blob));
    } else if op.created.Ok? && After(t, op) != t {
      QuietNewEntry(t, After(t, op), SuperRow(op.domain, op.nspace, op.alias, op.kmUuid), op.id,
                    Some(op.created.value.0));
    }
  }

  lemma QuietCreatingOp(t: Tables, op: Op)
    requires Enabled(t, op) && DrawsKeyId(op) && Run(t, op).Commit? && !Run(t, op).needGc
    ensures NoNewGarbage(t, After(t, op))
  {
    if op.OpStoreSuper? || op.OpGetOrCreate? {
      QuietSuperOp(t, op);
    } else {
      match op
      case OpCreate(d, n, kt, u, id) =>
        QuietNewEntry(t, After(t, op), EntryRow(kt, Some(d), Some(n), None, Existing, u), id, None);
      case OpStoreKey(key, kt, k, id) =>
        StoreNewKeyShape(t, key, kt, k, id);
        QuietStoreNewKey(t, After(t, op), key, kt, k, id);
      case OpStoreCert(key, kt, c, u, now, id) => QuietStoreNewCertificate(t, key, kt, c, u, now, id);
      case OpCreateAttestation(m, r, pk, u, id) =>
        QuietNewEntry(t, After(t, op), EntryRow(Attestation, None, None, None, Live, u), id, Some(pk));
    }
  }

  lemma SameEntriesAreQuiet(t: Tables, u: Tables)
    requires u.blobs == t.blobs && u.entries.Keys == t.entries.Keys
    requires forall j :: j in u.entries ==> u.entries[j].state == t.entries[j].state
    ensures NoNewGarbage(t, u)
  {
    forall b | b in u.blobs
      ensures Current(u, b) <==> Current(t, b)
    {
    }
    SameStatesSameUnreferenced(t, u);
  }

  lemma QuietEntryOp(t: Tables, op: Op)
    requires Enabled(t, op)
    requires op.OpAssign? || op.OpMigrate? || op.OpUse? || op.OpGrant? || op.OpUngrant?
    requires Run(t, op).Commit? && !Run(t, op).needGc
    ensures NoNewGarbage(t, After(t, op))
  {
    var u := After(t, op);
    if op.OpGrant? || op.OpUngrant? {
      GrantOpUntouched(t, op);
    } else if op.OpAssign? {
      AssignUntouched(t, op.domain, op.nspace, op.kmUuid);
    } else {
      EntryOpKeepsBlobs(t, op);
    }
    SameEntriesAreQuiet(t, u);
  }

  /** A call that adds garbage says so, whether or not there was garbage before. */
  lemma QuietOpAddsNoGarbage(t: Tables, op: Op)
    requires PoolInv(t) && Enabled(t, op)
    requires Run(t, op).Commit? && !Run(t, op).needGc
    ensures NoNewGarbage(t, After(t, op))
  {
    if DrawsKeyId(op) {
      QuietCreatingOp(t, op);
    } else if Removes(op) {
      RemovesExactly(t, op);
      QuietRemovalRemovesNothing(t, op);
      assert DeleteEntries(t, {}) == t;
    } else if op.OpStoreSigned? {
      QuietStoreSigned(t, op.rawKey, op.cert, op.chain, op.expiration, op.kmUuid);
    } else {
      QuietEntryOp(t, op);
    }
  }

  lemma QuietRemovalRemovesNothing(t: Tables, op: Op)
    requires Enabled(t, op) && Removes(op) && Run(t, op).Commit? && !Run(t, op).needGc
    ensures Removed(t, op) == {}
  {
    RemovesExactly(t, op);
  }

  // ---------------------------------------------------------------- the system

  /** Where the worker is in a collector step. */
  datatype Phase = Idle | Taken | Cleared | Processed

  datatype System = System(
    db: Tables,
    mem: Memory,
    notified: bool,
    queued: nat,
    claims: nat,   // threads that have set `notified` and are about to queue a step
    phase: Phase,
    owed: nat)     // committed calls that have not notified the collector yet

  /** `Fail` is a collector step whose database transaction fails: it is rolled back and the memory stays as it was. */
  datatype Event =
    | ClientCall(op: Op)
    | Notify
    | Enqueue
    | Take
    | Clear
    | Process(picked: seq<int>)
    | Fail
    | Finish

  /** The assumptions on a client call, in the state it is made in. */
  ghost predicate Admissible(t: Tables, op: Op) {
    Enabled(t, op) && Plain(op) && RespectsPool(t, op) && FreshId(t, op)
  }

  ghost predicate Possible(s: System, e: Event) {
    match e
    case ClientCall(op) => Admissible(s.db, op)
    case Notify => s.owed > 0
    case Enqueue => s.claims > 0
    case Take => s.phase == Idle && s.queued > 0
    case Clear => s.phase == Taken
    case Process(picked) => s.phase == Cleared && Answers(s.db, s.mem, picked)
    case Fail => s.phase == Cleared && s.mem.superseded == []
    case Finish => s.phase == Processed
  }

  /** The compare-and-exchange that decides who queues the next step. */
  function Claim(s: System): System {
    if s.notified then s else s.(notified := true, claims := s.claims + 1)
  }

  ghost function Next(s: System, e: Event): System
    requires Possible(s, e)
  {
    match e
    case ClientCall(op) =>
      var r := Run(s.db, op);
      if r.Commit? then s.(db := r.db, owed := if r.needGc then s.owed + 1 else s.owed) else s
    case Notify => Claim(s.(owed := s.owed - 1))
    case Enqueue => s.(claims := s.claims - 1, queued := s.queued + 1)
    case Take => s.(queued := s.queued - 1, phase := Taken)
    case Clear => s.(notified := false, phase := Cleared)
    case Process(picked) =>
      s.(db := FetchDb(s.db, s.mem, picked), mem := Pop(FetchMemory(s.db, s.mem, picked)), phase := Processed)
    case Fail => s.(phase := Processed)
    case Finish => if s.mem.deleted != [] then Claim(s.(phase := Idle)) else s.(phase := Idle)
  }

  /** The flag is up exactly while one step is on its way: claimed, queued, or taken but not begun. */
  ghost predicate FlagMatchesQueue(s: System) {
    s.claims + s.queued + (if s.phase == Taken then 1 else 0) == if s.notified then 1 else 0
  }

  /** Garbage in the database is either not announced yet or has a step coming. */
  ghost predicate Covered(s: System) {
    || NoGarbage(s.db)
    || s.owed > 0
    || s.notified
    || s.phase == Cleared
    || (s.phase == Processed && s.mem.deleted != [])
  }

  ghost predicate SystemInv(s: System) {
    && Inv(s.db)
    && PoolInv(s.db)
    && Safe(s.db, s.mem)
    && FlagMatchesQueue(s)
  }

  lemma ProcessKeepsInv(s: System, picked: seq<int>)
    requires SystemInv(s) && Possible(s, Process(picked))
    ensures SystemInv(Next(s, Process(picked)))
    ensures Covered(Next(s, Process(picked)))
  {
    FetchKeepsSafe(s.db, s.mem, picked);
    PopKeepsSafe(FetchDb(s.db, s.mem, picked), FetchMemory(s.db, s.mem, picked));
    if s.mem.superseded == [] {
      HandleSupersededKeepsInv(s.db, AsSet(s.mem.deleted), picked);
      CollectionKeepsPool(s.db, s.mem, picked);
      if picked == [] {
        EmptyAnswerMeansClean(s.db, s.mem);
      }
    }
  }

  /** Every event, failed collections included, keeps integrity, the pool, two-phase safety and one step at most. */
  lemma EventKeepsInv(s: System, e: Event)
    requires SystemInv(s) && Possible(s, e)
    ensures SystemInv(Next(s, e))
  {
    match e
    case ClientCall(op) =>
      OpKeepsInv(s.db, op);
      OpKeepsPool(s.db, op);
      OpKeepsSafe(s.db, s.mem, op);
    case Process(picked) => ProcessKeepsInv(s, picked);
    case _ =>
  }

  /** Every event but a failed collection keeps garbage covered. */
  lemma EventKeepsCovered(s: System, e: Event)
    requires SystemInv(s) && Covered(s) && Possible(s, e) && !e.Fail?
    ensures Covered(Next(s, e))
  {
    match e
    case ClientCall(op) =>
      if NoGarbage(s.db) && Run(s.db, op).Commit? && !Run(s.db, op).needGc {
        QuietOpAddsNoGarbage(s.db, op);
        CleanStaysClean(s.db, After(s.db, op));
      }
    case Process(picked) => ProcessKeepsInv(s, picked);
    case _ =>
  }

  // ---------------------------------------------------------------- runs

  ghost predicate IsRun(s: System, es: seq<Event>)
    decreases |es|
  {
    es == [] || (Possible(s, es[0]) && IsRun(Next(s, es[0]), es[1..]))
  }

  ghost function EndOf(s: System, es: seq<Event>): System
    requires IsRun(s, es)
    decreases |es|
  {
    if es == [] then s else EndOf(Next(s, es[0]), es[1..])
  }

  ghost function CallsOwing(s: System, es: seq<Event>): nat
    requires IsRun(s, es)
    decreases |es|
  {
    if es == [] then 0
    else
      CallsOwing(Next(s, es[0]), es[1..])
      + match es[0]
        case ClientCall(op) => if Run(s.db, op).Commit? && Run(s.db, op).needGc then 1 else 0
        case _ => 0
  }

  /** In every run the notifications made and still owed are one for each committed call that asks for collection. */
  lemma {:induction false} NotifiedOncePerCall(s: System, es: seq<Event>)
    requires IsRun(s, es)
    ensures EndOf(s, es).owed + multiset(es)[Notify] == s.owed + CallsOwing(s, es)
    decreases |es|
  {
    if es != [] {
      NotifiedOncePerCall(Next(s, es[0]), es[1..]);
      assert es == [es[0]] + es[1..];
      OwedStep(s, es[0]);
    }
  }

  lemma OwedStep(s: System, e: Event)
    requires Possible(s, e)
    ensures Next(s, e).owed + (if e == Notify then 1 else 0)
            == s.owed + match e
                        case ClientCall(op) => if Run(s.db, op).Commit? && Run(s.db, op).needGc then 1 else 0
                        case _ => 0
  {
  }

  lemma {:induction false} RunKeepsInv(s: System, es: seq<Event>)
    requires SystemInv(s) && IsRun(s, es)
    ensures SystemInv(EndOf(s, es))
    decreases |es|
  {
    if es != [] {
      EventKeepsInv(s, es[0]);
      RunKeepsInv(Next(s, es[0]), es[1..]);
    }
  }

  ghost predicate NeverFails(es: seq<Event>) {
    forall i :: 0 <= i < |es| ==> !es[i].Fail?
  }

  lemma {:induction false} RunKeepsCovered(s: System, es: seq<Event>)
    requires SystemInv(s) && Covered(s) && IsRun(s, es) && NeverFails(es)
    ensures Covered(EndOf(s, es))
    decreases |es|
  {
    if es != [] {
      EventKeepsInv(s, es[0]);
      EventKeepsCovered(s, es[0]);
      RunKeepsCovered(Next(s, es[0]), es[1..]);
    }
  }

  /**
   The system after a restart: the collector has forgotten everything and the start-up cleanup owes a
   notification.
   */
  ghost function Restarted(db: Tables): System {
    System(CleanupLeftovers(db).db, EMPTY_MEMORY, false, 0, 0, Idle, 1)
  }

  /** Whatever garbage a restart finds is covered. */
  lemma RestartIsCovered(db: Tables)
    requires Inv(db) && PoolInv(db)
    ensures SystemInv(Restarted(db)) && Covered(Restarted(db))
  {
    OpKeepsInv(db, OpCleanupLeftovers);
    OpKeepsPool(db, OpCleanupLeftovers);
    assert After(db, OpCleanupLeftovers) == CleanupLeftovers(db).db;
  }

  /**
   No lost wake-up: in every run from a restart, failed collections included, at most one collector step is
   ever queued. If no collection fails, then once every caller has announced its garbage, garbage in the
   database means that a step is queued, about to be queued, or running.
   */
  lemma NoLostWakeUp(db: Tables, es: seq<Event>)
    requires Inv(db) && PoolInv(db) && IsRun(Restarted(db), es)
    ensures var r := EndOf(Restarted(db), es);
            && r.queued + r.claims <= 1
            && (NeverFails(es) && r.owed == 0 && !NoGarbage(r.db) ==> r.queued + r.claims == 1 || r.phase != Idle)
  {
    RestartIsCovered(db);
    RunKeepsInv(Restarted(db), es);
    if NeverFails(es) {
      RunKeepsCovered(Restarted(db), es);
    }
  }

  // ---------------------------------------------------------------- failed collections

  /** There is garbage and nobody is going to look for it. */
  ghost predicate Stranded(s: System) {
    !NoGarbage(s.db) && Asleep(s)
  }

  ghost predicate Asleep(s: System) {
    s.phase == Idle && s.queued == 0 && s.claims == 0 && s.owed == 0
  }

  ghost predicate AsksForCollection(s: System, e: Event) {
    e.ClientCall? && Admissible(s.db, e.op) && Run(s.db, e.op).Commit? && Run(s.db, e.op).needGc
  }

  ghost predicate NobodyAsks(s: System, es: seq<Event>)
    requires IsRun(s, es)
    decreases |es|
  {
    es != [] ==> !AsksForCollection(s, es[0]) && NobodyAsks(Next(s, es[0]), es[1..])
  }

  /** Nobody has announced a step or is about to. */
  ghost predicate Quiet(s: System) {
    s.owed == 0 && !s.notified
  }

  lemma QuietStepIff(s: System, e: Event)
    requires SystemInv(s) && s.phase == Processed && Possible(s, e) && e != Finish
    ensures var t := Next(s, e);
            t.phase == Processed && t.mem == s.mem && (Quiet(t) <==> Quiet(s) && !AsksForCollection(s, e))
  {
  }

  /** While a step is about to finish, it stays quiet exactly if it was and no call asks for collection. */
  lemma {:induction false} QuietIff(s: System, es: seq<Event>)
    requires SystemInv(s) && s.phase == Processed && IsRun(s, es) && Finish !in es
    ensures var t := EndOf(s, es);
            t.phase == Processed && t.mem == s.mem && (Quiet(t) <==> Quiet(s) && NobodyAsks(s, es))
    decreases |es|
  {
    if es != [] {
      EventKeepsInv(s, es[0]);
      QuietStepIff(s, es[0]);
      QuietIff(Next(s, es[0]), es[1..]);
    }
  }

  /**
   A step whose transaction fails strands the garbage there is when it finishes exactly when it had no ids to delete
   from before, no other step was announced or about to be, and no call asked for collection in between, whatever
   else has happened until it finished.
   */
  lemma FailedTransactionStrandsIff(s: System, es: seq<Event>)
    requires SystemInv(s) && Possible(s, Fail) && IsRun(Next(s, Fail), es) && Finish !in es
    requires !NoGarbage(EndOf(Next(s, Fail), es).db)
    ensures var t := EndOf(Next(s, Fail), es);
            && Possible(t, Finish)
            && (Stranded(Next(t, Finish)) <==>
                  s.mem.deleted == [] && !s.notified && s.owed == 0 && NobodyAsks(Next(s, Fail), es))
  {
    EventKeepsInv(s, Fail);
    QuietIff(Next(s, Fail), es);
    RunKeepsInv(Next(s, Fail), es);
  }

  /** Once the collector is asleep, nothing but client calls can happen until one of them asks for collection. */
  lemma {:induction false} AsleepUntilAsked(s: System, es: seq<Event>)
    requires SystemInv(s) && Asleep(s) && IsRun(s, es) && NobodyAsks(s, es)
    ensures Asleep(EndOf(s, es)) && EndOf(s, es).mem == s.mem
    ensures forall i :: 0 <= i < |es| ==> es[i].ClientCall?
    decreases |es|
  {
    if es != [] {
      EventKeepsInv(s, es[0]);
      AsleepUntilAsked(Next(s, es[0]), es[1..]);
    }
  }

  /** A call that asks for collection wakes the collector up. */
  lemma AskingWakesUp(s: System, e: Event)
    requires SystemInv(s) && Asleep(s) && Possible(s, e) && AsksForCollection(s, e)
    ensures Covered(Next(s, e)) && Possible(Next(s, e), Notify)
    ensures var r := Next(Next(s, e), Notify); Possible(r, Enqueue) && Possible(Next(r, Enqueue), Take)
  {
  }

  /** After a restart with one orphaned blob, a single failed transaction strands it. */
  lemma FailureAfterRestartStrands(blob: Bytes)
    ensures var db := Tables(map[], map[1 := BlobRow(KeyBlob, 7, blob)], map[], map[], map[], map[]);
            var es := [Notify, Enqueue, Take, Clear, Fail, Finish];
            && Inv(db) && PoolInv(db)
            && IsRun(Restarted(db), es) && Stranded(EndOf(Restarted(db), es))
  {
    var db := Tables(map[], map[1 := BlobRow(KeyBlob, 7, blob)], map[], map[], map[], map[]);
    var s0 := Restarted(db);
    var s1 := Next(s0, Notify);
    var s2 := Next(s1, Enqueue);
    var s3 := Next(s2, Take);
    var s4 := Next(s3, Clear);
    var s5 := Next(s4, Fail);
    var s6 := Next(s5, Finish);
    assert s6.db == s0.db && s0.db.blobs == db.blobs && s0.db.entries == map[];
    assert Garbage(s6.db, 1);
    RunOf(s5, [Finish]);
    RunOf(s4, [Fail, Finish]);
    RunOf(s3, [Clear, Fail, Finish]);
    RunOf(s2, [Take, Clear, Fail, Finish]);
    RunOf(s1, [Enqueue, Take, Clear, Fail, Finish]);
    RunOf(s0, [Notify, Enqueue, Take, Clear, Fail, Finish]);
  }

  lemma RunOf(s: System, es: seq<Event>)
    requires es != [] && Possible(s, es[0]) && IsRun(Next(s, es[0]), es[1..])
    ensures IsRun(s, es) && EndOf(s, es) == EndOf(Next(s, es[0]), es[1..])
  {
  }

  // ---------------------------------------------------------------- what a client stored stays loadable

  const BOTH := LoadBits(true, true)

  ghost predicate SameRows(t: Tables, u: Tables, k: int) {
    && (forall b :: b in t.blobs && t.blobs[b].keyId == k ==>
                      b in u.blobs && u.blobs[b] == t.blobs[b]
                      && GetOr(u.blobMeta, b, map[]) == GetOr(t.blobMeta, b, map[]))
    && (forall b :: b in u.blobs && u.blobs[b].keyId == k ==> b in t.blobs && t.blobs[b].keyId == k)
  }

  /** Nothing about a key has changed. */
  ghost predicate Unaffected(t: Tables, u: Tables, k: int) {
    && k in t.entries && k in u.entries && u.entries[k] == t.entries[k]
    && GetOr(u.params, k, []) == GetOr(t.params, k, [])
    && GetOr(u.keyMeta, k, map[]) == GetOr(t.keyMeta, k, map[])
    && SameRows(t, u, k)
  }

  lemma SameRowsSameCurrent(t: Tables, u: Tables, k: int, part: SubComponent)
    requires SameRows(t, u, k)
    ensures CurrentBlob(u, k, part) == CurrentBlob(t, k, part)
  {
    var b := CurrentBlob(t, k, part);
    if b.Some? {
      forall c | c in u.blobs && SameSlot(u.blobs[b.value], u.blobs[c])
        ensures c <= b.value
      {
        assert SameSlot(t.blobs[b.value], t.blobs[c]);
      }
      CurrentBlobIs(u, k, part, b.value);
    } else {
      forall c
        ensures !Fills(u, c, k, part)
      {
        assert !Fills(t, c, k, part);
      }
    }
  }

  lemma UnaffectedLoadsTheSame(t: Tables, u: Tables, k: int)
    requires Unaffected(t, u, k)
    ensures LoadKeyComponents(u, k, BOTH) == LoadKeyComponents(t, k, BOTH)
  {
    SameRowsSameCurrent(t, u, k, KeyBlob);
    SameRowsSameCurrent(t, u, k, Cert);
    SameRowsSameCurrent(t, u, k, CertChain);
  }

  /** The calls that rebind, update, move, use or remove a key. */
  ghost predicate Affects(t: Tables, op: Op, k: int)
    requires k in t.entries
  {
    match op
    case OpStoreKey(key, kt, _, _) =>
      key.alias.Some? && Bound(t.entries[k], key.domain, key.nspace, key.alias.value, kt)
    case OpStoreCert(key, kt, _, _, _, _) =>
      key.alias.Some? && Bound(t.entries[k], key.domain, key.nspace, key.alias.value, kt)
    case OpSetBlob(j, _, _, _) => j == k
    case OpMigrate(j, _, _, _) => j == k
    case OpUse(j) => j == k
    case _ => Removes(op) && k in Removed(t, op)
  }

  lemma InsertElsewhereSameRows(t: Tables, j: int, part: SubComponent, blob: Bytes, meta: Option<BlobMeta>, k: int)
    requires j != k
    ensures SameRows(t, InsertBlob(t, j, part, blob, meta), k)
  {
  }

  lemma InsertBlobsSameRows(t: Tables, j: int, n: NewKey, k: int)
    requires j != k
    ensures SameRows(t, InsertBlobs(t, j, n), k)
  {
    var t1 := InsertBlob(t, j, KeyBlob, n.blob, Some(n.blobMeta));
    InsertElsewhereSameRows(t, j, KeyBlob, n.blob, Some(n.blobMeta), k);
    if n.cert.Some? {
      InsertElsewhereSameRows(t1, j, Cert, n.cert.value, None, k);
    }
    var t2 := InsertIfAny(t1, j, Cert, n.cert);
    if n.certChain.Some? {
      InsertElsewhereSameRows(t2, j, CertChain, n.certChain.value, None, k);
    }
    SameRowsTransitive(t, t1, t2, k);
    SameRowsTransitive(t, t2, InsertBlobs(t, j, n), k);
  }

  lemma SameRowsTransitive(t: Tables, u: Tables, v: Tables, k: int)
    requires SameRows(t, u, k) && SameRows(u, v, k)
    ensures SameRows(t, v, k)
  {
  }

  lemma StoreNewKeyLeavesOthers(t: Tables, u: Tables, key: KeyDescriptor, keyType: KeyType, n: NewKey, id: int, k: int)
    requires key.alias.Some? && Stored(t, u, key, keyType, n, id) && id !in t.entries
    requires k in t.entries && !Bound(t.entries[k], key.domain, key.nspace, key.alias.value, keyType)
    ensures Unaffected(t, u, k)
  {
    InsertBlobsSameRows(t, id, n, k);
    SameRowsByTables(InsertBlobs(t, id, n), u, k);
    SameRowsTransitive(t, InsertBlobs(t, id, n), u, k);
  }

  lemma SameRowsByTables(t: Tables, u: Tables, k: int)
    requires t.blobs == u.blobs && t.blobMeta == u.blobMeta
    ensures SameRows(t, u, k)
  {
  }

  lemma StoreNewCertificateLeavesOthers(t: Tables, key: KeyDescriptor, keyType: KeyType, cert: Bytes, kmUuid: int,
                                        now: int, id: int, k: int)
    requires Drawable(t.entries.Keys, id) && StoreNewCertificate(t, key, keyType, cert, kmUuid, now, id).Commit?
    requires k in t.entries && !Bound(t.entries[k], key.domain, key.nspace, key.alias.value, keyType)
    ensures Unaffected(t, StoreNewCertificate(t, key, keyType, cert, kmUuid, now, id).db, k)
  {
    InsertElsewhereSameRows(t, id, CertChain, cert, None, k);
  }

  lemma CreatingOpLeavesOthers(t: Tables, op: Op, k: int)
    requires Enabled(t, op) && DrawsKeyId(op) && k in t.entries && !Affects(t, op, k)
    ensures Unaffected(t, After(t, op), k)
  {
    if Run(t, op).Commit? {
      match op
      case OpStoreKey(key, kt, n, id) => 
        StoreNewKeyShape(t, key, kt, n, id);
        StoreNewKeyLeavesOthers(t, After(t, op), key, kt, n, id, k);
      case OpStoreCert(key, kt, c, u, now, id) => StoreNewCertificateLeavesOthers(t, key, kt, c, u, now, id, k);
      case _ => PlainCreationLeavesOthers(t, op, k);
    }
  }

  lemma SuperCreationLeavesOthers(t: Tables, op: Op, k: int)
    requires Enabled(t, op) && k in t.entries && Run(t, op).Commit?
    requires op.OpStoreSuper? || op.OpGetOrCreate?
    ensures Unaffected(t, After(t, op), k)
  {
    var u := After(t, op);
    if op.OpStoreSuper? {
      StoreSuperKeyShape(t, op.user, op.alias, op.blob, op.blobMeta, op.keyMeta, op.id);
      OnlyNewEntryLeavesOthers(t, u, op.id, op.blob, Some(op.blobMeta), k);
    } else {
      GetOrCreateShape(t, op.domain, op.nspace, op.alias, op.kmUuid, op.created, op.id);
      if u != t {
        OnlyNewEntryLeavesOthers(t, u, op.id, op.created.value.0, Some(op.created.value.1), k);
      }
    }
  }

  lemma OnlyNewEntryLeavesOthers(t: Tables, u: Tables, id: int, blob: Bytes, meta: Option<BlobMeta>, k: int)
    requires k in t.entries && id !in t.entries && OnlyNewEntry(t, u, id)
    requires SameBlobTables(InsertBlob(t, id, KeyBlob, blob, meta), u)
    ensures Unaffected(t, u, k)
  {
    NewEntryLeavesOthers(t, u, id, Some(blob), meta, k);
  }

  lemma PlainCreationLeavesOthers(t: Tables, op: Op, k: int)
    requires Enabled(t, op) && k in t.entries && Run(t, op).Commit?
    requires op.OpCreate? || op.OpStoreSuper? || op.OpGetOrCreate? || op.OpCreateAttestation?
    ensures Unaffected(t, After(t, op), k)
  {
    if op.OpStoreSuper? || op.OpGetOrCreate? {
      SuperCreationLeavesOthers(t, op, k);
    } else if op.OpCreateAttestation? {
      NewEntryLeavesOthers(t, After(t, op), op.id, Some(op.privateKey), None, k);
    }
  }

  lemma NewEntryLeavesOthers(t: Tables, u: Tables, id: int, blob: Option<Bytes>, meta: Option<BlobMeta>, k: int)
    requires k in t.entries && id !in t.entries && blob.Some?
    requires k in u.entries && u.entries[k] == t.entries[k]
    requires GetOr(u.params, k, []) == GetOr(t.params, k, [])
             && GetOr(u.keyMeta, k, map[]) == GetOr(t.keyMeta, k, map[])
    requires SameBlobTables(InsertBlob(t, id, KeyBlob, blob.value, meta), u)
    ensures Unaffected(t, u, k)
  {
    InsertElsewhereSameRows(t, id, KeyBlob, blob.value, meta, k);
  }

  lemma StoreSignedLeavesOthers(t: Tables, rawKey: Bytes, cert: Bytes, chain: Bytes, expiration: int, kmUuid: int,
                                k: int)
    requires StoreSignedChain(t, rawKey, cert, chain, expiration, kmUuid).Commit?
    requires k in t.entries && t.entries[k].keyType == Client
    ensures Unaffected(t, StoreSignedChain(t, rawKey, cert, chain, expiration, kmUuid).db, k)
  {
    var j := TheOne(AwaitingSignature(t, rawKey, kmUuid)).value;
    assert j in AwaitingSignature(t, rawKey, kmUuid);
    AwaitingIsUnsigned(t, rawKey, kmUuid, j);
    InsertElsewhereSameRows(t, j, CertChain, chain, None, k);
    var t1 := InsertBlob(t, j, CertChain, chain, None);
    InsertElsewhereSameRows(t1, j, Cert, cert, None, k);
    SameRowsTransitive(t, t1, InsertBlob(t1, j, Cert, cert, None), k);
  }

  /** A call that is not about a live client key leaves all of it alone. */
  lemma OpLeavesKey(t: Tables, op: Op, k: int)
    requires Inv(t) && Enabled(t, op) && IsLive(t, k) && t.entries[k].keyType == Client && !Affects(t, op, k)
    ensures Unaffected(t, After(t, op), k)
  {
    if DrawsKeyId(op) {
      CreatingOpLeavesOthers(t, op, k);
    } else if Removes(op) {
      RemovesExactly(t, op);
    } else if op.OpSetBlob? || op.OpSetDeletedBlob? || op.OpStoreSigned? {
      BlobOpLeavesKey(t, op, k);
    } else {
      EntryOpLeavesKey(t, op, k);
    }
  }

  lemma BlobOpLeavesKey(t: Tables, op: Op, k: int)
    requires Inv(t) && Enabled(t, op) && IsLive(t, k) && t.entries[k].keyType == Client && !Affects(t, op, k)
    requires op.OpSetBlob? || op.OpSetDeletedBlob? || op.OpStoreSigned?
    ensures Unaffected(t, After(t, op), k)
  {
    if Run(t, op).Commit? {
      match op
      case OpSetBlob(j, p, b, m) =>
        if b.Some? {
          InsertElsewhereSameRows(t, j, p, b.value, m, k);
        }
      case OpSetDeletedBlob(b, m) => InsertElsewhereSameRows(t, UNASSIGNED_KEY_ID, KeyBlob, b, Some(m), k);
      case OpStoreSigned(r, c, ch, e, u) => StoreSignedLeavesOthers(t, r, c, ch, e, u, k);
    }
  }

  lemma GrantOpLeavesKey(t: Tables, op: Op, k: int)
    requires Enabled(t, op) && k in t.entries && (op.OpGrant? || op.OpUngrant?)
    ensures Unaffected(t, After(t, op), k)
  {
    GrantOpUntouched(t, op);
  }

  lemma AssignLeavesKey(t: Tables, domain: Domain, nspace: int, kmUuid: int, k: int)
    requires AssignAttestationKey(t, domain, nspace, kmUuid).Commit? && k in t.entries && t.entries[k].keyType == Client
    ensures Unaffected(t, AssignAttestationKey(t, domain, nspace, kmUuid).db, k)
  {
    AssignUntouched(t, domain, nspace, kmUuid);
  }

  lemma EntryOpLeavesKey(t: Tables, op: Op, k: int)
    requires Enabled(t, op) && IsLive(t, k) && t.entries[k].keyType == Client && !Affects(t, op, k)
    requires op.OpAssign? || op.OpMigrate? || op.OpUse? || op.OpCleanupLeftovers? || op.OpGrant? || op.OpUngrant?
    ensures Unaffected(t, After(t, op), k)
  {
    if op.OpGrant? || op.OpUngrant? {
      GrantOpLeavesKey(t, op, k);
    } else if op.OpAssign? {
      if Run(t, op).Commit? {
        AssignLeavesKey(t, op.domain, op.nspace, op.kmUuid, k);
      }
    } else {
      EntryOpKeepsBlobs(t, op);
    }
  }

  /** No client call of the run is about key `k`. */
  ghost predicate LeftAlone(s: System, es: seq<Event>, k: int)
    requires IsRun(s, es)
    decreases |es|
  {
    es != [] ==>
      && (es[0].ClientCall? ==> k in s.db.entries && !Affects(s.db, es[0].op, k))
      && LeftAlone(Next(s, es[0]), es[1..], k)
  }

  lemma EventKeepsKey(s: System, e: Event, k: int)
    requires SystemInv(s) && Possible(s, e) && IsLive(s.db, k) && s.db.entries[k].keyType == Client
    requires e.ClientCall? ==> !Affects(s.db, e.op, k)
    ensures k in Next(s, e).db.entries && Next(s, e).db.entries[k] == s.db.entries[k]
    ensures LoadKeyComponents(Next(s, e).db, k, BOTH) == LoadKeyComponents(s.db, k, BOTH)
  {
    match e
    case ClientCall(op) =>
      OpLeavesKey(s.db, op, k);
      UnaffectedLoadsTheSame(s.db, After(s.db, op), k);
    case Process(picked) =>
      if s.mem.superseded == [] {
        CollectionKeepsLoads(s.db, s.mem, picked, k, BOTH);
      }
    case _ =>
  }

  /** Through every run of clients and collector that leaves a key alone, the key loads the same. */
  lemma {:induction false} RunKeepsKey(s: System, es: seq<Event>, k: int)
    requires SystemInv(s) && IsRun(s, es) && LeftAlone(s, es, k)
    requires IsLive(s.db, k) && s.db.entries[k].keyType == Client
    ensures k in EndOf(s, es).db.entries && EndOf(s, es).db.entries[k] == s.db.entries[k]
    ensures LoadKeyComponents(EndOf(s, es).db, k, BOTH) == LoadKeyComponents(s.db, k, BOTH)
    decreases |es|
  {
    if es != [] {
      EventKeepsInv(s, es[0]);
      EventKeepsKey(s, es[0], k);
      RunKeepsKey(Next(s, es[0]), es[1..], k);
    }
  }
}
