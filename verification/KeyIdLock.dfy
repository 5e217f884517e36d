/** Exclusive locks on key ids, and the loading of key entries under them. */
module KeyIdLock {
  import opened KeystoreTypes
  import opened KeystoreTables
  import opened KeystoreTx
  import opened KeystoreInvariants
  import opened GarbageCollector
  import opened GcSystem
  import opened KeystoreClients

  // ---------------------------------------------------------------- loading a key entry

  datatype Request = Request(key: KeyDescriptor, keyType: KeyType, bits: LoadBits, caller: int,
                             permits: (KeyDescriptor, Option<AccessVector>) -> bool)

  /** How far a thread has got with loading an entry. */
  datatype Loader =
    | Start(req: Request)
    | IdLocked(req: Request)
    | Waiting(req: Request, checkedIn: Tables, tuple: AccessTuple)
    | Locked(req: Request, checkedIn: Tables, tuple: AccessTuple)
    | Done(req: Request, checkedIn: Tables, tuple: AccessTuple, readIn: Tables, entry: Result<KeyEntry>)
    | Failed(req: Request)

  /** A call that locks a key id inside its write transaction. */
  datatype Job = Call(op: Op) | LoadSuper(user: int, alias: string)

  datatype Phase = Drawn | Holding | Released

  /** The open write transaction of such a call: the id it locks and the tables as it leaves them. */
  datatype Writer = Writer(guard: int, job: Job, target: int, after: Tables, phase: Phase)

  /**
   The database, the locked key ids, every guard with its id, the threads that load entries, and the
   call that has the database open for writing while it gets its lock.
   */
  datatype World = World(db: Tables, locked: set<int>, guards: map<int, int>, loaders: map<int, Loader>,
                         writer: Option<Writer>)

  datatype Move =
    | Transaction(op: Op)                  // a call that locks no id
    | Begin(guard: int, job: Job)
    | TakeId
    | Release
    | CommitTx
    | Drop(guard: int)
    | LockById(thread: int)
    | FirstRead(thread: int)
    | Wake(thread: int)
    | SecondRead(thread: int)

  /** The id that a call locks inside its transaction; only storing a super key draws an id without that. */
  ghost function Target(t: Tables, op: Op): Option<int>
    requires Enabled(t, op)
  {
    match op
    case OpCreate(d, _, _, _, id) => if Nameable(d) then Some(id) else None
    case OpStoreKey(key, _, _, id) => if Storable(key) then Some(id) else None
    case OpStoreCert(key, _, _, _, _, id) => if Storable(key) then Some(id) else None
    case OpGetOrCreate(d, n, a, u, c, id) =>
      var r := GetOrCreateKeyWith(t, d, n, a, u, c, id);
      if r.Commit? then Some(r.out) else None
    case OpCreateAttestation(_, _, _, _, id) => Some(id)
    case _ => None
  }

  ghost predicate Startable(t: Tables, job: Job) {
    job.Call? ==> Enabled(t, job.op)
  }

  ghost function JobTarget(t: Tables, job: Job): Option<int>
    requires Startable(t, job)
  {
    match job
    case Call(op) => Target(t, op)
    case LoadSuper(user, alias) =>
      var r := LoadKeyEntryId(t, KeyDescriptor(APP, user, Some(alias), None), Super);
      if r.Ok? then Some(r.value) else None
  }

  ghost function AfterJob(t: Tables, job: Job): Tables
    requires Startable(t, job)
  {
    if job.Call? then After(t, job.op) else t
  }

  /** The guard on a new pool key goes with the transaction's closure, before the commit; all others are returned. */
  predicate HandsOver(job: Job) {
    !(job.Call? && job.op.OpCreateAttestation?)
  }

  predicate WritersOwn(w: World, g: int) {
    w.writer.Some? && w.writer.value.guard == g
  }

  ghost predicate Allowed(w: World, m: Move) {
    match m
    case Transaction(op) => w.writer.None? && Enabled(w.db, op) && Target(w.db, op).None?
    case Begin(g, job) =>
      w.writer.None? && g !in w.guards && g !in w.loaders && Startable(w.db, job) && JobTarget(w.db, job).Some?
    case TakeId => w.writer.Some? && w.writer.value.phase == Drawn && w.writer.value.target !in w.locked
    case Release =>
      && w.writer.Some? && w.writer.value.phase == Holding && w.writer.value.guard in w.guards
      && !HandsOver(w.writer.value.job)
    case CommitTx =>
      w.writer.Some? && w.writer.value.phase == if HandsOver(w.writer.value.job) then Holding else Released
    case Drop(g) =>
      g in w.guards && (g in w.loaders ==> w.loaders[g].Done? || w.loaders[g].Failed?) && !WritersOwn(w, g)
    case LockById(i) => i in w.loaders && w.loaders[i].Start? && w.loaders[i].req.key.domain == KEY_ID
                        && w.loaders[i].req.key.nspace !in w.locked && i !in w.guards
    case FirstRead(i) =>
      && i in w.loaders
      && (w.loaders[i].IdLocked? || (w.loaders[i].Start? && w.loaders[i].req.key.domain != KEY_ID && i !in w.guards))
    case Wake(i) => i in w.loaders && w.loaders[i].Waiting? && w.loaders[i].tuple.keyId !in w.locked && i !in w.guards
    case SecondRead(i) => i in w.loaders && w.loaders[i].Locked?
  }

  function Lock(w: World, guard: int, k: int): World {
    w.(locked := w.locked + {k}, guards := w.guards[guard := k])
  }

  function Unlock(w: World, guard: int): World
    requires guard in w.guards
  {
    w.(locked := w.locked - {w.guards[guard]}, guards := w.guards - {guard})
  }

  function Become(w: World, i: int, l: Loader): World {
    w.(loaders := w.loaders[i := l])
  }

  /** The open transaction reaches its next phase. */
  function Enter(w: World, phase: Phase): World
    requires w.writer.Some?
  {
    w.(writer := Some(w.writer.value.(phase := phase)))
  }

  /** The transaction that completes the access tuple and has the caller's permission checked. */
  ghost function Read(w: World, i: int): World
    requires i in w.loaders && (w.loaders[i].IdLocked? || w.loaders[i].Start?)
  {
    var l := w.loaders[i];
    var a := LoadAccessTuple(w.db, l.req.key, l.req.keyType, l.req.caller);
    if a.Err? || !l.req.permits(a.value.descriptor, a.value.access) then Become(w, i, Failed(l.req))
    else
      var done := Done(l.req, w.db, a.value, w.db, LoadKeyComponents(w.db, a.value.keyId, l.req.bits));
      if l.IdLocked? then Become(w, i, done)
      else if a.value.keyId !in w.locked then Become(Lock(w, i, a.value.keyId), i, done)
      else Become(w, i, Waiting(l.req, w.db, a.value))
  }

  ghost function Step(w: World, m: Move): World
    requires Allowed(w, m)
  {
    match m
    case Transaction(op) => w.(db := After(w.db, op))
    case Begin(g, job) =>
      w.(writer := Some(Writer(g, job, JobTarget(w.db, job).value, AfterJob(w.db, job), Drawn)))
    case TakeId => Enter(Lock(w, w.writer.value.guard, w.writer.value.target), Holding)
    case Release => Enter(Unlock(w, w.writer.value.guard), Released)
    case CommitTx => w.(db := w.writer.value.after, writer := None)
    case Drop(g) => Unlock(w, g)
    case LockById(i) => Become(Lock(w, i, w.loaders[i].req.key.nspace), i, IdLocked(w.loaders[i].req))
    case FirstRead(i) => Read(w, i)
    case Wake(i) =>
      var l := w.loaders[i];
      Become(Lock(w, i, l.tuple.keyId), i, Locked(l.req, l.checkedIn, l.tuple))
    case SecondRead(i) =>
      var l := w.loaders[i];
      // The alias may have been rebound while this thread waited, so the key is looked up by its id.
      if LoadAccessTuple(w.db, ById(l.tuple.keyId), l.req.keyType, l.req.caller).Err?
      then Become(w, i, Failed(l.req))
      else Become(w, i, Done(l.req, l.checkedIn, l.tuple, w.db, LoadKeyComponents(w.db, l.tuple.keyId, l.req.bits)))
  }

  /** At most one guard exists for each key id, and exactly the guarded ids are locked. */
  ghost predicate OneGuardPerKey(w: World) {
    && (forall g :: g in w.guards ==> w.guards[g] in w.locked)
    && (forall k :: k in w.locked ==> exists g :: g in w.guards && w.guards[g] == k)
    && (forall g, h :: g in w.guards && h in w.guards && w.guards[g] == w.guards[h] ==> g == h)
  }

  /** The caller's permission was checked for the tuple, in a state where it described a live key. */
  ghost predicate Checked(req: Request, t: Tables, tuple: AccessTuple) {
    && LoadAccessTuple(t, req.key, req.keyType, req.caller) == Ok(tuple)
    && req.permits(tuple.descriptor, tuple.access)
  }

  ghost predicate LoaderOk(w: World, i: int)
    requires i in w.loaders
  {
    match w.loaders[i]
    case Start(_) => true
    case IdLocked(req) => req.key.domain == KEY_ID && i in w.guards && w.guards[i] == req.key.nspace
    case Waiting(req, t, a) => Checked(req, t, a)
    case Locked(req, t, a) => Checked(req, t, a) && i in w.guards && w.guards[i] == a.keyId
    case Done(req, t, a, u, e) =>
      && Checked(req, t, a)
      && IsLive(u, a.keyId)
      && e == LoadKeyComponents(u, a.keyId, req.bits)
      && (i in w.guards ==> w.guards[i] == a.keyId)
    case Failed(_) => true
  }

  /** The open transaction works on the database as it is, and has a guard exactly while it is to have one. */
  ghost predicate WriterOk(w: World) {
    w.writer.Some? ==>
      var wr := w.writer.value;
      && wr.guard !in w.loaders
      && Startable(w.db, wr.job) && JobTarget(w.db, wr.job) == Some(wr.target) && wr.after == AfterJob(w.db, wr.job)
      && (wr.phase == Holding <==> wr.guard in w.guards)
      && (wr.phase == Holding ==> w.guards[wr.guard] == wr.target)
  }

  ghost predicate WorldInv(w: World) {
    && OneGuardPerKey(w)
    && WriterOk(w)
    && (forall i :: i in w.loaders ==> LoaderOk(w, i))
  }

  lemma LockKeepsGuards(w: World, g: int, k: int)
    requires OneGuardPerKey(w) && g !in w.guards && k !in w.locked
    ensures OneGuardPerKey(Lock(w, g, k))
  {
    var v := Lock(w, g, k);
    forall x | x in v.locked
      ensures exists h :: h in v.guards && v.guards[h] == x
    {
      if x == k {
        assert v.guards[g] == k;
      } else {
        var h :| h in w.guards && w.guards[h] == x;
        assert v.guards[h] == x;
      }
    }
  }

  lemma DropKeepsGuards(w: World, g: int)
    requires OneGuardPerKey(w) && g in w.guards
    ensures OneGuardPerKey(Unlock(w, g))
  {
    var v := Unlock(w, g);
    forall x | x in v.locked
      ensures exists h :: h in v.guards && v.guards[h] == x
    {
      var h :| h in w.guards && w.guards[h] == x;
      assert h in v.guards;
    }
  }

  /** Moves that only concern one thread leave the others as they were. */
  lemma OthersKeepOk(w: World, v: World, i: int)
    requires forall j :: j in w.loaders ==> LoaderOk(w, j)
    requires v.loaders.Keys == w.loaders.Keys
    requires forall j :: j in w.loaders && j != i ==> v.loaders[j] == w.loaders[j] && (j in w.guards <==> j in v.guards)
    requires forall j :: j in w.guards && j != i ==> j in v.guards && v.guards[j] == w.guards[j]
    requires i in v.loaders ==> LoaderOk(v, i)
    ensures forall j :: j in v.loaders ==> LoaderOk(v, j)
  {
    forall j | j in v.loaders
      ensures LoaderOk(v, j)
    {
      assert LoaderOk(w, j);
    }
  }

  lemma ReadKeepsInv(w: World, i: int)
    requires WorldInv(w) && Allowed(w, FirstRead(i))
    ensures WorldInv(Step(w, FirstRead(i)))
  {
    var l := w.loaders[i];
    var v := Read(w, i);
    assert LoaderOk(w, i);
    var a := LoadAccessTuple(w.db, l.req.key, l.req.keyType, l.req.caller);
    if a.Ok? {
      AccessTupleIsLive(w.db, l.req.key, l.req.keyType, l.req.caller);
      if l.Start? && a.value.keyId !in w.locked {
        LockKeepsGuards(w, i, a.value.keyId);
      }
    }
    ReadLeavesRest(w, i);
    OthersKeepOk(w, v, i);
  }

  lemma ReadLeavesRest(w: World, i: int)
    requires WorldInv(w) && Allowed(w, FirstRead(i))
    ensures var v := Read(w, i);
            && WriterOk(v) && v.loaders.Keys == w.loaders.Keys
            && (forall j :: j in w.loaders && j != i ==>
                  v.loaders[j] == w.loaders[j] && (j in w.guards <==> j in v.guards))
            && (forall j :: j in w.guards && j != i ==> j in v.guards && v.guards[j] == w.guards[j])
  {
  }

  /** Moves that concern no thread leave all of them as they were. */
  lemma LoadersKeepOk(w: World, v: World)
    requires forall j :: j in w.loaders ==> LoaderOk(w, j)
    requires v.loaders == w.loaders
    requires forall j :: j in w.loaders && j in v.guards ==> j in w.guards
    requires forall j :: j in w.loaders && j in w.guards ==> j in v.guards && v.guards[j] == w.guards[j]
    ensures forall j :: j in v.loaders ==> LoaderOk(v, j)
  {
    forall j | j in v.loaders
      ensures LoaderOk(v, j)
    {
      assert LoaderOk(w, j);
    }
  }

  lemma WriterKeepsInv(w: World, m: Move)
    requires WorldInv(w) && Allowed(w, m) && (m.Begin? || m.TakeId? || m.Release? || m.CommitTx?)
    ensures WorldInv(Step(w, m))
  {
    var v := Step(w, m);
    if m.TakeId? {
      LockKeepsGuards(w, w.writer.value.guard, w.writer.value.target);
    } else if m.Release? {
      DropKeepsGuards(w, w.writer.value.guard);
    }
    LoadersKeepOk(w, v);
  }

  /** Every move keeps the locking discipline and what is known about each thread. */
  lemma StepKeepsInv(w: World, m: Move)
    requires WorldInv(w) && Allowed(w, m)
    ensures WorldInv(Step(w, m))
  {
    var v := Step(w, m);
    match m
    case Transaction(op) => LoadersKeepOk(w, v);
    case Begin(_, _) => WriterKeepsInv(w, m);
    case TakeId => WriterKeepsInv(w, m);
    case Release => WriterKeepsInv(w, m);
    case CommitTx => WriterKeepsInv(w, m);
    case Drop(g) =>
      DropKeepsGuards(w, g);
      OthersKeepOk(w, v, g);
    case LockById(i) =>
      LockKeepsGuards(w, i, w.loaders[i].req.key.nspace);
      OthersKeepOk(w, v, i);
    case FirstRead(i) => ReadKeepsInv(w, i);
    case Wake(i) =>
      assert LoaderOk(w, i);
      LockKeepsGuards(w, i, w.loaders[i].tuple.keyId);
      OthersKeepOk(w, v, i);
    case SecondRead(i) =>
      assert LoaderOk(w, i);
      var l := w.loaders[i];
      if LoadAccessTuple(w.db, ById(l.tuple.keyId), l.req.keyType, l.req.caller).Ok? {
        AccessTupleIsLive(w.db, ById(l.tuple.keyId), l.req.keyType, l.req.caller);
      }
      OthersKeepOk(w, v, i);
  }

  ghost predicate IsRun(w: World, ms: seq<Move>)
    decreases |ms|
  {
    ms == [] || (Allowed(w, ms[0]) && IsRun(Step(w, ms[0]), ms[1..]))
  }

  ghost function EndOf(w: World, ms: seq<Move>): World
    requires IsRun(w, ms)
    decreases |ms|
  {
    if ms == [] then w else EndOf(Step(w, ms[0]), ms[1..])
  }

  lemma {:induction false} RunKeepsInv(w: World, ms: seq<Move>)
    requires WorldInv(w) && IsRun(w, ms)
    ensures WorldInv(EndOf(w, ms))
    decreases |ms|
  {
    if ms != [] {
      StepKeepsInv(w, ms[0]);
      RunKeepsInv(Step(w, ms[0]), ms[1..]);
    }
  }

  /**
   In every interleaving at most one guard exists per key id, and a loaded entry is the one whose id
   passed the permission check and which was live in the transaction that read it, even when its
   alias was rebound while the thread waited for the lock.
   */
  lemma LoadsOnlyWhatWasChecked(w: World, ms: seq<Move>, i: int)
    requires WorldInv(w) && IsRun(w, ms)
    ensures var v := EndOf(w, ms);
            && OneGuardPerKey(v)
            && (i in v.loaders && v.loaders[i].Done? ==>
                  var l := v.loaders[i];
                  && Checked(l.req, l.checkedIn, l.tuple)
                  && IsLive(l.readIn, l.tuple.keyId)
                  && l.entry.Ok? && l.entry.value.id == l.tuple.keyId
                  && l.entry == LoadKeyComponents(l.readIn, l.tuple.keyId, l.req.bits))
  {
    RunKeepsInv(w, ms);
    var v := EndOf(w, ms);
    assert i in v.loaders ==> LoaderOk(v, i);
  }

  /** At the start nothing is locked, no transaction is open, and threads have just begun. */
  ghost function Begun(db: Tables, reqs: map<int, Request>): World {
    World(db, {}, map[], map i | i in reqs :: Start(reqs[i]), None)
  }

  lemma StartInv(db: Tables, reqs: map<int, Request>)
    ensures WorldInv(Begun(db, reqs))
  {
  }

  // ---------------------------------------------------------------- redrawn ids

  predicate IsDrawn(op: Op, k: int) {
    DrawsKeyId(op) && op.id == k
  }

  /** An entry only ever comes into being under the id that was drawn for it. */
  lemma NewIdsAreDrawn(t: Tables, op: Op, k: int)
    requires Enabled(t, op) && k !in t.entries && k in After(t, op).entries
    ensures IsDrawn(op, k)
  {
    if Removes(op) {
      RemovesExactly(t, op);
    } else if DrawsKeyId(op) {
      CreationAddsOne(t, op);
    } else {
      OtherOpKeepsKeyBlobs(t, op);
    }
  }

  lemma CreationAddsOne(t: Tables, op: Op)
    requires Enabled(t, op) && DrawsKeyId(op)
    ensures After(t, op).entries.Keys <= t.entries.Keys + {op.id}
  {
    if op.OpStoreKey? && Run(t, op).Commit? {
      StoreNewKeyShape(t, op.key, op.keyType, op.newKey, op.id);
    } else if op.OpStoreCert? && Run(t, op).Commit? {
      StoreNewCertificateKeeps(t, op.key, op.keyType, op.cert, op.kmUuid, op.now, op.id);
    }
  }

  /** What identifies a key besides its id does not change while it exists. */
  ghost predicate SameIdentity(t: Tables, u: Tables, k: int) {
    && k in t.entries && k in u.entries && u.entries[k].keyType == t.entries[k].keyType
    && u.entries[k].kmUuid == t.entries[k].kmUuid
  }

  lemma OpKeepsIdentity(t: Tables, op: Op, k: int)
    requires Enabled(t, op) && k in t.entries && k in After(t, op).entries
    ensures SameIdentity(t, After(t, op), k)
  {
    if Removes(op) {
      RemovesExactly(t, op);
    } else if DrawsKeyId(op) {
      CreationKeepsIdentity(t, op, k);
    } else if op.OpAssign? && Run(t, op).Commit? {
      AssignUntouched(t, op.domain, op.nspace, op.kmUuid);
    }
  }

  lemma CreationKeepsIdentity(t: Tables, op: Op, k: int)
    requires Enabled(t, op) && DrawsKeyId(op) && k in t.entries
    ensures SameIdentity(t, After(t, op), k)
  {
    if op.OpStoreKey? {
      StoringKeepsIdentity(t, op.key, op.keyType, op.newKey, op.id, k);
    } else if op.OpStoreCert? {
      StoringCertKeepsIdentity(t, op.key, op.keyType, op.cert, op.kmUuid, op.now, op.id, k);
    } else {
      CreatingOpLeavesOthers(t, op, k);
    }
  }

  lemma StoringCertKeepsIdentity(t: Tables, key: KeyDescriptor, keyType: KeyType, cert: Bytes, kmUuid: int, now: int,
                                 id: int, k: int)
    requires Drawable(t.entries.Keys, id) && k in t.entries
    ensures var r := StoreNewCertificate(t, key, keyType, cert, kmUuid, now, id);
            r.Commit? ==> SameIdentity(t, r.db, k)
  {
  }

  lemma StoringKeepsIdentity(t: Tables, key: KeyDescriptor, keyType: KeyType, n: NewKey, id: int, k: int)
    requires Drawable(t.entries.Keys, id) && k in t.entries
    ensures var r := StoreNewKey(t, key, keyType, n, id); r.Commit? ==> SameIdentity(t, r.db, k)
  {
    StoreNewKeyShape(t, key, keyType, n, id);
  }

  /** The key exists in every state of the run. */
  ghost predicate Throughout(w: World, ms: seq<Move>, k: int)
    requires IsRun(w, ms)
    decreases |ms|
  {
    k in w.db.entries && (ms != [] ==> Throughout(Step(w, ms[0]), ms[1..], k))
  }

  /** The call, if any, that a move commits. */
  function Committed(w: World, m: Move): Option<Op> {
    if m.Transaction? then Some(m.op)
    else if m.CommitTx? && w.writer.Some? && w.writer.value.job.Call? then Some(w.writer.value.job.op)
    else None
  }

  lemma CommittedIs(w: World, m: Move)
    requires WorldInv(w) && Allowed(w, m)
    ensures var c := Committed(w, m);
            && (c.Some? ==> Enabled(w.db, c.value))
            && Step(w, m).db == if c.Some? then After(w.db, c.value) else w.db
  {
  }

  /** The move commits a call that has drawn the id for an entry. */
  ghost predicate Draws(w: World, m: Move, k: int)
    requires Allowed(w, m)
  {
    var c := Committed(w, m);
    c.Some? && IsDrawn(c.value, k) && k in Step(w, m).db.entries
  }

  ghost predicate Redrawn(w: World, ms: seq<Move>, k: int)
    requires IsRun(w, ms)
    decreases |ms|
  {
    ms != [] && (Draws(w, ms[0], k) || Redrawn(Step(w, ms[0]), ms[1..], k))
  }

  /** A key that is there in the end was there all the time, or its id has been drawn for it since. */
  lemma {:induction false} ThereUnlessRedrawn(w: World, ms: seq<Move>, k: int)
    requires WorldInv(w) && IsRun(w, ms) && k in EndOf(w, ms).db.entries
    ensures Throughout(w, ms, k) || Redrawn(w, ms, k)
    ensures Throughout(w, ms, k) ==> !Redrawn(w, ms, k) && SameIdentity(w.db, EndOf(w, ms).db, k)
    decreases |ms|
  {
    if ms != [] {
      var v := Step(w, ms[0]);
      StepKeepsInv(w, ms[0]);
      CommittedIs(w, ms[0]);
      ThereUnlessRedrawn(v, ms[1..], k);
      if Committed(w, ms[0]).Some? && k in v.db.entries {
        if k in w.db.entries {
          OpKeepsIdentity(w.db, Committed(w, ms[0]).value, k);
        } else {
          NewIdsAreDrawn(w.db, Committed(w, ms[0]).value, k);
        }
      }
    }
  }

  predicate HasTuple(l: Loader) {
    l.Waiting? || l.Locked? || l.Done?
  }

  /** A thread that has been granted access keeps asking for the same key. */
  lemma {:induction false} TupleStays(w: World, ms: seq<Move>, i: int)
    requires IsRun(w, ms) && i in w.loaders && HasTuple(w.loaders[i])
    ensures var v := EndOf(w, ms);
            i in v.loaders && (HasTuple(v.loaders[i]) ==> v.loaders[i].tuple == w.loaders[i].tuple)
            && (HasTuple(v.loaders[i]) || v.loaders[i].Failed?)
    decreases |ms|
  {
    if ms != [] {
      var v := Step(w, ms[0]);
      assert i in v.loaders;
      if HasTuple(v.loaders[i]) {
        TupleStays(v, ms[1..], i);
      } else {
        FailedStays(v, ms[1..], i);
      }
    }
  }

  lemma {:induction false} FailedStays(w: World, ms: seq<Move>, i: int)
    requires IsRun(w, ms) && i in w.loaders && w.loaders[i].Failed?
    ensures i in EndOf(w, ms).loaders && EndOf(w, ms).loaders[i].Failed?
    decreases |ms|
  {
    if ms != [] {
      FailedStays(Step(w, ms[0]), ms[1..], i);
    }
  }

  /**
   A thread that waited for the lock reads the key it was granted access to, which then was there all the time
   it waited, exactly if the id was not drawn for another key meanwhile.
   */
  lemma WaiterReadsItsKeyIff(w: World, ms: seq<Move>, i: int)
    requires WorldInv(w) && IsRun(w, ms) && i in w.loaders && w.loaders[i].Waiting? && w.db == w.loaders[i].checkedIn
    requires var v := EndOf(w, ms); i in v.loaders && v.loaders[i].Done? && v.db == v.loaders[i].readIn
    ensures var v := EndOf(w, ms);
            var k := w.loaders[i].tuple.keyId;
            && v.loaders[i].tuple.keyId == k && v.loaders[i].entry == LoadKeyComponents(v.db, k, v.loaders[i].req.bits)
            && (Throughout(w, ms, k) <==> !Redrawn(w, ms, k))
            && (!Redrawn(w, ms, k) ==> SameIdentity(w.db, v.db, k))
  {
    var v := EndOf(w, ms);
    RunKeepsInv(w, ms);
    TupleStays(w, ms, i);
    assert LoaderOk(v, i);
    ThereUnlessRedrawn(w, ms, w.loaders[i].tuple.keyId);
  }

  // ---------------------------------------------------------------- what the lock on a new id is for

  /** Calls whose new id no guard of theirs covers at the commit. */
  predicate Uncovered(op: Op) {
    op.OpStoreSuper? || op.OpCreateAttestation?
  }

  lemma NewIdIsTarget(t: Tables, op: Op, k: int)
    requires Enabled(t, op) && IsDrawn(op, k) && k in After(t, op).entries && !op.OpStoreSuper?
    ensures Target(t, op) == Some(k)
  {
  }

  /**
   While a guard on an id exists, no entry with that id comes into being, except by the call that holds the guard
   itself, by the storing of a super key, which takes no lock, and by the creation of a pool key, which gives its
   lock up before it commits.
   */
  lemma NoNewEntryUnderGuard(w: World, m: Move, g: int)
    requires WorldInv(w) && Allowed(w, m) && g in w.guards
    requires w.guards[g] !in w.db.entries && w.guards[g] in Step(w, m).db.entries
    ensures Draws(w, m, w.guards[g]) && (Uncovered(Committed(w, m).value) || WritersOwn(w, g))
  {
    CommittedIs(w, m);
    var op := Committed(w, m).value;
    NewIdsAreDrawn(w.db, op, w.guards[g]);
    if !op.OpStoreSuper? {
      NewIdIsTarget(w.db, op, w.guards[g]);
    }
  }

  /** Some call of the run has drawn the id without a guard of its own at the commit. */
  ghost predicate DrawnUncovered(w: World, ms: seq<Move>, k: int)
    requires IsRun(w, ms)
    decreases |ms|
  {
    ms != [] && ((Draws(w, ms[0], k) && Uncovered(Committed(w, ms[0]).value))
                 || DrawnUncovered(Step(w, ms[0]), ms[1..], k))
  }

  lemma GuardStays(w: World, m: Move, g: int)
    requires WorldInv(w) && Allowed(w, m) && g in w.guards && !WritersOwn(w, g) && m != Drop(g)
    ensures var v := Step(w, m); g in v.guards && v.guards[g] == w.guards[g] && !WritersOwn(v, g)
  {
  }

  /** A move cannot draw an id that is guarded, unless it does so uncovered. */
  lemma DrawsUncovered(w: World, m: Move, g: int)
    requires WorldInv(w) && Allowed(w, m) && g in w.guards && !WritersOwn(w, g) && Draws(w, m, w.guards[g])
    ensures Uncovered(Committed(w, m).value)
  {
    CommittedIs(w, m);
    NoNewEntryUnderGuard(w, m, g);
  }

  /**
   A thread that keeps its guard never sees its id drawn again, except uncovered: in every run the key is the same
   one all the time. So otherwise an id can only be drawn again while a thread still waits for its guard.
   */
  lemma {:induction false} HolderSeesNoRedraw(w: World, ms: seq<Move>, g: int)
    requires WorldInv(w) && IsRun(w, ms) && g in w.guards && !WritersOwn(w, g) && Drop(g) !in ms
    ensures var v := EndOf(w, ms);
            var k := w.guards[g];
            && g in v.guards && v.guards[g] == k
            && (Redrawn(w, ms, k) <==> DrawnUncovered(w, ms, k))
            && (k in v.db.entries && !DrawnUncovered(w, ms, k) ==> Throughout(w, ms, k) && SameIdentity(w.db, v.db, k))
    decreases |ms|
  {
    RedrawsUnderGuard(w, ms, g);
    if w.guards[g] in EndOf(w, ms).db.entries {
      ThereUnlessRedrawn(w, ms, w.guards[g]);
    }
  }

  lemma {:induction false} RedrawsUnderGuard(w: World, ms: seq<Move>, g: int)
    requires WorldInv(w) && IsRun(w, ms) && g in w.guards && !WritersOwn(w, g) && Drop(g) !in ms
    ensures g in EndOf(w, ms).guards && EndOf(w, ms).guards[g] == w.guards[g]
    ensures Redrawn(w, ms, w.guards[g]) <==> DrawnUncovered(w, ms, w.guards[g])
    decreases |ms|
  {
    if ms != [] {
      StepKeepsInv(w, ms[0]);
      GuardStays(w, ms[0], g);
      if Draws(w, ms[0], w.guards[g]) {
        DrawsUncovered(w, ms[0], g);
      }
      RedrawsUnderGuard(Step(w, ms[0]), ms[1..], g);
    }
  }

  // ---------------------------------------------------------------- waiting for a lock inside a transaction

  predicate Writes(m: Move) {
    m.Transaction? || m.Begin? || m.TakeId? || m.Release? || m.CommitTx?
  }

  function OwnMoves(job: Job): seq<Move> {
    if HandsOver(job) then [TakeId, CommitTx] else [TakeId, Release, CommitTx]
  }

  /** A call that has its transaction open can finish it by itself exactly if no guard on its id exists. */
  lemma WriterBlocksIff(w: World)
    requires WorldInv(w) && w.writer.Some? && w.writer.value.phase == Drawn
    ensures var wr := w.writer.value;
            && (IsRun(w, OwnMoves(wr.job)) <==> wr.target !in w.locked)
            && (wr.target !in w.locked ==>
                  var v := EndOf(w, OwnMoves(wr.job)); v.db == AfterJob(w.db, wr.job) && v.writer.None?)
  {
    var wr := w.writer.value;
    if wr.target !in w.locked {
      var w1 := Step(w, TakeId);
      if HandsOver(wr.job) {
        RunOf(w1, CommitTx, []);
        RunOf(w, TakeId, [CommitTx]);
        assert [TakeId] + [CommitTx] == [TakeId, CommitTx] && [CommitTx] + [] == [CommitTx];
      } else {
        var w2 := Step(w1, Release);
        RunOf(w2, CommitTx, []);
        RunOf(w1, Release, [CommitTx]);
        RunOf(w, TakeId, [Release, CommitTx]);
        assert [TakeId] + [Release, CommitTx] == [TakeId, Release, CommitTx];
        assert [Release] + [CommitTx] == [Release, CommitTx] && [CommitTx] + [] == [CommitTx];
      }
    }
  }

  /**
   While the guard that such a call waits for is kept, the database is neither written nor opened for writing by
   anyone, in any run; so a holder that wants to write before it drops its guard waits for ever.
   */
  lemma {:induction false} NoWriteUntilDropped(w: World, ms: seq<Move>, h: int)
    requires WorldInv(w) && IsRun(w, ms) && w.writer.Some? && w.writer.value.phase == Drawn
    requires h in w.guards && w.guards[h] == w.writer.value.target && Drop(h) !in ms
    ensures var v := EndOf(w, ms);
            v.db == w.db && v.writer == w.writer && h in v.guards && v.guards[h] == w.guards[h]
    ensures forall i :: 0 <= i < |ms| ==> !Writes(ms[i])
    decreases |ms|
  {
    if ms != [] {
      StepKeepsInv(w, ms[0]);
      GuardStays(w, ms[0], h);
      assert !Writes(ms[0]);
      NoWriteUntilDropped(Step(w, ms[0]), ms[1..], h);
      forall i | 0 <= i < |ms|
        ensures !Writes(ms[i])
      {
        assert i > 0 ==> ms[i] == ms[1..][i - 1];
      }
    }
  }

  // ---------------------------------------------------------------- examples

  lemma RunOf(w: World, m: Move, ms: seq<Move>)
    requires Allowed(w, m) && IsRun(Step(w, m), ms)
    ensures IsRun(w, [m] + ms) && EndOf(w, [m] + ms) == EndOf(Step(w, m), ms)
  {
    assert ([m] + ms)[1..] == ms;
  }

  /** A key stored under id 7, found by its alias and by its id. */
  ghost predicate Stores7(t: Tables, key: KeyDescriptor, n: NewKey) {
    && key.alias.Some? && IsLive(t, 7) && Bound(t.entries[7], key.domain, key.nspace, key.alias.value, Client)
    && LoadKeyEntryId(t, key, Client) == Ok(7)
    && Loads7(t, n)
  }

  ghost predicate Loads7(t: Tables, n: NewKey) {
    LoadKeyComponents(t, 7, BOTH).Ok? && LoadKeyComponents(t, 7, BOTH).value.keyBlob == Some((n.blob, n.blobMeta))
  }

  lemma Store7(t: Tables, key: KeyDescriptor, n: NewKey) returns (u: Tables)
    requires Inv(t) && 7 !in t.entries && Storable(key)
    ensures u == After(t, OpStoreKey(key, Client, n, 7)) && Inv(u) && Stores7(u, key, n)
  {
    u := StoredUnder(t, key, n, 7);
  }

  /** Some state with the first key in it. */
  lemma With7(key: KeyDescriptor, n: NewKey) returns (t: Tables)
    requires Storable(key)
    ensures Inv(t) && Stores7(t, key, n)
  {
    t := Store7(NO_TABLES, key, n);
  }

  lemma FoundById(t: Tables, key: KeyDescriptor, n: NewKey, caller: int)
    requires Stores7(t, key, n)
    ensures LoadAccessTuple(t, ById(7), Client, caller).Ok?
  {
  }

  lemma Remove7(t1: Tables, key: KeyDescriptor, n: NewKey) returns (t2: Tables)
    requires Inv(t1) && Stores7(t1, key, n) && key.domain == APP
    ensures t2 == After(t1, OpUnbind(key, Client, key.nspace, true)) && Inv(t2) && 7 !in t2.entries
  {
    UnbindByAlias(t1, key, 7);
    DeleteEntriesInv(t1, {7});
    t2 := DeleteEntries(t1, {7});
  }

  /** A thread that loads a key of its own and is permitted to. */
  function Asking(key: KeyDescriptor): Request {
    Request(key, Client, BOTH, key.nspace, (d, a) => true)
  }

  function FirstTuple(key: KeyDescriptor): AccessTuple {
    AccessTuple(7, key, None)
  }

  ghost function Loaded(key: KeyDescriptor, t: Tables, u: Tables): Loader {
    Done(Asking(key), t, FirstTuple(key), u, LoadKeyComponents(u, 7, BOTH))
  }

  lemma {:induction false} RunThrough(w: World, ms: seq<Move>, ns: seq<Move>)
    requires IsRun(w, ms) && IsRun(EndOf(w, ms), ns)
    ensures IsRun(w, ms + ns) && EndOf(w, ms + ns) == EndOf(EndOf(w, ms), ns)
    ensures Redrawn(w, ms + ns, 7) <==> Redrawn(w, ms, 7) || Redrawn(EndOf(w, ms), ns, 7)
    decreases |ms|
  {
    if ms == [] {
      assert ms + ns == ns;
    } else {
      var v := FirstMove(w, ms, ns);
      RunThrough(v, ms[1..], ns);
    }
  }

  lemma FirstMove(w: World, ms: seq<Move>, ns: seq<Move>) returns (v: World)
    requires IsRun(w, ms) && ms != []
    ensures IsRun(v, ms[1..]) && EndOf(v, ms[1..]) == EndOf(w, ms)
    ensures Redrawn(w, ms, 7) <==> Draws(w, ms[0], 7) || Redrawn(v, ms[1..], 7)
    ensures IsRun(v, ms[1..] + ns) ==>
              && IsRun(w, ms + ns) && EndOf(w, ms + ns) == EndOf(v, ms[1..] + ns)
              && (Redrawn(w, ms + ns, 7) <==> Draws(w, ms[0], 7) || Redrawn(v, ms[1..] + ns, 7))
  {
    v := Step(w, ms[0]);
    if IsRun(v, ms[1..] + ns) {
      RunOf(w, ms[0], ms[1..] + ns);
      assert ms + ns == [ms[0]] + (ms[1..] + ns) && (ms + ns)[1..] == ms[1..] + ns;
    }
  }

  lemma TwoMoves(w: World, m: Move, n: Move)
    requires Allowed(w, m) && Allowed(Step(w, m), n)
    ensures IsRun(w, [m, n]) && EndOf(w, [m, n]) == Step(Step(w, m), n)
  {
    RunOf(Step(w, m), n, []);
    RunOf(w, m, [n]);
    assert [n] + [] == [n] && [m] + [n] == [m, n];
  }

  /** Thread 2 has loaded key 7 and keeps the guard; nobody else holds one. */
  ghost predicate HeldBy2(w: World) {
    && w.guards == map[2 := 7] && w.locked == {7} && w.writer.None?
    && w.loaders.Keys == {1, 2} && w.loaders[2].Done?
  }

  /** Thread 2 gets the guard, and thread 1 has to wait. */
  lemma SecondWaits(t: Tables, key: KeyDescriptor) returns (v: World)
    requires key.domain == APP && LoadKeyEntryId(t, key, Client) == Ok(7)
    ensures var w := Begun(t, map[1 := Asking(key), 2 := Asking(key)]);
            IsRun(w, [FirstRead(2), FirstRead(1)]) && EndOf(w, [FirstRead(2), FirstRead(1)]) == v
    ensures HeldBy2(v) && v.db == t && v.loaders[1] == Waiting(Asking(key), t, FirstTuple(key))
  {
    var w := Begun(t, map[1 := Asking(key), 2 := Asking(key)]);
    assert key.(nspace := key.nspace) == key;
    assert LoadAccessTuple(t, key, Client, key.nspace) == Ok(FirstTuple(key));
    var u := Step(w, FirstRead(2));
    v := Step(u, FirstRead(1));
    TwoMoves(w, FirstRead(2), FirstRead(1));
  }

  /** The key is removed, and thread 2 gives the guard back. */
  lemma RemovedAndDropped(w: World, unbind: Op) returns (v: World)
    requires HeldBy2(w) && Enabled(w.db, unbind) && Target(w.db, unbind).None?
    ensures IsRun(w, [Transaction(unbind), Drop(2)]) && EndOf(w, [Transaction(unbind), Drop(2)]) == v
    ensures v == w.(db := After(w.db, unbind), locked := {}, guards := map[])
  {
    v := Step(Step(w, Transaction(unbind)), Drop(2));
    TwoMoves(w, Transaction(unbind), Drop(2));
  }

  /** A call creates an entry under id 7 and gives its guard back. */
  lemma StoredAndDropped(w: World, store: Op) returns (ms: seq<Move>, v: World)
    requires w.writer.None? && w.guards == map[] && w.locked == {} && 3 !in w.loaders
    requires Enabled(w.db, store) && Target(w.db, store) == Some(7) && HandsOver(Call(store))
    requires IsDrawn(store, 7) && 7 in After(w.db, store).entries
    ensures ms == [Begin(3, Call(store)), TakeId] + [CommitTx, Drop(3)] && IsRun(w, ms) && EndOf(w, ms) == v
    ensures v == w.(db := After(w.db, store)) && Redrawn(w, ms, 7)
  {
    var w1 := Step(w, Begin(3, Call(store)));
    var w2 := Step(w1, TakeId);
    TwoMoves(w, Begin(3, Call(store)), TakeId);
    var w3 := Step(w2, CommitTx);
    assert w3.guards == map[3 := 7] && w3.locked == {7};
    TwoMoves(w2, CommitTx, Drop(3));
    assert Draws(w2, CommitTx, 7);
    v := Step(w3, Drop(3));
    ms := [Begin(3, Call(store)), TakeId] + [CommitTx, Drop(3)];
    RunThrough(w, [Begin(3, Call(store)), TakeId], [CommitTx, Drop(3)]);
  }

  /** The waiting thread gets the guard and reads by id. */
  lemma WokenReads(w: World, key: KeyDescriptor, t: Tables) returns (v: World)
    requires w.guards == map[] && w.locked == {} && 1 in w.loaders
    requires w.loaders[1] == Waiting(Asking(key), t, FirstTuple(key))
    requires LoadAccessTuple(w.db, ById(7), Client, key.nspace).Ok?
    ensures IsRun(w, [Wake(1), SecondRead(1)]) && EndOf(w, [Wake(1), SecondRead(1)]) == v
    ensures 1 in v.loaders && v.loaders[1] == Loaded(key, t, w.db)
  {
    v := Step(Step(w, Wake(1)), SecondRead(1));
    TwoMoves(w, Wake(1), SecondRead(1));
  }

  /**
   Two threads load key 7 and the second has to wait. The key is removed, the guard given back, and before the
   waiting thread wakes up the id is drawn, locked and given back for a key of another owner: the thread was
   granted access to the first key and reads the second.
   */
  lemma RedrawnKeyIsRead(mine: KeyDescriptor, theirs: KeyDescriptor, first: NewKey, second: NewKey)
    returns (w: World, ms: seq<Move>)
    requires Storable(mine) && Storable(theirs) && mine.domain == APP && theirs.domain == APP
             && mine.nspace != theirs.nspace
    ensures w == Begun(w.db, map[1 := Asking(mine), 2 := Asking(mine)]) && Stores7(w.db, mine, first)
    ensures IsRun(w, ms) && Redrawn(w, ms, 7)
    ensures var v := EndOf(w, ms);
            && 1 in v.loaders && v.loaders[1].Done? && v.loaders[1].req.key == mine
            && v.loaders[1].entry.Ok? && v.loaders[1].entry.value.keyBlob == Some((second.blob, second.blobMeta))
  {
    var t1 := With7(mine, first);
    var t2 := Remove7(t1, mine, first);
    var t3 := Store7(t2, theirs, second);
    FoundById(t3, theirs, second, mine.nspace);
    w := Begun(t1, map[1 := Asking(mine), 2 := Asking(mine)]);
    ms := WaitThrough(t1, t2, t3, mine, OpUnbind(mine, Client, mine.nspace, true),
                      OpStoreKey(theirs, Client, second, 7));
  }

  lemma WaitThrough(t1: Tables, t2: Tables, t3: Tables, mine: KeyDescriptor, unbind: Op, store: Op)
    returns (ms: seq<Move>)
    requires mine.domain == APP && LoadKeyEntryId(t1, mine, Client) == Ok(7)
    requires Enabled(t1, unbind) && Target(t1, unbind).None? && t2 == After(t1, unbind)
    requires Enabled(t2, store) && Target(t2, store) == Some(7) && HandsOver(Call(store)) && t3 == After(t2, store)
    requires IsDrawn(store, 7) && 7 in t3.entries && LoadAccessTuple(t3, ById(7), Client, mine.nspace).Ok?
    ensures var w := Begun(t1, map[1 := Asking(mine), 2 := Asking(mine)]);
            && IsRun(w, ms) && Redrawn(w, ms, 7)
            && var v := EndOf(w, ms); 1 in v.loaders && v.loaders[1] == Loaded(mine, t1, t3)
  {
    var w := Begun(t1, map[1 := Asking(mine), 2 := Asking(mine)]);
    var a := SecondWaits(t1, mine);
    var b := RemovedAndDropped(a, unbind);
    var rest := StoredThenRead(b, t1, mine, store);
    RunThrough(a, [Transaction(unbind), Drop(2)], rest);
    ms := [FirstRead(2), FirstRead(1)] + ([Transaction(unbind), Drop(2)] + rest);
    RunThrough(w, [FirstRead(2), FirstRead(1)], [Transaction(unbind), Drop(2)] + rest);
  }

  lemma StoredThenRead(w: World, t: Tables, mine: KeyDescriptor, store: Op) returns (ms: seq<Move>)
    requires w.writer.None? && w.guards == map[] && w.locked == {} && w.loaders.Keys == {1, 2}
    requires w.loaders[1] == Waiting(Asking(mine), t, FirstTuple(mine))
    requires Enabled(w.db, store) && Target(w.db, store) == Some(7) && HandsOver(Call(store)) && IsDrawn(store, 7)
    requires var u := After(w.db, store);
             7 in u.entries && LoadAccessTuple(u, ById(7), Client, mine.nspace).Ok?
    ensures IsRun(w, ms) && Redrawn(w, ms, 7)
    ensures var v := EndOf(w, ms); 1 in v.loaders && v.loaders[1] == Loaded(mine, t, After(w.db, store))
  {
    var first, u := StoredAndDropped(w, store);
    var v := WokenReads(u, mine, t);
    ms := first + [Wake(1), SecondRead(1)];
    RunThrough(w, first, [Wake(1), SecondRead(1)]);
  }

  /**
   A thread has loaded key 7 and keeps the guard, the key is removed, and a call draws the id for another key: with
   its transaction open it waits for the guard, and the holder's next write waits for the transaction.
   */
  lemma HolderAndWriterBlock(mine: KeyDescriptor, theirs: KeyDescriptor, first: NewKey, second: NewKey)
    returns (w: World, ms: seq<Move>)
    requires Storable(mine) && Storable(theirs) && mine.domain == APP
    ensures w == Begun(w.db, map[1 := Asking(mine), 2 := Asking(mine)]) && IsRun(w, ms)
    ensures var v := EndOf(w, ms);
            && WorldInv(v) && 2 in v.guards && 2 in v.loaders && v.loaders[2].Done?
            && v.writer.Some? && v.writer.value.phase == Drawn && v.writer.value.target == v.guards[2]
            && forall op :: !Allowed(v, Transaction(op))
  {
    var t1 := With7(mine, first);
    var t2 := Remove7(t1, mine, first);
    w := Begun(t1, map[1 := Asking(mine), 2 := Asking(mine)]);
    var a := SecondWaits(t1, mine);
    var unbind, job := OpUnbind(mine, Client, mine.nspace, true), Call(OpStoreKey(theirs, Client, second, 7));
    TwoMoves(a, Transaction(unbind), Begin(3, job));
    ms := [FirstRead(2), FirstRead(1)] + [Transaction(unbind), Begin(3, job)];
    RunThrough(w, [FirstRead(2), FirstRead(1)], [Transaction(unbind), Begin(3, job)]);
    StartInv(t1, map[1 := Asking(mine), 2 := Asking(mine)]);
    RunKeepsInv(w, ms);
  }

  /** A super key comes into being under the guard of a thread that has asked for its id. */
  lemma SuperKeyUnderGuard(user: int, alias: string, blob: Bytes, meta: BlobMeta, keyMeta: KeyMeta)
    ensures var w := Begun(NO_TABLES, map[1 := Asking(ById(7))]);
            var ms := [LockById(1), Transaction(OpStoreSuper(user, alias, blob, meta, keyMeta, 7))];
            && IsRun(w, ms)
            && var v := EndOf(w, ms); v.guards == map[1 := 7] && 7 in v.db.entries
  {
    var w := Begun(NO_TABLES, map[1 := Asking(ById(7))]);
    TwoMoves(w, LockById(1), Transaction(OpStoreSuper(user, alias, blob, meta, keyMeta, 7)));
  }

  /** A pool key likewise, between the end of the transaction's closure and the commit. */
  lemma PoolKeyUnderGuard(maced: Bytes, raw: Bytes, key: Bytes) returns (ms: seq<Move>)
    ensures var w := Begun(NO_TABLES, map[1 := Asking(ById(7))]);
            && ms == [Begin(3, Call(OpCreateAttestation(maced, raw, key, 0, 7))), TakeId]
                     + ([Release, LockById(1)] + [CommitTx])
            && IsRun(w, ms)
            && var v := EndOf(w, ms); v.guards == map[1 := 7] && 7 in v.db.entries
  {
    var w := Begun(NO_TABLES, map[1 := Asking(ById(7))]);
    var begin := Begin(3, Call(OpCreateAttestation(maced, raw, key, 0, 7)));
    TwoMoves(w, begin, TakeId);
    var a := Step(Step(w, begin), TakeId);
    var b := ReleasedThenLocked(a);
    RunOf(b, CommitTx, []);
    assert [CommitTx] + [] == [CommitTx];
    RunThrough(a, [Release, LockById(1)], [CommitTx]);
    ms := [begin, TakeId] + ([Release, LockById(1)] + [CommitTx]);
    RunThrough(w, [begin, TakeId], [Release, LockById(1)] + [CommitTx]);
  }

  lemma ReleasedThenLocked(w: World) returns (v: World)
    requires w.guards == map[3 := 7] && w.locked == {7} && w.loaders == map[1 := Start(Asking(ById(7)))]
    requires w.writer.Some? && w.writer.value.guard == 3 && w.writer.value.phase == Holding
    requires !HandsOver(w.writer.value.job)
    ensures IsRun(w, [Release, LockById(1)]) && EndOf(w, [Release, LockById(1)]) == v
    ensures v.db == w.db && v.guards == map[1 := 7] && v.writer == Enter(w, Released).writer
  {
    var u := Step(w, Release);
    assert u.locked == {} && u.guards == map[];
    v := Step(u, LockById(1));
    TwoMoves(w, Release, LockById(1));
  }

  // ---------------------------------------------------------------- the object

  /** The set of key ids for which a guard exists. */
  class KeyIdLockDb {
    var locked: set<int>

    constructor ()
      ensures locked == {}
    {
      locked := {};
    }

    /** One pass of the wait loop of a blocking acquisition, and all of a non-blocking one. */
    method TryGet(keyId: int, ghost w: World, ghost guard: int) returns (acquired: bool)
      requires locked == w.locked
      modifies this
      ensures acquired <==> keyId !in old(locked)
      ensures locked == if acquired then Lock(w, guard, keyId).locked else w.locked
    {
      acquired := keyId !in locked;
      locked := locked + {keyId};
    }

    method Release(keyId: int, ghost w: World, ghost guard: int)
      requires locked == w.locked && Allowed(w, Drop(guard)) && w.guards[guard] == keyId
      modifies this
      ensures locked == Step(w, Drop(guard)).locked
    {
      locked := locked - {keyId};
    }
  }
}
