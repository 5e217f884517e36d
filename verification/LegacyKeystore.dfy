/**
 The store for legacy entries: new entries live in a database, old ones in files that are moved to the
 database one at a time when they are asked for. One worker touches the files; any number of clients use
 the database at the same time.
 */
module LegacyKeystore {
  import opened KeystoreTypes

  type Key = (int, string)

  datatype Scope = OfUid(uid: int) | OfUser(user: int)

  const AID_USER_OFFSET := 100000
  const AID_WIFI := 1010
  const WIFI_NAMESPACE := 102
  const U32 := 0x1_0000_0000

  predicate InScope(scope: Scope, k: Key) {
    match scope
    case OfUid(u) => k.0 == u
    case OfUser(n) => k.0 / AID_USER_OFFSET == n
  }

  /** The uid whose entries go with a namespace; other namespaces have none. */
  function UidOfNamespace(domain: Domain, nspace: int): Option<int> {
    match domain
    case APP => Some(nspace % U32)
    case SELINUX => if nspace == WIFI_NAMESPACE then Some(AID_WIFI) else None
    case _ => None
  }

  // ---------------------------------------------------------------- state

  datatype Stores = Stores(db: map<Key, Bytes>, legacy: map<Key, Bytes>, imported: set<Key>)

  /** What clients are meant to see: one map. */
  function Visible(s: Stores): map<Key, Bytes> {
    s.legacy + s.db
  }

  datatype Call =
    | Get(key: Key)
    | Put(key: Key, value: Bytes)
    | Remove(key: Key)
    | List(uid: int, prefix: string)
    | Delete(scope: Scope)

  datatype Answer = Found(value: Bytes) | Missing | Success | Names(names: set<Key>) | Failure

  /** `Served` carries what the worker reported, and whether it failed on the files of the call. */
  datatype Pc =
    | Fresh
    | Queued
    | Served(migrated: bool, names: set<Key>, failed: bool)
    | Done(answer: Answer)

  /** A call with the entries that have been visible ever since it began and those that have been visible at all. */
  datatype Client = Client(call: Call, pc: Pc, always: set<Key>, ever: set<Key>)

  datatype Worker =
    | Idle
    | Copying(client: nat, key: Key)
    | Dropping(client: nat, key: Key)
    | Clearing(client: nat, scope: Scope)

  datatype State = State(stores: Stores, worker: Worker, clients: map<nat, Client>)

  datatype Event =
    | Begin(client: nat, call: Call)
    | ReadDb(client: nat)
    | Serve(client: nat)
    | Copy
    | DropFile
    | FailFetch
    | Clear(key: Key)
    | EndClear
    | UseDb(client: nat)

  // ---------------------------------------------------------------- steps

  predicate IsQueued(s: State, c: nat) {
    c in s.clients && s.clients[c].pc.Queued?
  }

  predicate LegacyIn(s: Stores, scope: Scope) {
    exists k :: k in s.legacy && InScope(scope, k)
  }

  predicate Possible(s: State, e: Event) {
    match e
    case Begin(c, _) => c !in s.clients
    case ReadDb(c) => c in s.clients && s.clients[c].pc.Fresh? && s.clients[c].call.Get?
    case Serve(c) => IsQueued(s, c) && s.worker.Idle?
    case Copy => s.worker.Copying? && s.worker.key in s.stores.legacy && IsQueued(s, s.worker.client)
    case DropFile => s.worker.Dropping? && IsQueued(s, s.worker.client)
    case FailFetch => (s.worker.Copying? || s.worker.Dropping?) && IsQueued(s, s.worker.client)
    case Clear(k) => s.worker.Clearing? && k in s.stores.legacy && InScope(s.worker.scope, k)
    case EndClear => s.worker.Clearing? && IsQueued(s, s.worker.client)
    case UseDb(c) => c in s.clients && s.clients[c].pc.Served?
  }

  function At(s: State, c: nat, pc: Pc): State
    requires c in s.clients
  {
    s.(clients := s.clients[c := s.clients[c].(pc := pc)])
  }

  function NewClient(s: State, call: Call): Client {
    var seen := Visible(s.stores).Keys;
    Client.Client(call, if call.Get? then Fresh else Queued, seen, seen)
  }

  function UidKeys(m: map<Key, Bytes>, uid: int): set<Key> {
    set k | k in m && k.0 == uid
  }

  function WithPrefix(names: set<Key>, prefix: string): set<Key> {
    set k | k in names && prefix <= k.1
  }

  function ServeCall(s: State, c: nat): State
    requires c in s.clients
  {
    match s.clients[c].call
    case List(uid, _) => At(s, c, Served(false, UidKeys(s.stores.legacy, uid), false))
    case Delete(scope) => s.(worker := Clearing(c, scope))
    case Get(k) => Fetch(s, c, k)
    case Put(k, _) => Fetch(s, c, k)
    case Remove(k) => Fetch(s, c, k)
  }

  /** Begins to move an entry to the database unless that has been done or there is none. */
  function Fetch(s: State, c: nat, k: Key): State
    requires c in s.clients
  {
    if k in s.stores.imported then At(s, c, Served(true, {}, false))
    else if k in s.stores.legacy then s.(worker := Copying(c, k))
    else At(s, c, Served(false, {}, false))
  }

  /** The entry cannot be copied or its file not removed: `get` fails, `put` and `remove` go on regardless. */
  function Fail(s: State, c: nat): State
    requires c in s.clients
  {
    At(s.(worker := Idle), c, if s.clients[c].call.Get? then Done(Failure) else Served(false, {}, true))
  }

  function ReadFirst(s: State, c: nat, k: Key): State
    requires c in s.clients
  {
    if k in s.stores.db then At(s, c, Done(Found(s.stores.db[k]))) else At(s, c, Queued)
  }

  /** The last access to the database, which completes the call. */
  function Finish(s: State, c: nat): State
    requires c in s.clients && s.clients[c].pc.Served?
  {
    var db := s.stores.db;
    match s.clients[c].call
    case Get(k) =>
      At(s, c, Done(if s.clients[c].pc.migrated && k in db then Found(db[k]) else Missing))
    case Put(k, v) => At(s.(stores := s.stores.(db := db[k := v])), c, Done(Success))
    case Remove(k) =>
      At(s.(stores := s.stores.(db := db - {k})), c, Done(if k in db then Success else Missing))
    case List(uid, prefix) => At(s, c, Done(Names(WithPrefix(s.clients[c].pc.names + UidKeys(db, uid), prefix))))
    case Delete(scope) =>
      At(s.(stores := s.stores.(db := map k | k in db && !InScope(scope, k) :: db[k])), c, Done(Success))
  }

  function Act(s: State, e: Event): State
    requires Possible(s, e)
  {
    match e
    case Begin(c, call) => s.(clients := s.clients[c := NewClient(s, call)])
    case ReadDb(c) => ReadFirst(s, c, s.clients[c].call.key)
    case Serve(c) => ServeCall(s, c)
    case Copy =>
      s.(stores := s.stores.(db := s.stores.db[s.worker.key := s.stores.legacy[s.worker.key]]),
         worker := Dropping(s.worker.client, s.worker.key))
    case DropFile =>
      At(s.(stores := s.stores.(legacy := s.stores.legacy - {s.worker.key},
                                imported := s.stores.imported + {s.worker.key}),
            worker := Idle),
         s.worker.client, Served(true, {}, false))
    case FailFetch => Fail(s, s.worker.client)
    case Clear(k) => s.(stores := s.stores.(legacy := s.stores.legacy - {k}))
    case EndClear =>
      At(s.(worker := Idle), s.worker.client, Served(false, {}, LegacyIn(s.stores, s.worker.scope)))
    case UseDb(c) => Finish(s, c)
  }

  /** Every call under way takes note of what is visible now. */
  function Watch(s: State): State {
    var seen := Visible(s.stores).Keys;
    s.(clients := map c | c in s.clients ::
         if s.clients[c].pc.Done? then s.clients[c]
         else s.clients[c].(always := s.clients[c].always * seen, ever := s.clients[c].ever + seen))
  }

  function Next(s: State, e: Event): State
    requires Possible(s, e)
  {
    Watch(Act(s, e))
  }

  /** No file access fails: entries are moved, and a deletion ends with its files gone. */
  predicate Works(s: State, e: Event)
    requires Possible(s, e)
  {
    !e.FailFetch? && (e.EndClear? ==> !LegacyIn(s.stores, s.worker.scope))
  }

  // ---------------------------------------------------------------- invariant while file accesses work

  ghost predicate StoresOk(s: Stores) {
    && s.imported !! s.legacy.Keys
    && forall k :: k in s.legacy && k in s.db ==> s.legacy[k] == s.db[k]
  }

  predicate OnKey(call: Call, k: Key) {
    (call.Get? || call.Put? || call.Remove?) && call.key == k
  }

  ghost predicate WorkerOk(s: State) {
    match s.worker
    case Idle => true
    case Copying(c, k) => k in s.stores.legacy && IsQueued(s, c) && OnKey(s.clients[c].call, k)
    case Dropping(c, k) => k in s.stores.legacy && k in s.stores.db && IsQueued(s, c) && OnKey(s.clients[c].call, k)
    case Clearing(c, scope) => IsQueued(s, c) && s.clients[c].call == Delete(scope)
  }

  /** An entry that a waiting `get` did not find in the database is still in its file or has been moved since. */
  ghost predicate Findable(s: State, k: Key) {
    || k in s.stores.imported
    || (k in s.stores.legacy && (k in s.stores.db ==> s.worker.Dropping? && s.worker.key == k))
  }

  ghost predicate GetOk(s: State, k: Key, pc: Pc, always: set<Key>) {
    match pc
    case Fresh => true
    case Queued => k in always ==> Findable(s, k)
    case Served(migrated, _, _) => if migrated then k in s.stores.imported else k !in always
    case Done(answer) => answer.Found? || (answer.Missing? && k !in always)
  }

  ghost predicate ListOk(s: State, uid: int, prefix: string, pc: Pc, always: set<Key>, ever: set<Key>) {
    match pc
    case Fresh => false
    case Queued => true
    case Served(_, names, _) =>
      && names <= ever
      && (forall k :: k in names ==> k.0 == uid)
      && (forall k :: k in always && k.0 == uid ==> k in names || k !in s.stores.legacy)
    case Done(answer) =>
      && answer.Names? && answer.names <= ever
      && (forall k :: k in answer.names ==> k.0 == uid && prefix <= k.1)
      && (forall k :: k in always && k.0 == uid && prefix <= k.1 ==> k in answer.names)
  }

  ghost predicate ClientOk(s: State, c: nat)
    requires c in s.clients
  {
    var cl := s.clients[c];
    && (!cl.pc.Done? ==> cl.always <= Visible(s.stores).Keys <= cl.ever)
    && match cl.call
       case Get(k) => GetOk(s, k, cl.pc, cl.always)
       case Put(k, _) => !cl.pc.Fresh? && (cl.pc.Served? ==> k !in s.stores.legacy)
       case Remove(k) => !cl.pc.Fresh? && (cl.pc.Served? ==> k !in s.stores.legacy)
       case List(uid, prefix) => ListOk(s, uid, prefix, cl.pc, cl.always, cl.ever)
       case Delete(scope) => !cl.pc.Fresh? && (cl.pc.Served? ==> !LegacyIn(s.stores, scope))
  }

  ghost predicate Inv(s: State) {
    && StoresOk(s.stores)
    && WorkerOk(s)
    && forall c :: c in s.clients ==> ClientOk(s, c)
  }

  /** Files only go away, and an entry that remains visible remains findable. */
  ghost predicate Gentle(s: State, t: State) {
    && t.stores.legacy.Keys <= s.stores.legacy.Keys
    && s.stores.imported <= t.stores.imported
    && forall k :: Findable(s, k) && k in Visible(t.stores) ==> Findable(t, k)
  }

  function Watched(cl: Client, s: Stores): Client {
    if cl.pc.Done? then cl
    else cl.(always := cl.always * Visible(s).Keys, ever := cl.ever + Visible(s).Keys)
  }

  lemma ClientStays(s: State, t: State, c: nat)
    requires c in s.clients && ClientOk(s, c) && Gentle(s, t)
    requires c in t.clients && t.clients[c] == Watched(s.clients[c], t.stores)
    ensures ClientOk(t, c)
  {
  }

  /** It is enough to look at the stores, the worker and the one call that moved. */
  lemma InvStays(s: State, t: State, moved: nat)
    requires Inv(s) && Gentle(s, t) && StoresOk(t.stores) && WorkerOk(t)
    requires forall c :: c in t.clients && c != moved ==>
               c in s.clients && t.clients[c] == Watched(s.clients[c], t.stores)
    requires moved in t.clients ==> ClientOk(t, moved)
    ensures Inv(t)
  {
    forall c | c in t.clients && c != moved
      ensures ClientOk(t, c)
    {
      ClientStays(s, t, c);
    }
  }

  lemma BeginKeepsInv(s: State, c: nat, call: Call)
    requires Inv(s) && Possible(s, Begin(c, call))
    ensures Inv(Next(s, Begin(c, call)))
  {
    InvStays(s, Next(s, Begin(c, call)), c);
  }

  lemma ReadDbKeepsInv(s: State, c: nat)
    requires Inv(s) && Possible(s, ReadDb(c))
    ensures Inv(Next(s, ReadDb(c)))
  {
    var t := Next(s, ReadDb(c));
    assert ClientOk(s, c);
    InvStays(s, t, c);
  }

  lemma ServeIsGentle(s: State, c: nat)
    requires Inv(s) && Possible(s, Serve(c))
    ensures var t := Next(s, Serve(c)); t.stores == s.stores && Gentle(s, t) && WorkerOk(t)
  {
  }

  lemma ServedIsOk(s: State, c: nat)
    requires Inv(s) && Possible(s, Serve(c))
    ensures ClientOk(Next(s, Serve(c)), c)
  {
    var t := Next(s, Serve(c));
    assert ClientOk(s, c);
    ServeIsGentle(s, c);
    if s.clients[c].call.Delete? || t.worker.Copying? {
      ClientStays(s, t, c);
    }
  }

  lemma ServeKeepsInv(s: State, c: nat)
    requires Inv(s) && Possible(s, Serve(c))
    ensures Inv(Next(s, Serve(c)))
  {
    ServeIsGentle(s, c);
    ServedIsOk(s, c);
    InvStays(s, Next(s, Serve(c)), c);
  }

  lemma CopyKeepsInv(s: State)
    requires Inv(s) && Possible(s, Copy)
    ensures Inv(Next(s, Copy))
  {
    var t := Next(s, Copy);
    var c := s.worker.client;
    assert ClientOk(s, c);
    ClientStays(s, t, c);
    InvStays(s, t, c);
  }

  lemma DropFileKeepsInv(s: State)
    requires Inv(s) && Possible(s, DropFile)
    ensures Inv(Next(s, DropFile))
  {
    var t := Next(s, DropFile);
    var c := s.worker.client;
    assert ClientOk(s, c);
    assert Visible(t.stores) == Visible(s.stores);
    InvStays(s, t, c);
  }

  lemma ClearKeepsInv(s: State, k: Key)
    requires Inv(s) && Possible(s, Clear(k))
    ensures Inv(Next(s, Clear(k)))
  {
    var t := Next(s, Clear(k));
    var c := s.worker.client;
    assert ClientOk(s, c);
    ClientStays(s, t, c);
    InvStays(s, t, c);
  }

  lemma EndClearKeepsInv(s: State)
    requires Inv(s) && Possible(s, EndClear) && Works(s, EndClear)
    ensures Inv(Next(s, EndClear))
  {
    var t := Next(s, EndClear);
    assert ClientOk(s, s.worker.client);
    InvStays(s, t, s.worker.client);
  }

  lemma FinishKeepsStores(s: State, c: nat)
    requires Inv(s) && Possible(s, UseDb(c))
    ensures var t := Finish(s, c);
            && StoresOk(t.stores) && t.worker == s.worker
            && t.stores.legacy == s.stores.legacy && t.stores.imported == s.stores.imported
            && forall k :: (k in s.stores.legacy ==> (k in s.stores.db <==> k in t.stores.db))
  {
    assert ClientOk(s, c);
  }

  lemma UseDbIsGentle(s: State, c: nat)
    requires Inv(s) && Possible(s, UseDb(c))
    ensures Gentle(s, Next(s, UseDb(c)))
  {
    FinishKeepsStores(s, c);
  }

  lemma UseDbKeepsWorker(s: State, c: nat)
    requires Inv(s) && Possible(s, UseDb(c))
    ensures WorkerOk(Next(s, UseDb(c))) && StoresOk(Next(s, UseDb(c)).stores)
  {
    FinishKeepsStores(s, c);
  }

  lemma UseDbMovesOne(s: State, c: nat, p: nat)
    requires Possible(s, UseDb(c)) && p in s.clients && p != c
    ensures var t := Next(s, UseDb(c)); p in t.clients && t.clients[p] == Watched(s.clients[p], t.stores)
  {
    assert Finish(s, c).clients[p] == s.clients[p];
  }

  lemma UseDbKeepsInv(s: State, c: nat)
    requires Inv(s) && Possible(s, UseDb(c))
    ensures Inv(Next(s, UseDb(c)))
  {
    var t := Next(s, UseDb(c));
    UseDbIsGentle(s, c);
    UseDbKeepsWorker(s, c);
    FinishAnswers(s, c);
    forall p | p in t.clients && p != c
      ensures ClientOk(t, p)
    {
      UseDbMovesOne(s, c, p);
      ClientStays(s, t, p);
    }
  }

  lemma FinishAnswers(s: State, c: nat)
    requires Inv(s) && Possible(s, UseDb(c))
    ensures ClientOk(Next(s, UseDb(c)), c)
  {
    assert ClientOk(s, c);
    var t := Next(s, UseDb(c));
    assert t.clients[c] == Finish(s, c).clients[c] && t.clients[c].pc.Done?;
  }

  lemma EventKeepsInv(s: State, e: Event)
    requires Inv(s) && Possible(s, e) && Works(s, e)
    ensures Inv(Next(s, e))
  {
    match e
    case Begin(c, call) => BeginKeepsInv(s, c, call);
    case ReadDb(c) => ReadDbKeepsInv(s, c);
    case Serve(c) => ServeKeepsInv(s, c);
    case Copy => CopyKeepsInv(s);
    case DropFile => DropFileKeepsInv(s);
    case Clear(k) => ClearKeepsInv(s, k);
    case EndClear => EndClearKeepsInv(s);
    case UseDb(c) => UseDbKeepsInv(s, c);
  }

  // ---------------------------------------------------------------- every run

  ghost predicate IsRun(s: State, es: seq<Event>)
    decreases |es|
  {
    es != [] ==> Possible(s, es[0]) && IsRun(Next(s, es[0]), es[1..])
  }

  ghost function EndOf(s: State, es: seq<Event>): State
    requires IsRun(s, es)
    decreases |es|
  {
    if es == [] then s else EndOf(Next(s, es[0]), es[1..])
  }

  ghost predicate AllWork(s: State, es: seq<Event>)
    requires IsRun(s, es)
    decreases |es|
  {
    es != [] ==> Works(s, es[0]) && AllWork(Next(s, es[0]), es[1..])
  }

  lemma {:induction false} RunKeepsInv(s: State, es: seq<Event>)
    requires Inv(s) && IsRun(s, es) && AllWork(s, es)
    ensures Inv(EndOf(s, es))
    decreases |es|
  {
    if es != [] {
      EventKeepsInv(s, es[0]);
      RunKeepsInv(Next(s, es[0]), es[1..]);
    }
  }

  // ---------------------------------------------------------------- one map

  /** What a step does to the one map that clients see: nothing, unless it completes a call that changes it. */
  ghost function Effect(s: State, e: Event): map<Key, Bytes>
    requires Possible(s, e)
  {
    var m := Visible(s.stores);
    if e.Clear? then (if e.key in s.stores.db then m else m - {e.key})
    else if e.UseDb? then
      match s.clients[e.client].call
      case Put(k, v) => m[k := v]
      case Remove(k) => m - {k}
      case Delete(scope) => map k | k in m && !InScope(scope, k) :: m[k]
      case _ => m
    else m
  }

  lemma OverlayPut(l: map<Key, Bytes>, d: map<Key, Bytes>, k: Key, v: Bytes)
    ensures l + d[k := v] == (l + d)[k := v]
  {
  }

  lemma OverlayRemove(l: map<Key, Bytes>, d: map<Key, Bytes>, k: Key)
    requires k !in l
    ensures l + (d - {k}) == (l + d) - {k}
  {
  }

  lemma CallLooksLikeOneMap(s: State, c: nat)
    requires Inv(s) && Possible(s, UseDb(c))
    ensures Visible(Next(s, UseDb(c)).stores) == Effect(s, UseDb(c))
  {
    assert ClientOk(s, c);
    assert Next(s, UseDb(c)).stores == Finish(s, c).stores;
    match s.clients[c].call
    case Put(k, v) => OverlayPut(s.stores.legacy, s.stores.db, k, v);
    case Remove(k) => OverlayRemove(s.stores.legacy, s.stores.db, k);
    case Delete(scope) =>
      DeletedIsGone(s, c);
      assert Visible(Finish(s, c).stores) == Effect(s, UseDb(c));
    case Get(_) =>
    case List(_, _) =>
  }

  lemma LooksLikeOneMap(s: State, e: Event)
    requires Inv(s) && Possible(s, e)
    ensures Visible(Next(s, e).stores) == Effect(s, e)
  {
    if e.UseDb? {
      CallLooksLikeOneMap(s, e.client);
    } else if e.Copy? || e.DropFile? || e.Clear? {
      assert Visible(Next(s, e).stores) == Effect(s, e);
    }
  }

  lemma DeletedIsGone(s: State, c: nat)
    requires Inv(s) && Possible(s, UseDb(c)) && s.clients[c].call.Delete?
    ensures forall k :: k in s.stores.legacy ==> !InScope(s.clients[c].call.scope, k)
  {
    assert ClientOk(s, c);
  }

  // ---------------------------------------------------------------- when file accesses fail

  /** A file that has been moved is gone. */
  ghost predicate FilesOk(s: Stores) {
    s.imported !! s.legacy.Keys
  }

  ghost predicate WorkerSound(s: State) {
    match s.worker
    case Idle => true
    case Copying(c, k) => k in s.stores.legacy && IsQueued(s, c) && OnKey(s.clients[c].call, k)
    case Dropping(c, k) => k in s.stores.legacy && IsQueued(s, c) && OnKey(s.clients[c].call, k)
    case Clearing(c, scope) => IsQueued(s, c) && s.clients[c].call == Delete(scope)
  }

  /** A call for which nothing failed has no file left behind it. */
  ghost predicate ClientSound(s: State, c: nat)
    requires c in s.clients
  {
    var cl := s.clients[c];
    && (!cl.pc.Done? ==> cl.always <= Visible(s.stores).Keys <= cl.ever)
    && match cl.call
       case Get(k) => cl.pc.Served? && cl.pc.migrated ==> k in s.stores.imported
       case List(uid, prefix) => ListOk(s, uid, prefix, cl.pc, cl.always, cl.ever)
       case Put(k, _) => cl.pc.Served? && !cl.pc.failed ==> k !in s.stores.legacy
       case Remove(k) => cl.pc.Served? && !cl.pc.failed ==> k !in s.stores.legacy
       case Delete(scope) => cl.pc.Served? && !cl.pc.failed ==> !LegacyIn(s.stores, scope)
  }

  ghost predicate Sound(s: State) {
    && FilesOk(s.stores)
    && WorkerSound(s)
    && forall c :: c in s.clients ==> ClientSound(s, c)
  }

  lemma SoundStays(s: State, t: State, moved: nat)
    requires Sound(s) && FilesOk(t.stores) && WorkerSound(t)
    requires t.stores.legacy.Keys <= s.stores.legacy.Keys && s.stores.imported <= t.stores.imported
    requires forall c :: c in t.clients && c != moved ==>
               c in s.clients && t.clients[c] == Watched(s.clients[c], t.stores)
    requires moved in t.clients ==> ClientSound(t, moved)
    ensures Sound(t)
  {
    forall c | c in t.clients && c != moved
      ensures ClientSound(t, c)
    {
      assert ClientSound(s, c);
    }
  }

  /** The call that a step moves on. */
  function Moved(s: State, e: Event): nat
    requires Possible(s, e)
  {
    match e
    case Begin(c, _) => c
    case ReadDb(c) => c
    case Serve(c) => c
    case UseDb(c) => c
    case _ => s.worker.client
  }

  lemma ActMovesOne(s: State, e: Event, c: nat)
    requires Sound(s) && Possible(s, e) && c in Act(s, e).clients && c != Moved(s, e)
    ensures c in s.clients && Act(s, e).clients[c] == s.clients[c]
  {
  }

  lemma MovesOne(s: State, e: Event)
    requires Sound(s) && Possible(s, e)
    ensures var t := Next(s, e);
            forall c :: c in t.clients && c != Moved(s, e) ==>
                          c in s.clients && t.clients[c] == Watched(s.clients[c], t.stores)
  {
    var u := Act(s, e);
    forall c | c in u.clients && c != Moved(s, e)
      ensures c in s.clients && u.clients[c] == s.clients[c]
    {
      ActMovesOne(s, e, c);
    }
    WatchIsWatched(u);
  }

  lemma WatchIsWatched(u: State)
    ensures var t := Watch(u);
            && t.clients.Keys == u.clients.Keys
            && forall c :: c in u.clients ==> t.clients[c] == Watched(u.clients[c], t.stores)
  {
  }

  lemma StoresStaySound(s: State, e: Event)
    requires Sound(s) && Possible(s, e)
    ensures var t := Next(s, e).stores;
            FilesOk(t) && t.legacy.Keys <= s.stores.legacy.Keys && s.stores.imported <= t.imported
  {
  }

  lemma WorkerStaysSound(s: State, e: Event)
    requires Sound(s) && Possible(s, e)
    ensures WorkerSound(Next(s, e))
  {
    assert Moved(s, e) in s.clients ==> ClientSound(s, Moved(s, e));
  }

  lemma MovedIsSound(s: State, e: Event)
    requires Sound(s) && Possible(s, e) && Moved(s, e) in Next(s, e).clients
    ensures ClientSound(Next(s, e), Moved(s, e))
  {
    assert Moved(s, e) in s.clients ==> ClientSound(s, Moved(s, e));
  }

  /** Every step, whatever fails, keeps this. */
  lemma EventKeepsSound(s: State, e: Event)
    requires Sound(s) && Possible(s, e)
    ensures Sound(Next(s, e))
  {
    MovesOne(s, e);
    StoresStaySound(s, e);
    WorkerStaysSound(s, e);
    if Moved(s, e) in Next(s, e).clients {
      MovedIsSound(s, e);
    }
    SoundStays(s, Next(s, e), Moved(s, e));
  }

  lemma {:induction false} RunKeepsSound(s: State, es: seq<Event>)
    requires Sound(s) && IsRun(s, es)
    ensures Sound(EndOf(s, es))
    decreases |es|
  {
    if es != [] {
      EventKeepsSound(s, es[0]);
      RunKeepsSound(Next(s, es[0]), es[1..]);
    }
  }

  ghost predicate Asked(cl: Client, k: Key)
    requires cl.call.List?
  {
    k.0 == cl.call.uid && cl.call.prefix <= k.1
  }

  /** `list` names everything asked for that was there all the time and nothing else that was never there. */
  lemma ListIsBounded(stores: Stores, es: seq<Event>, c: nat)
    requires FilesOk(stores) && IsRun(State(stores, Idle, map[]), es)
    requires var s := EndOf(State(stores, Idle, map[]), es);
             c in s.clients && s.clients[c].call.List? && s.clients[c].pc.Done?
    ensures var cl := EndOf(State(stores, Idle, map[]), es).clients[c];
            && cl.pc.answer.Names?
            && (set k | k in cl.always && Asked(cl, k)) <= cl.pc.answer.names
            && cl.pc.answer.names <= (set k | k in cl.ever && Asked(cl, k))
  {
    RunKeepsSound(State(stores, Idle, map[]), es);
    assert ClientSound(EndOf(State(stores, Idle, map[]), es), c);
  }

  /**
   A value that `get` returns agrees with the map at that moment, and so does the success or failure of `remove`,
   unless it missed an entry whose file it failed to move.
   */
  lemma AnswersAgreeIff(s: State, e: Event)
    requires Sound(s) && Possible(s, e) && (e.ReadDb? || e.UseDb?)
    ensures var before, after := s.clients[e.client], Next(s, e).clients[e.client];
            var m := Visible(s.stores);
            && (before.call.Get? && after.pc.Done? && after.pc.answer.Found? ==>
                  before.call.key in m && m[before.call.key] == after.pc.answer.value)
            && (before.call.Remove? && after.pc.Done? ==>
                  ((after.pc.answer.Success? <==> before.call.key in m) <==>
                   !(before.call.key in s.stores.legacy && before.call.key !in s.stores.db)))
            && (before.call.Remove? && e.UseDb? && before.call.key in s.stores.legacy ==> before.pc.failed)
  {
    assert ClientSound(s, e.client);
  }

  // ---------------------------------------------------------------- get, key by key

  /** No attempt to move this entry out of its file fails. */
  ghost predicate NeverStuck(s: State, es: seq<Event>, k: Key)
    requires IsRun(s, es)
    decreases |es|
  {
    es != [] ==> !(es[0].FailFetch? && s.worker.key == k) && NeverStuck(Next(s, es[0]), es[1..], k)
  }

  /** What is known about the calls on one key as long as no attempt to move its entry fails. */
  ghost predicate KeyClientOk(s: State, c: nat, k: Key)
    requires c in s.clients
  {
    var cl := s.clients[c];
    && (cl.call == Get(k) ==> GetOk(s, k, cl.pc, cl.always))
    && ((cl.call.Put? || cl.call.Remove?) && cl.call.key == k && cl.pc.Served? ==> !cl.pc.failed)
  }

  ghost predicate KeyOk(s: State, k: Key) {
    forall c :: c in s.clients ==> KeyClientOk(s, c, k)
  }

  /** An entry that remains visible remains findable. */
  lemma StaysFindable(s: State, e: Event, k: Key)
    requires Sound(s) && KeyOk(s, k) && Possible(s, e) && !(e.FailFetch? && s.worker.key == k)
    requires Findable(s, k) && k in Visible(Next(s, e).stores)
    ensures Findable(Next(s, e), k)
  {
    if e.UseDb? {
      assert ClientSound(s, e.client) && KeyClientOk(s, e.client, k);
    }
  }

  lemma ImportedStays(s: State, e: Event, k: Key)
    requires Possible(s, e) && k in s.stores.imported
    ensures k in Next(s, e).stores.imported
  {
  }

  lemma OtherKeyClientStays(s: State, e: Event, k: Key, c: nat)
    requires Sound(s) && KeyOk(s, k) && Possible(s, e) && !(e.FailFetch? && s.worker.key == k)
    requires c in Next(s, e).clients && c != Moved(s, e)
    ensures KeyClientOk(Next(s, e), c, k)
  {
    var t := Next(s, e);
    MovesOne(s, e);
    assert KeyClientOk(s, c, k) && ClientSound(s, c);
    if s.clients[c].call == Get(k) && s.clients[c].pc.Queued? && k in t.clients[c].always {
      StaysFindable(s, e, k);
    }
    if k in s.stores.imported {
      ImportedStays(s, e, k);
    }
  }

  lemma MovedKeyClientStays(s: State, e: Event, k: Key)
    requires Sound(s) && KeyOk(s, k) && Possible(s, e) && !(e.FailFetch? && s.worker.key == k)
    requires Moved(s, e) in Next(s, e).clients
    ensures KeyClientOk(Next(s, e), Moved(s, e), k)
  {
    var c := Moved(s, e);
    assert c in s.clients ==> KeyClientOk(s, c, k) && ClientSound(s, c);
    if c in s.clients && Findable(s, k) && k in Visible(Next(s, e).stores) {
      StaysFindable(s, e, k);
    }
  }

  lemma EventKeepsKeyOk(s: State, e: Event, k: Key)
    requires Sound(s) && KeyOk(s, k) && Possible(s, e) && !(e.FailFetch? && s.worker.key == k)
    ensures KeyOk(Next(s, e), k)
  {
    forall c | c in Next(s, e).clients
      ensures KeyClientOk(Next(s, e), c, k)
    {
      if c == Moved(s, e) {
        MovedKeyClientStays(s, e, k);
      } else {
        OtherKeyClientStays(s, e, k, c);
      }
    }
  }

  lemma {:induction false} RunKeepsKeyOk(s: State, es: seq<Event>, k: Key)
    requires Sound(s) && KeyOk(s, k) && IsRun(s, es) && NeverStuck(s, es, k)
    ensures KeyOk(EndOf(s, es), k)
    decreases |es|
  {
    if es != [] {
      EventKeepsSound(s, es[0]);
      EventKeepsKeyOk(s, es[0], k);
      RunKeepsKeyOk(Next(s, es[0]), es[1..], k);
    }
  }

  /**
   `get` reports an entry missing only if it was not there at some moment of the call, in every run in which no
   attempt to move this entry fails; other files may fail, and deletions may leave files behind.
   */
  lemma GetMissesNothing(stores: Stores, es: seq<Event>, c: nat, k: Key)
    requires FilesOk(stores) && IsRun(State(stores, Idle, map[]), es) && NeverStuck(State(stores, Idle, map[]), es, k)
    requires var s := EndOf(State(stores, Idle, map[]), es);
             c in s.clients && s.clients[c].call == Get(k) && s.clients[c].pc == Done(Missing)
    ensures k !in EndOf(State(stores, Idle, map[]), es).clients[c].always
  {
    RunKeepsKeyOk(State(stores, Idle, map[]), es, k);
    assert KeyClientOk(EndOf(State(stores, Idle, map[]), es), c, k);
  }

  /**
   In any run, `get` reports an entry missing that has been there all the time exactly if the worker found neither
   its file nor a trace of having moved it, which leaves its row in the database as what is seen.
   */
  lemma GetGoesWrongIff(s: State, c: nat, k: Key)
    requires Sound(s) && Possible(s, UseDb(c)) && s.clients[c].call == Get(k) && k in s.clients[c].always
    ensures Next(s, UseDb(c)).clients[c].pc == Done(Missing) <==> !s.clients[c].pc.migrated
  {
    assert ClientSound(s, c);
  }

  // ---------------------------------------------------------------- looking like one map

  /** The files do not get in the way of a step: none that was to be gone is left, and none that is copied is stale. */
  ghost predicate FilesAgree(s: State, e: Event)
    requires Possible(s, e)
  {
    match e
    case Copy => s.worker.key in s.stores.db ==> s.stores.db[s.worker.key] == s.stores.legacy[s.worker.key]
    case DropFile => s.worker.key in s.stores.db
    case UseDb(c) =>
      (match s.clients[c].call
       case Remove(k) => k !in s.stores.legacy
       case Delete(scope) => !LegacyIn(s.stores, scope)
       case _ => true)
    case _ => true
  }

  /** In every state that failures can lead to, a step looks as it should exactly if the files agree. */
  lemma LooksLikeOneMapIff(s: State, e: Event)
    requires Sound(s) && Possible(s, e)
    ensures Visible(Next(s, e).stores) == Effect(s, e) <==> FilesAgree(s, e)
  {
    var v := Visible(Next(s, e).stores);
    if e.Copy? || e.DropFile? {
      WorkerLooksIff(s, e);
    } else if e.UseDb? {
      CallLooksIff(s, e.client);
    } else if e.Clear? {
      assert v == Effect(s, e);
    }
  }

  lemma WorkerLooksIff(s: State, e: Event)
    requires Sound(s) && Possible(s, e) && (e.Copy? || e.DropFile?)
    ensures Visible(Next(s, e).stores) == Visible(s.stores) <==> FilesAgree(s, e)
  {
    var v, m, k := Visible(Next(s, e).stores), Visible(s.stores), s.worker.key;
    if FilesAgree(s, e) {
      assert v == m;
    } else if e.Copy? {
      assert v[k] == s.stores.legacy[k] && m[k] == s.stores.db[k];
    } else {
      assert k in m && k !in v;
    }
  }

  lemma CallLooksIff(s: State, c: nat)
    requires Sound(s) && Possible(s, UseDb(c))
    ensures Visible(Next(s, UseDb(c)).stores) == Effect(s, UseDb(c)) <==> FilesAgree(s, UseDb(c))
  {
    var v := Visible(Finish(s, c).stores);
    assert Next(s, UseDb(c)).stores == Finish(s, c).stores;
    match s.clients[c].call
    case Put(k, x) => OverlayPut(s.stores.legacy, s.stores.db, k, x);
    case Remove(k) =>
      if k in s.stores.legacy {
        assert k in v;
      } else {
        OverlayRemove(s.stores.legacy, s.stores.db, k);
      }
    case Delete(scope) =>
      if k :| k in s.stores.legacy && InScope(scope, k) {
        assert k in v && k !in Effect(s, UseDb(c));
      } else {
        assert v == Effect(s, UseDb(c));
      }
    case Get(_) =>
    case List(_, _) =>
  }

  /**
   A removed entry comes back, as its file has it, exactly if its file survived, and that takes a failure of the
   removing call itself; if the file is gone, the entry stays away in every run without a `put` for it.
   */
  lemma RemovedComesBackIff(s: State, c: nat, es: seq<Event>)
    requires Sound(s) && Possible(s, UseDb(c)) && s.clients[c].call.Remove? && IsRun(Next(s, UseDb(c)), es)
    ensures var k, t := s.clients[c].call.key, Next(s, UseDb(c));
            && (k in Visible(t.stores) <==> k in s.stores.legacy)
            && (k in s.stores.legacy ==> s.clients[c].pc.failed && Visible(t.stores)[k] == s.stores.legacy[k])
            && (k !in s.stores.legacy && NoPutsAt(t, es, k) ==> k !in Visible(EndOf(t, es).stores))
  {
    assert ClientSound(s, c);
    var k, t := s.clients[c].call.key, Next(s, UseDb(c));
    if k !in s.stores.legacy && NoPutsAt(t, es, k) {
      RemovedStaysAway(t, es, k);
    }
  }

  ghost predicate NoPutsAt(s: State, es: seq<Event>, k: Key)
    requires IsRun(s, es)
    decreases |es|
  {
    es != [] ==>
      && !(es[0].UseDb? && s.clients[es[0].client].call.Put? && s.clients[es[0].client].call.key == k)
      && NoPutsAt(Next(s, es[0]), es[1..], k)
  }

  lemma {:induction false} RemovedStaysAway(s: State, es: seq<Event>, k: Key)
    requires IsRun(s, es) && NoPutsAt(s, es, k) && k !in s.stores.db && k !in s.stores.legacy
    ensures k !in Visible(EndOf(s, es).stores)
    decreases |es|
  {
    if es != [] {
      RemovedStaysAway(Next(s, es[0]), es[1..], k);
    }
  }

  lemma RunOf(s: State, t: State, e: Event, es: seq<Event>)
    requires Possible(s, e) && t == Next(s, e) && IsRun(t, es)
    ensures IsRun(s, [e] + es) && EndOf(s, [e] + es) == EndOf(t, es)
  {
    assert ([e] + es)[1..] == es;
  }

  lemma FirstStep(s: State, es: seq<Event>, fs: seq<Event>) returns (t: State)
    requires IsRun(s, es) && es != []
    ensures IsRun(t, es[1..]) && EndOf(t, es[1..]) == EndOf(s, es)
    ensures IsRun(t, es[1..] + fs) ==> IsRun(s, es + fs) && EndOf(s, es + fs) == EndOf(t, es[1..] + fs)
  {
    t := Next(s, es[0]);
    if IsRun(t, es[1..] + fs) {
      RunOf(s, t, es[0], es[1..] + fs);
      assert es + fs == [es[0]] + (es[1..] + fs);
    }
  }

  lemma {:induction false} RunThrough(s: State, es: seq<Event>, fs: seq<Event>)
    requires IsRun(s, es) && IsRun(EndOf(s, es), fs)
    ensures IsRun(s, es + fs) && EndOf(s, es + fs) == EndOf(EndOf(s, es), fs)
    decreases |es|
  {
    if es == [] {
      assert es + fs == fs;
    } else {
      var t := FirstStep(s, es, fs);
      RunThrough(t, es[1..], fs);
    }
  }

  lemma TwoSteps(s: State, t: State, u: State, e: Event, f: Event)
    requires Possible(s, e) && t == Next(s, e) && Possible(t, f) && u == Next(t, f)
    ensures IsRun(s, [e, f]) && EndOf(s, [e, f]) == u
  {
    RunOf(t, u, f, []);
    assert [f] + [] == [f] && [e] + [f] == [e, f];
    RunOf(s, t, e, [f]);
  }

  /** A call that has been completed stays so. */
  lemma {:induction false} DoneStays(s: State, es: seq<Event>, c: nat)
    requires IsRun(s, es) && c in s.clients && s.clients[c].pc.Done?
    ensures c in EndOf(s, es).clients && EndOf(s, es).clients[c] == s.clients[c]
    decreases |es|
  {
    if es != [] {
      DoneStays(Next(s, es[0]), es[1..], c);
    }
  }

  /** Where one call stands, with the worker and the stores. */
  ghost predicate Stands(s: State, c: nat, call: Call, pc: Pc, worker: Worker, stores: Stores) {
    && s.stores == stores && s.worker == worker
    && c in s.clients && s.clients[c].call == call && s.clients[c].pc == pc
  }

  lemma BeginsRemove(s: State, c: nat, k: Key) returns (t: State)
    requires c !in s.clients && s.worker == Idle && k in s.stores.legacy && k !in s.stores.imported
    ensures IsRun(s, [Begin(c, Remove(k)), Serve(c)]) && EndOf(s, [Begin(c, Remove(k)), Serve(c)]) == t
    ensures Stands(t, c, Remove(k), Queued, Copying(c, k), s.stores) && t.clients.Keys == s.clients.Keys + {c}
  {
    var u := Next(s, Begin(c, Remove(k)));
    t := Next(u, Serve(c));
    TwoSteps(s, u, t, Begin(c, Remove(k)), Serve(c));
  }

  lemma CopiesAndFails(s: State, c: nat, k: Key, stores: Stores) returns (t: State)
    requires Stands(s, c, Remove(k), Queued, Copying(c, k), stores) && k in stores.legacy
    ensures IsRun(s, [Copy, FailFetch]) && EndOf(s, [Copy, FailFetch]) == t
    ensures Stands(t, c, Remove(k), Served(false, {}, true), Idle, stores.(db := stores.db[k := stores.legacy[k]]))
    ensures t.clients.Keys == s.clients.Keys
  {
    var u := Next(s, Copy);
    t := Next(u, FailFetch);
    TwoSteps(s, u, t, Copy, FailFetch);
  }

  lemma FinishesRemove(s: State, c: nat, k: Key, stores: Stores) returns (t: State)
    requires Stands(s, c, Remove(k), Served(false, {}, true), Idle, stores) && k in stores.db
    ensures IsRun(s, [UseDb(c)]) && EndOf(s, [UseDb(c)]) == t
    ensures Stands(t, c, Remove(k), Done(Success), Idle, stores.(db := stores.db - {k}))
    ensures t.clients.Keys == s.clients.Keys
  {
    t := Next(s, UseDb(c));
    RunOf(s, t, UseDb(c), []);
    assert [UseDb(c)] + [] == [UseDb(c)];
  }

  lemma BeginsGet(s: State, c: nat, k: Key) returns (t: State)
    requires c !in s.clients && s.worker == Idle && k !in s.stores.db
    ensures IsRun(s, [Begin(c, Get(k)), ReadDb(c)]) && EndOf(s, [Begin(c, Get(k)), ReadDb(c)]) == t
    ensures Stands(t, c, Get(k), Queued, Idle, s.stores)
  {
    var u := Next(s, Begin(c, Get(k)));
    t := Next(u, ReadDb(c));
    TwoSteps(s, u, t, Begin(c, Get(k)), ReadDb(c));
  }

  lemma GetsCopy(s: State, c: nat, k: Key, stores: Stores) returns (t: State)
    requires Stands(s, c, Get(k), Queued, Idle, stores) && k in stores.legacy && k !in stores.imported
    ensures IsRun(s, [Serve(c), Copy]) && EndOf(s, [Serve(c), Copy]) == t
    ensures Stands(t, c, Get(k), Queued, Dropping(c, k), stores.(db := stores.db[k := stores.legacy[k]]))
  {
    var u := Next(s, Serve(c));
    t := Next(u, Copy);
    TwoSteps(s, u, t, Serve(c), Copy);
  }

  lemma DropsAndFinds(s: State, c: nat, k: Key, stores: Stores) returns (t: State)
    requires Stands(s, c, Get(k), Queued, Dropping(c, k), stores) && k in stores.db
    ensures IsRun(s, [DropFile, UseDb(c)]) && EndOf(s, [DropFile, UseDb(c)]) == t
    ensures c in t.clients && t.clients[c].pc == Done(Found(stores.db[k]))
  {
    var u := Next(s, DropFile);
    t := Next(u, UseDb(c));
    TwoSteps(s, u, t, DropFile, UseDb(c));
  }

  lemma FailingRemove(s: State, k: Key, v: Bytes) returns (t: State)
    requires s == State(Stores(map[], map[k := v], {}), Idle, map[])
    ensures var es := [Begin(1, Remove(k)), Serve(1)] + ([Copy, FailFetch] + [UseDb(1)]);
            IsRun(s, es) && EndOf(s, es) == t
    ensures Stands(t, 1, Remove(k), Done(Success), Idle, s.stores) && 2 !in t.clients
  {
    var a := BeginsRemove(s, 1, k);
    t := FailingRest(a, k, s.stores);
    RunThrough(s, [Begin(1, Remove(k)), Serve(1)], [Copy, FailFetch] + [UseDb(1)]);
    assert t.stores.db == map[];
  }

  lemma FailingRest(s: State, k: Key, stores: Stores) returns (t: State)
    requires Stands(s, 1, Remove(k), Queued, Copying(1, k), stores) && k in stores.legacy && k !in stores.db
    ensures IsRun(s, [Copy, FailFetch] + [UseDb(1)]) && EndOf(s, [Copy, FailFetch] + [UseDb(1)]) == t
    ensures Stands(t, 1, Remove(k), Done(Success), Idle, stores) && t.clients.Keys == s.clients.Keys
  {
    var b := CopiesAndFails(s, 1, k, stores);
    t := FinishesRemove(b, 1, k, b.stores);
    RunThrough(s, [Copy, FailFetch], [UseDb(1)]);
    assert stores.db[k := stores.legacy[k]] - {k} == stores.db;
  }

  lemma GetFromFile(s: State, k: Key, v: Bytes)
    requires s.stores == Stores(map[], map[k := v], {}) && s.worker == Idle && 2 !in s.clients
    ensures var es := [Begin(2, Get(k)), ReadDb(2)] + ([Serve(2), Copy] + [DropFile, UseDb(2)]);
            && IsRun(s, es)
            && var t := EndOf(s, es); 2 in t.clients && t.clients[2].pc == Done(Found(v))
  {
    var a := BeginsGet(s, 2, k);
    var b := GetsCopy(a, 2, k, s.stores);
    var c := DropsAndFinds(b, 2, k, b.stores);
    RunThrough(a, [Serve(2), Copy], [DropFile, UseDb(2)]);
    RunThrough(s, [Begin(2, Get(k)), ReadDb(2)], [Serve(2), Copy] + [DropFile, UseDb(2)]);
  }

  /** A file cannot be removed: `remove` reports success, and `get` finds the entry afterwards. */
  lemma RemovedComesBack(k: Key, v: Bytes)
    ensures var s := State(Stores(map[], map[k := v], {}), Idle, map[]);
            var removing := [Begin(1, Remove(k)), Serve(1)] + ([Copy, FailFetch] + [UseDb(1)]);
            var getting := [Begin(2, Get(k)), ReadDb(2)] + ([Serve(2), Copy] + [DropFile, UseDb(2)]);
            && IsRun(s, removing + getting)
            && var t := EndOf(s, removing + getting);
               && 1 in t.clients && t.clients[1].call == Remove(k) && t.clients[1].pc == Done(Success)
               && 2 in t.clients && t.clients[2].pc == Done(Found(v))
  {
    var s := State(Stores(map[], map[k := v], {}), Idle, map[]);
    var removing := [Begin(1, Remove(k)), Serve(1)] + ([Copy, FailFetch] + [UseDb(1)]);
    var getting := [Begin(2, Get(k)), ReadDb(2)] + ([Serve(2), Copy] + [DropFile, UseDb(2)]);
    var t := FailingRemove(s, k, v);
    GetFromFile(t, k, v);
    DoneStays(t, getting, 1);
    RunThrough(s, removing, getting);
  }

  /** Call 1 is a `get` that waits for the worker and whose entry has been there all the time. */
  ghost predicate GetWaits(s: State, k: Key) {
    1 in s.clients && s.clients[1].call == Get(k) && s.clients[1].pc == Queued && k in s.clients[1].always
  }

  ghost predicate Looks(s: State, clients: set<nat>, worker: Worker, db: map<Key, Bytes>, files: map<Key, Bytes>) {
    s.clients.Keys == clients && s.worker == worker && s.stores == Stores(db, files, {})
  }

  lemma GetBegins(s: State, k: Key, v: Bytes) returns (t: State)
    requires Looks(s, {}, Idle, map[], map[k := v])
    ensures IsRun(s, [Begin(1, Get(k)), ReadDb(1)]) && EndOf(s, [Begin(1, Get(k)), ReadDb(1)]) == t
    ensures Looks(t, {1}, Idle, map[], map[k := v]) && GetWaits(t, k)
  {
    var u := Next(s, Begin(1, Get(k)));
    t := Next(u, ReadDb(1));
    TwoSteps(s, u, t, Begin(1, Get(k)), ReadDb(1));
  }

  lemma PutBegins(s: State, k: Key, v: Bytes, x: Bytes) returns (t: State)
    requires Looks(s, {1}, Idle, map[], map[k := v]) && GetWaits(s, k)
    ensures IsRun(s, [Begin(2, Put(k, x)), Serve(2)]) && EndOf(s, [Begin(2, Put(k, x)), Serve(2)]) == t
    ensures Looks(t, {1, 2}, Copying(2, k), map[], map[k := v]) && GetWaits(t, k)
    ensures t.clients[2].call == Put(k, x) && t.clients[2].pc == Queued
  {
    var u := Next(s, Begin(2, Put(k, x)));
    t := Next(u, Serve(2));
    TwoSteps(s, u, t, Begin(2, Put(k, x)), Serve(2));
  }

  lemma PutGoesOn(s: State, k: Key, v: Bytes, x: Bytes) returns (t: State)
    requires Looks(s, {1, 2}, Copying(2, k), map[], map[k := v]) && GetWaits(s, k)
    requires s.clients[2].call == Put(k, x) && s.clients[2].pc == Queued
    ensures IsRun(s, [FailFetch, UseDb(2)]) && EndOf(s, [FailFetch, UseDb(2)]) == t
    ensures Looks(t, {1, 2}, Idle, map[k := x], map[k := v]) && GetWaits(t, k)
  {
    var u := Next(s, FailFetch);
    t := Next(u, UseDb(2));
    TwoSteps(s, u, t, FailFetch, UseDb(2));
  }

  lemma DeleteBegins(s: State, k: Key, v: Bytes, x: Bytes) returns (t: State)
    requires Looks(s, {1, 2}, Idle, map[k := x], map[k := v]) && GetWaits(s, k)
    ensures var es := [Begin(3, Delete(OfUid(k.0))), Serve(3)]; IsRun(s, es) && EndOf(s, es) == t
    ensures Looks(t, {1, 2, 3}, Clearing(3, OfUid(k.0)), map[k := x], map[k := v]) && GetWaits(t, k)
    ensures t.clients[3].pc == Queued
  {
    var u := Next(s, Begin(3, Delete(OfUid(k.0))));
    t := Next(u, Serve(3));
    TwoSteps(s, u, t, Begin(3, Delete(OfUid(k.0))), Serve(3));
  }

  lemma FileIsCleared(s: State, k: Key, v: Bytes, x: Bytes) returns (t: State)
    requires Looks(s, {1, 2, 3}, Clearing(3, OfUid(k.0)), map[k := x], map[k := v]) && GetWaits(s, k)
    requires s.clients[3].pc == Queued
    ensures IsRun(s, [Clear(k), EndClear]) && EndOf(s, [Clear(k), EndClear]) == t
    ensures Looks(t, {1, 2, 3}, Idle, map[k := x], map[]) && GetWaits(t, k)
  {
    var u := Next(s, Clear(k));
    t := Next(u, EndClear);
    assert map[k := v] - {k} == map[];
    TwoSteps(s, u, t, Clear(k), EndClear);
  }

  lemma GetMisses(s: State, k: Key, x: Bytes) returns (t: State)
    requires Looks(s, {1, 2, 3}, Idle, map[k := x], map[]) && GetWaits(s, k)
    ensures IsRun(s, [Serve(1), UseDb(1)]) && EndOf(s, [Serve(1), UseDb(1)]) == t
    ensures 1 in t.clients && t.clients[1].call == Get(k) && t.clients[1].pc == Done(Missing)
    ensures k in t.clients[1].always && k in Visible(t.stores)
  {
    var u := Next(s, Serve(1));
    t := Next(u, UseDb(1));
    TwoSteps(s, u, t, Serve(1), UseDb(1));
  }

  lemma PutWhileGetWaits(s: State, k: Key, v: Bytes, x: Bytes) returns (t: State)
    requires Looks(s, {}, Idle, map[], map[k := v])
    ensures var es := [Begin(1, Get(k)), ReadDb(1)] + ([Begin(2, Put(k, x)), Serve(2)] + [FailFetch, UseDb(2)]);
            IsRun(s, es) && EndOf(s, es) == t
    ensures Looks(t, {1, 2}, Idle, map[k := x], map[k := v]) && GetWaits(t, k)
  {
    var a := GetBegins(s, k, v);
    var b := PutBegins(a, k, v, x);
    t := PutGoesOn(b, k, v, x);
    RunThrough(a, [Begin(2, Put(k, x)), Serve(2)], [FailFetch, UseDb(2)]);
    RunThrough(s, [Begin(1, Get(k)), ReadDb(1)], [Begin(2, Put(k, x)), Serve(2)] + [FailFetch, UseDb(2)]);
  }

  lemma DeleteWhileGetWaits(s: State, k: Key, v: Bytes, x: Bytes) returns (t: State)
    requires Looks(s, {1, 2}, Idle, map[k := x], map[k := v]) && GetWaits(s, k)
    ensures var es := [Begin(3, Delete(OfUid(k.0))), Serve(3)] + ([Clear(k), EndClear] + [Serve(1), UseDb(1)]);
            IsRun(s, es) && EndOf(s, es) == t
    ensures 1 in t.clients && t.clients[1].call == Get(k) && t.clients[1].pc == Done(Missing)
    ensures k in t.clients[1].always && k in Visible(t.stores)
  {
    var a := DeleteBegins(s, k, v, x);
    var b := FileIsCleared(a, k, v, x);
    t := GetMisses(b, k, x);
    RunThrough(a, [Clear(k), EndClear], [Serve(1), UseDb(1)]);
    RunThrough(s, [Begin(3, Delete(OfUid(k.0))), Serve(3)], [Clear(k), EndClear] + [Serve(1), UseDb(1)]);
  }

  /**
   While a `get` waits, a `put` fails to move the entry and a deletion removes the file: `get` reports the entry
   missing although it was there all the time.
   */
  lemma GetMissesVisible(k: Key, v: Bytes, x: Bytes) returns (es: seq<Event>)
    ensures var s := State(Stores(map[], map[k := v], {}), Idle, map[]);
            && IsRun(s, es)
            && var t := EndOf(s, es);
               && 1 in t.clients && t.clients[1].call == Get(k) && t.clients[1].pc == Done(Missing)
               && k in t.clients[1].always
  {
    var s := State(Stores(map[], map[k := v], {}), Idle, map[]);
    var a := PutWhileGetWaits(s, k, v, x);
    var b := DeleteWhileGetWaits(a, k, v, x);
    var putting := [Begin(1, Get(k)), ReadDb(1)] + ([Begin(2, Put(k, x)), Serve(2)] + [FailFetch, UseDb(2)]);
    var deleting := [Begin(3, Delete(OfUid(k.0))), Serve(3)] + ([Clear(k), EndClear] + [Serve(1), UseDb(1)]);
    es := putting + deleting;
    RunThrough(s, putting, deleting);
  }

  // ---------------------------------------------------------------- deletion

  ghost predicate NothingIn(s: Stores, scope: Scope) {
    forall k :: InScope(scope, k) ==> k !in s.db && k !in s.legacy
  }

  /** An entry in scope is left by a deletion exactly if its file survived, which takes a failure of that deletion. */
  lemma DeleteLeavesIff(s: State, c: nat)
    requires Sound(s) && Possible(s, UseDb(c)) && s.clients[c].call.Delete?
    ensures var t, scope := Next(s, UseDb(c)).stores, s.clients[c].call.scope;
            && (NothingIn(t, scope) <==> !LegacyIn(s.stores, scope))
            && (forall k :: InScope(scope, k) ==> (k in Visible(t) <==> k in s.stores.legacy))
            && (LegacyIn(s.stores, scope) ==> s.clients[c].pc.failed)
  {
    assert ClientSound(s, c);
    if k :| k in s.stores.legacy && InScope(s.clients[c].call.scope, k) {
      assert k in Next(s, UseDb(c)).stores.legacy;
    }
  }

  /** A deletion is meant for one uid or for all uids of a user. */
  ghost predicate IsMeant(scope: Scope, k: Key) {
    match scope
    case OfUid(uid) => k.0 == uid
    case OfUser(user) => user * 100000 <= k.0 < (user + 1) * 100000
  }

  /** A deletion reaches exactly the entries it is meant for, and the rest stays as it is. */
  lemma DeleteReaches(s: State, c: nat, k: Key)
    requires Sound(s) && Possible(s, UseDb(c)) && s.clients[c].call.Delete?
    ensures var before, after := Visible(s.stores), Visible(Next(s, UseDb(c)).stores);
            if IsMeant(s.clients[c].call.scope, k) then k in after <==> k in s.stores.legacy
            else (k in after <==> k in before) && (k in before ==> after[k] == before[k])
  {
    assert Next(s, UseDb(c)).stores == Finish(s, c).stores;
  }

  /** The call is to remove the entry, by itself or with others. */
  ghost predicate TakesAway(call: Call, k: Key) {
    call == Remove(k) || (call.Delete? && IsMeant(call.scope, k))
  }

  /** A step that files do not spoil removes an entry only for a call to remove it and writes one only for a `put`. */
  lemma StepIsSomeonesCall(s: State, e: Event, k: Key)
    requires Sound(s) && Possible(s, e) && FilesAgree(s, e)
    ensures var before, after := Visible(s.stores), Visible(Next(s, e).stores);
            && (k in before && k !in after ==> exists c :: c in s.clients && TakesAway(s.clients[c].call, k))
            && (k in after && !(k in before && before[k] == after[k]) ==>
                  exists c :: c in s.clients && s.clients[c].call == Put(k, after[k]))
  {
    match e {
      case UseDb(c) =>
        assert Next(s, e).stores == Finish(s, c).stores;
      case Clear(j) =>
        assert s.clients[s.worker.client].call == Delete(s.worker.scope);
        assert InScope(s.worker.scope, j) <==> IsMeant(s.worker.scope, j);
      case _ =>
    }
  }

  ghost predicate PutsInto(s: State, e: Event, scope: Scope) {
    e.UseDb? && e.client in s.clients && s.clients[e.client].call.Put? && InScope(scope, s.clients[e.client].call.key)
  }

  ghost predicate NoPuts(s: State, es: seq<Event>, scope: Scope)
    requires IsRun(s, es)
    decreases |es|
  {
    es != [] ==> !PutsInto(s, es[0], scope) && NoPuts(Next(s, es[0]), es[1..], scope)
  }

  /** Only a new `put` brings an entry back: migrations under way do not, whatever fails. */
  lemma {:induction false} DeletedStaysDeleted(s: State, es: seq<Event>, scope: Scope)
    requires IsRun(s, es) && NoPuts(s, es, scope) && NothingIn(s.stores, scope)
    ensures NothingIn(EndOf(s, es).stores, scope)
    decreases |es|
  {
    if es != [] {
      StepStaysEmpty(s, es[0], scope);
      DeletedStaysDeleted(Next(s, es[0]), es[1..], scope);
    }
  }

  lemma StepStaysEmpty(s: State, e: Event, scope: Scope)
    requires Possible(s, e) && !PutsInto(s, e, scope) && NothingIn(s.stores, scope)
    ensures NothingIn(Next(s, e).stores, scope)
  {
    if e.Copy? {
      assert !InScope(scope, s.worker.key);
    }
  }

  /** The uid that a namespace stands for: its low 32 bits if it is one of an app, and the Wi-Fi uid for Wi-Fi. */
  lemma NamespaceStandsFor(domain: Domain, nspace: int, uid: int)
    ensures UidOfNamespace(domain, nspace) == Some(uid) <==>
              || (domain == APP && 0 <= uid < 0x1_0000_0000 && exists high :: nspace == high * 0x1_0000_0000 + uid)
              || (domain == SELINUX && nspace == 102 && uid == 1010)
  {
    if domain == APP {
      assert nspace == (nspace / U32) * U32 + nspace % U32;
      if UidOfNamespace(domain, nspace) == Some(uid) {
        assert nspace == (nspace / U32) * 0x1_0000_0000 + uid;
      }
    }
  }

  /** The namespace of an app is its uid, and the Wi-Fi namespace stands for the Wi-Fi uid. */
  ghost predicate NothingOf(s: Stores, domain: Domain, nspace: int) {
    && (domain == APP && 0 <= nspace < U32 ==> forall k: Key :: k.0 == nspace ==> k !in s.db && k !in s.legacy)
    && (domain == SELINUX && nspace == 102 ==> forall k: Key :: k.0 == 1010 ==> k !in s.db && k !in s.legacy)
  }

  lemma NothingOfUid(s: Stores, domain: Domain, nspace: int)
    requires UidOfNamespace(domain, nspace).Some? && NothingIn(s, OfUid(UidOfNamespace(domain, nspace).value))
    ensures NothingOf(s, domain, nspace)
  {
    var scope := OfUid(UidOfNamespace(domain, nspace).value);
    forall k: Key | k.0 == scope.uid
      ensures k !in s.db && k !in s.legacy
    {
      assert InScope(scope, k);
    }
  }

  /**
   Once a namespace has been deleted without a failure, nothing of it is in either store until there is a new
   `put` for its uid, whatever fails later.
   */
  lemma NamespaceStaysEmpty(s: State, t: State, c: nat, domain: Domain, nspace: int, es: seq<Event>)
    requires Sound(s) && Possible(s, UseDb(c)) && UidOfNamespace(domain, nspace).Some? && !s.clients[c].pc.failed
    requires s.clients[c].call == Delete(OfUid(UidOfNamespace(domain, nspace).value)) && t == Next(s, UseDb(c))
    requires IsRun(t, es) && NoPuts(t, es, OfUid(UidOfNamespace(domain, nspace).value))
    ensures NothingOf(EndOf(t, es).stores, domain, nspace)
  {
    DeleteLeavesIff(s, c);
    DeletedStaysDeleted(t, es, OfUid(UidOfNamespace(domain, nspace).value));
    NothingOfUid(EndOf(t, es).stores, domain, nspace);
  }

  // ---------------------------------------------------------------- the order of a listing

  /** The order of strings, character by character. */
  predicate Before(a: string, b: string) {
    b != [] && (a == [] || a[0] < b[0] || (a[0] == b[0] && Before(a[1..], b[1..])))
  }

  lemma {:induction false} OneBefore(a: string, b: string)
    ensures a == b || Before(a, b) || Before(b, a)
    decreases |a|
  {
    if a != [] && b != [] && a[0] == b[0] {
      OneBefore(a[1..], b[1..]);
      assert a == [a[0]] + a[1..] && b == [b[0]] + b[1..];
    }
  }

  lemma {:induction false} BeforeIsTransitive(a: string, b: string, c: string)
    requires Before(a, b) && Before(b, c)
    ensures Before(a, c)
    decreases |a|
  {
    if a != [] && a[0] == b[0] == c[0] {
      BeforeIsTransitive(a[1..], b[1..], c[1..]);
    }
  }

  /** In order and without repetition. */
  ghost predicate Ascending(names: seq<string>) {
    forall i, j :: 0 <= i < j < |names| ==> Before(names[i], names[j])
  }

  /** Puts a name in its place, once. */
  function Insert(names: seq<string>, x: string): (r: seq<string>)
    ensures forall y :: y in r <==> y in names || y == x
  {
    if names == [] then [x]
    else if names[0] == x then names
    else if Before(x, names[0]) then [x] + names
    else
      assert names == [names[0]] + names[1..];
      [names[0]] + Insert(names[1..], x)
  }

  lemma {:induction false} InsertKeepsOrder(names: seq<string>, x: string)
    requires Ascending(names)
    ensures Ascending(Insert(names, x))
    decreases |names|
  {
    if names != [] && names[0] != x {
      OneBefore(names[0], x);
      if Before(x, names[0]) {
        forall j | 0 < j < |names|
          ensures Before(x, names[j])
        {
          BeforeIsTransitive(x, names[0], names[j]);
        }
      } else {
        var r := Insert(names[1..], x);
        InsertKeepsOrder(names[1..], x);
        forall j | 0 <= j < |r|
          ensures Before(names[0], r[j])
        {
          assert r[j] in r;
          if r[j] != x {
            var i :| 0 <= i < |names[1..]| && names[1..][i] == r[j];
            assert Before(names[0], names[i + 1]);
          }
        }
      }
    }
  }

  // ---------------------------------------------------------------- the objects

  /** The map without the entries of a uid, except for those whose files are stuck, which are as in their files. */
  function WithoutUid(m: map<Key, Bytes>, files: map<Key, Bytes>, uid: int, stuck: set<Key>): map<Key, Bytes> {
    map k | k in m && (k.0 == uid ==> k in files && k in stuck) ::
      if k.0 == uid && k in files then files[k] else m[k]
  }

  lemma OverlayDelete(l: map<Key, Bytes>, d: map<Key, Bytes>, uid: int, stuck: set<Key>)
    ensures (map k | k in l && (!InScope(OfUid(uid), k) || k in stuck) :: l[k]) + (map k | k in d && k.0 != uid :: d[k])
            == WithoutUid(l + d, l, uid, stuck)
  {
  }

  /** What becomes of an attempt to move an entry out of its file. */
  datatype Fate = Smooth | CopyFails | DropFails

  /** The files, the database and the memory of what has been moved, as the worker and the clients change them. */
  class ProfileStore {
    var db: map<Key, Bytes>
    var legacy: map<Key, Bytes>
    var imported: set<Key>

    function View(): Stores
      reads this
    {
      Stores(db, legacy, imported)
    }

    constructor (db: map<Key, Bytes>, legacy: map<Key, Bytes>)
      ensures View() == Stores(db, legacy, {}) && FilesOk(View())
    {
      this.db, this.legacy, this.imported := db, legacy, {};
    }

    /** Moves an entry, as far as nothing fails; there is no answer if something does. */
    method GetLegacy(k: Key, fate: Fate) returns (migrated: Option<bool>)
      requires FilesOk(View())
      modifies this
      ensures FilesOk(View())
      ensures var s := old(View());
              if k !in s.legacy then View() == s && migrated == Some(k in s.imported)
              else
                match fate
                case Smooth =>
                  && View() == Stores(s.db[k := s.legacy[k]], s.legacy - {k}, s.imported + {k})
                  && migrated == Some(true)
                case CopyFails => View() == s && migrated.None?
                case DropFails => View() == s.(db := s.db[k := s.legacy[k]]) && migrated.None?
      ensures StoresOk(old(View())) ==> StoresOk(View()) && Visible(View()) == Visible(old(View()))
    {
      if k in imported {
        return Some(true);
      }
      if k !in legacy {
        return Some(false);
      }
      if fate == CopyFails {
        return None;
      }
      db := db[k := legacy[k]];
      if fate == DropFails {
        return None;
      }
      legacy := legacy - {k};
      imported := imported + {k};
      migrated := Some(true);
    }

    /** Removes the files in scope, passing over those in `stuck`, which cannot be removed. */
    method BulkDelete(scope: Scope, stuck: set<Key>)
      requires FilesOk(View())
      modifies this`legacy
      ensures FilesOk(View()) && (StoresOk(old(View())) ==> StoresOk(View()))
      ensures legacy == map k | k in old(legacy) && (!InScope(scope, k) || k in stuck) :: old(legacy)[k]
    {
      var entries := set k | k in legacy && InScope(scope, k);
      while entries != {}
        invariant entries <= legacy.Keys && forall k :: k in entries ==> InScope(scope, k)
        invariant legacy.Keys <= old(legacy).Keys
        invariant forall k :: k in old(legacy) ==> (k in legacy <==> k in entries || !InScope(scope, k) || k in stuck)
        invariant forall k :: k in legacy ==> legacy[k] == old(legacy)[k]
        decreases |entries|
      {
        HasKey(entries);
        var k :| k in entries;
        if k !in stuck {
          legacy := legacy - {k};
        }
        entries := entries - {k};
      }
    }

    /** Deletes what belongs to a namespace: first the files, as far as they can be removed, then the rows. */
    method DeleteNamespace(domain: Domain, nspace: int, stuck: set<Key>)
      requires FilesOk(View())
      modifies this
      ensures FilesOk(View())
      ensures var uid := UidOfNamespace(domain, nspace);
              var m, l := Visible(old(View())), old(legacy);
              && (uid.None? ==> View() == old(View()))
              && (uid.Some? ==> Visible(View()) == WithoutUid(m, l, uid.value, stuck))
    {
      var uid := UidOfNamespace(domain, nspace);
      if uid.Some? {
        OverlayDelete(legacy, db, uid.value, stuck);
        BulkDelete(OfUid(uid.value), stuck);
        db := map k | k in db && k.0 != uid.value :: db[k];
      }
    }

    /** `list` without anything happening in between: the matching names of both stores, in order, each once. */
    method ListEntries(uid: int, prefix: string) returns (names: seq<string>)
      ensures Ascending(names)
      ensures forall alias :: alias in names <==> (uid, alias) in Visible(View()) && prefix <= alias
    {
      var todo := WithPrefix(UidKeys(legacy, uid) + UidKeys(db, uid), prefix);
      ghost var all := todo;
      names := [];
      while todo != {}
        invariant Ascending(names) && todo <= all
        invariant forall alias :: alias in names <==> (uid, alias) in all && (uid, alias) !in todo
        decreases |todo|
      {
        HasKey(todo);
        var k :| k in todo;
        InsertKeepsOrder(names, k.1);
        names := Insert(names, k.1);
        todo := todo - {k};
      }
    }

    /** `get` without anything happening in between; it fails if it needs the file and something fails. */
    method GetEntry(k: Key, fate: Fate) returns (r: Option<Option<Bytes>>)
      requires FilesOk(View())
      modifies this
      ensures r.None? <==> k !in old(db) && k in old(legacy) && fate != Smooth
      ensures r.Some? ==> r.value == (var m := Visible(old(View())); if k in m then Some(m[k]) else None)
      ensures FilesOk(View()) && Visible(View()) == Visible(old(View()))
    {
      if k in db {
        return Some(Some(db[k]));
      }
      var migrated := GetLegacy(k, fate);
      if migrated.None? {
        return None;
      }
      if migrated.value && k in db {
        return Some(Some(db[k]));
      }
      r := Some(None);
    }

    /** `put` has its way whatever becomes of the file. */
    method PutEntry(k: Key, v: Bytes, fate: Fate)
      requires FilesOk(View())
      modifies this
      ensures FilesOk(View()) && Visible(View()) == Visible(old(View()))[k := v]
    {
      var migrated := GetLegacy(k, fate);
      OverlayPut(legacy, db, k, v);
      db := db[k := v];
    }

    /** `remove` leaves the entry as in its file if that could not be removed. */
    method RemoveEntry(k: Key, fate: Fate) returns (removed: bool)
      requires FilesOk(View())
      modifies this
      ensures FilesOk(View())
      ensures var m, survived := Visible(old(View())), k in old(legacy) && fate != Smooth;
              && Visible(View()) == (if survived then m[k := old(legacy)[k]] else m - {k})
              && (removed <==> if survived && fate == CopyFails then k in old(db) else k in m)
    {
      var migrated := GetLegacy(k, fate);
      removed := k in db;
      db := db - {k};
    }
  }

  lemma HasKey(s: set<Key>)
    requires s != {}
    ensures exists k :: k in s
  {
    if forall k :: k !in s {
      assert false;
    }
  }
}
