/** One chain of collector steps with nobody else writing: it handles every garbage key blob once and then stops. */
module GcChain {
  import opened KeystoreTypes
  import opened KeystoreTables
  import opened KeystoreTx
  import opened GarbageCollector

  // ---------------------------------------------------------------- one step

  ghost function Recall(t: Tables, picked: seq<int>): (r: seq<SupersededBlob>)
    requires forall i :: 0 <= i < |picked| ==> picked[i] in t.blobs
    ensures Ids(r) == picked
    ensures forall s :: s in r ==>
              s.id in t.blobs && s.blob == t.blobs[s.id].blob && s.meta == GetOr(t.blobMeta, s.id, map[])
  {
    if picked == [] then []
    else
      [SupersededBlob(picked[0], t.blobs[picked[0]].blob, GetOr(t.blobMeta, picked[0], map[]))] + Recall(t, picked[1..])
  }

  /** The database may answer the collector's query with `picked`. */
  ghost predicate Answers(t: Tables, g: Memory, picked: seq<int>) {
    g.superseded == [] ==> Pick(Swept(t, AsSet(g.deleted)), picked, MAX_BLOBS)
  }

  ghost function FetchDb(t: Tables, g: Memory, picked: seq<int>): Tables {
    if g.superseded == [] then HandleSuperseded(t, AsSet(g.deleted), picked).db else t
  }

  /** The collector only goes to the database when it has no blob left to handle. */
  ghost function FetchMemory(t: Tables, g: Memory, picked: seq<int>): Memory
    requires Answers(t, g, picked)
  {
    if g.superseded == [] then Memory(Recall(Swept(t, AsSet(g.deleted)), picked), []) else g
  }

  /** Takes the next blob and notes that it is to be deleted, whether or not it can be invalidated. */
  function Pop(g: Memory): Memory {
    if g.superseded == [] then g
    else Memory(g.superseded[..|g.superseded| - 1], g.deleted + [g.superseded[|g.superseded| - 1].id])
  }

  lemma FetchKeepsSafe(t: Tables, g: Memory, picked: seq<int>)
    requires Safe(t, g) && Answers(t, g, picked)
    ensures Safe(FetchDb(t, g, picked), FetchMemory(t, g, picked))
  {
    if g.superseded == [] {
      var g1 := FetchMemory(t, g, picked);
      assert Remembered(g1) == picked;
      forall s | s in g1.superseded
        ensures s.id in picked
      {
        RememberedAreIds(g1);
      }
      if picked == [] {
        assert g1.superseded == [];
      }
    }
  }

  lemma PopKeepsSafe(t: Tables, g: Memory)
    requires Safe(t, g)
    ensures Safe(t, Pop(g))
  {
    if g.superseded != [] {
      var n := |g.superseded|;
      var h := Pop(g);
      var last := g.superseded[n - 1].id;
      assert Ids(g.superseded) == Ids(h.superseded) + [last];
      assert multiset(Remembered(h)) == multiset(Remembered(g)) by {
        assert Remembered(g) == Ids(h.superseded) + ([last] + g.deleted);
        assert Remembered(h) == Ids(h.superseded) + (g.deleted + [last]);
      }
      PermutedStaysDistinct(Remembered(g), Remembered(h));
      forall b | b in Remembered(h)
        ensures b in Remembered(g)
      {
        assert b in multiset(Remembered(h));
      }
    }
  }

  lemma DistinctIffCounts(s: seq<int>)
    ensures Distinct(s) <==> forall x :: multiset(s)[x] <= 1
  {
    if s != [] {
      var r := s[1..];
      assert s == [s[0]] + r;
      DistinctIffCounts(r);
      if Distinct(s) {
        assert Distinct(r);
        assert s[0] !in r;
        assert multiset(s)[s[0]] == 1;
      } else {
        var i, j :| 0 <= i < j < |s| && s[i] == s[j];
        if i == 0 {
          assert s[0] in r by {
            assert r[j - 1] == s[0];
          }
          assert multiset(s)[s[0]] >= 2;
        } else {
          assert r[i - 1] == r[j - 1];
          var x :| multiset(r)[x] > 1;
          assert multiset(s)[x] > 1;
        }
      }
    }
  }

  lemma PermutedStaysDistinct(s: seq<int>, r: seq<int>)
    requires Distinct(s) && multiset(s) == multiset(r)
    ensures Distinct(r)
  {
    DistinctIffCounts(s);
    DistinctIffCounts(r);
  }

  // ---------------------------------------------------------------- what is left to do

  /** Garbage key blobs that no step has taken yet. */
  ghost function Pending(t: Tables, g: Memory): set<int> {
    GarbageKeyBlobs(Swept(t, {})) - AsSet(g.deleted)
  }

  lemma SweptGarbage(t: Tables, g: Memory)
    requires Safe(t, g)
    ensures GarbageKeyBlobs(Swept(t, AsSet(g.deleted))) == Pending(t, g)
  {
    var u0 := Swept(t, {});
    var u1 := Swept(t, AsSet(g.deleted));
    assert u0.entries == u1.entries;
    forall b
      ensures GarbageKeyBlob(u1, b) <==> GarbageKeyBlob(u0, b) && b !in g.deleted
    {
      if GarbageKeyBlob(u0, b) && b !in g.deleted && !Orphaned(u0, b) {
        NewestOfSlotSurvives(t, g, b);
      }
      if GarbageKeyBlob(u1, b) && !Current(u1, b) {
        var c :| c in u1.blobs && SameSlot(u1.blobs[b], u1.blobs[c]) && c > b;
        assert SameSlot(u0.blobs[b], u0.blobs[c]);
      }
    }
  }

  lemma NewestOfSlotSurvives(t: Tables, g: Memory, b: int)
    requires Safe(t, g) && b in t.blobs && t.blobs[b].part == KeyBlob && b !in g.deleted
    requires t.blobs[b].keyId in t.entries && !Current(Swept(t, {}), b)
    ensures !Current(Swept(t, AsSet(g.deleted)), b)
  {
    var u0 := Swept(t, {});
    var u1 := Swept(t, AsSet(g.deleted));
    var c :| c in u0.blobs && SameSlot(u0.blobs[b], u0.blobs[c]) && c > b;
    assert Fills(t, c, t.blobs[b].keyId, KeyBlob);
    var top := CurrentBlob(t, t.blobs[b].keyId, KeyBlob).value;
    assert SameSlot(t.blobs[top], t.blobs[c]);
    assert top !in g.deleted by {
      assert !Garbage(t, top);
      assert top in g.deleted ==> top in Remembered(g);
    }
    assert SameSlot(u1.blobs[b], u1.blobs[top]);
  }

  lemma SweepingTwice(t: Tables, done: set<int>)
    ensures Swept(Swept(t, done), {}) == Swept(t, done)
  {
    var u := Swept(t, done);
    assert UnreferencedIds(u) == {};
    assert DeleteBlobs(u, {}) == u;
    assert DeleteEntries(u, {}) == u;
  }

  ghost predicate NoGarbage(t: Tables) {
    && UnreferencedIds(t) == {}
    && (forall b :: b in t.blobs ==> !Garbage(t, b))
  }

  /** When the query finds nothing, the transaction leaves no garbage of any kind. */
  lemma EmptyAnswerMeansClean(t: Tables, g: Memory)
    requires Safe(t, g) && g.superseded == [] && Answers(t, g, [])
    ensures NoGarbage(FetchDb(t, g, []))
  {
    var u := Swept(t, AsSet(g.deleted));
    assert UnreferencedIds(u) == {};
    var v := PurgeCertificates(u);
    PurgeTakesOnlyGarbage(u);
    forall b | b in v.blobs
      ensures !Garbage(v, b)
    {
      assert u.blobs[b].part == KeyBlob ==> !GarbageKeyBlob(u, b);
      assert !Garbage(u, b);
    }
  }

  // ---------------------------------------------------------------- a whole chain

  /** The database, the collector and the blobs it has had invalidated, in order. */
  datatype Stage = Stage(t: Tables, g: Memory, handled: seq<int>)

  ghost predicate StepTo(s: Stage, r: Stage, picked: seq<int>) {
    && Answers(s.t, s.g, picked)
    && var g1 := FetchMemory(s.t, s.g, picked);
       && r.t == FetchDb(s.t, s.g, picked)
       && r.g == Pop(g1)
       && r.handled == if g1.superseded == [] then s.handled else s.handled + [g1.superseded[|g1.superseded| - 1].id]
  }

  ghost predicate Step(s: Stage, r: Stage) {
    exists picked :: StepTo(s, r, picked)
  }

  ghost predicate StepAt(ss: seq<Stage>, i: nat)
    requires i < |ss| - 1
  {
    Step(ss[i], ss[i + 1])
  }

  /** Steps taken one after the other: each one but the first was queued because the one before had ids to delete. */
  ghost predicate Chain(ss: seq<Stage>) {
    && |ss| >= 1
    && (forall i :: 0 <= i < |ss| - 1 ==> StepAt(ss, i))
    && (forall i :: 0 < i < |ss| - 1 ==> ss[i].g.deleted != [])
  }

  /** Step `n` queued no other. */
  ghost predicate Ended(ss: seq<Stage>, n: nat)
    requires n < |ss|
  {
    n >= 1 && ss[n].g.deleted == []
  }

  ghost predicate Stopped(ss: seq<Stage>)
    requires |ss| >= 1
  {
    Ended(ss, |ss| - 1)
  }

  /** `all` are the blobs handled so far and those still to be handled, each once. */
  ghost predicate Ready(s: Stage, all: set<int>) {
    && Safe(s.t, s.g)
    && Distinct(s.handled)
    && AsSet(s.handled) !! Pending(s.t, s.g)
    && AsSet(s.handled) + Pending(s.t, s.g) == all
  }

  lemma StepFromStock(s: Stage, r: Stage, picked: seq<int>, all: set<int>)
    requires Ready(s, all) && StepTo(s, r, picked) && s.g.superseded != []
    ensures Ready(r, all) && r.g.deleted != [] && |Pending(s.t, s.g)| == |Pending(r.t, r.g)| + 1
  {
    var n := |s.g.superseded|;
    var x := s.g.superseded[n - 1].id;
    PopKeepsSafe(s.t, s.g);
    assert Remembered(s.g)[n - 1] == x;
    forall i | 0 <= i < |s.g.deleted|
      ensures s.g.deleted[i] != x
    {
      assert Remembered(s.g)[n + i] == s.g.deleted[i];
    }
    SweepKeepsGarbage(s.t, x);
    TakeOne(s, r, x, all);
  }

  /** Removing unreferenced entries only adds orphans. */
  lemma SweepKeepsGarbage(t: Tables, x: int)
    requires GarbageKeyBlob(t, x)
    ensures x in GarbageKeyBlobs(Swept(t, {}))
  {
    var u := Swept(t, {});
    if !Current(t, x) {
      var c :| c in t.blobs && SameSlot(t.blobs[x], t.blobs[c]) && c > x;
      assert SameSlot(u.blobs[x], u.blobs[c]);
    }
    assert GarbageKeyBlob(u, x);
  }

  lemma TakeOne(s: Stage, r: Stage, x: int, all: set<int>)
    requires Ready(s, all) && x in Pending(s.t, s.g)
    requires Safe(r.t, r.g) && r.handled == s.handled + [x] && Pending(r.t, r.g) == Pending(s.t, s.g) - {x}
    ensures Ready(r, all) && |Pending(s.t, s.g)| == |Pending(r.t, r.g)| + 1
  {
    assert x !in s.handled by {
      assert x !in AsSet(s.handled);
    }
    assert AsSet(r.handled) == AsSet(s.handled) + {x};
    assert Pending(s.t, s.g) == Pending(r.t, r.g) + {x};
  }

  lemma StepFromDatabase(s: Stage, r: Stage, picked: seq<int>, all: set<int>)
    requires Ready(s, all) && StepTo(s, r, picked) && s.g.superseded == [] && picked != []
    ensures Ready(r, all) && r.g.deleted != [] && |Pending(s.t, s.g)| == |Pending(r.t, r.g)| + 1
  {
    var g1 := FetchMemory(s.t, s.g, picked);
    FetchKeepsSafe(s.t, s.g, picked);
    PopKeepsSafe(r.t, g1);
    SweptGarbage(s.t, s.g);
    SweepingTwice(s.t, AsSet(s.g.deleted));
    var x := g1.superseded[|g1.superseded| - 1].id;
    assert Ids(g1.superseded)[|picked| - 1] == x;
    assert r.g.deleted == [x];
    assert AsSet(r.g.deleted) == {x};
    assert x in picked;
    TakeOne(s, r, x, all);
  }

  lemma LastStep(s: Stage, r: Stage, all: set<int>)
    requires Ready(s, all) && StepTo(s, r, []) && s.g.superseded == []
    ensures r.g.deleted == [] && Pending(s.t, s.g) == {} && r.handled == s.handled && NoGarbage(r.t)
  {
    SweptGarbage(s.t, s.g);
    EmptyAnswerMeansClean(s.t, s.g);
  }

  /** A step either ends the chain or takes one blob off what is left to do. */
  lemma OneStep(s: Stage, r: Stage, all: set<int>)
    requires Ready(s, all) && Step(s, r)
    ensures r.g.deleted == [] ==> Pending(s.t, s.g) == {} && r.handled == s.handled && NoGarbage(r.t)
    ensures r.g.deleted != [] ==> Ready(r, all) && |Pending(s.t, s.g)| == |Pending(r.t, r.g)| + 1
  {
    var picked :| StepTo(s, r, picked);
    if s.g.superseded != [] {
      StepFromStock(s, r, picked, all);
    } else if picked == [] {
      LastStep(s, r, all);
    } else {
      StepFromDatabase(s, r, picked, all);
    }
  }

  /** Each blob has been handed out once, and nothing is left. */
  ghost predicate AllHandled(end: Stage, all: set<int>) {
    Distinct(end.handled) && AsSet(end.handled) == all && NoGarbage(end.t)
  }

  /** Where step `n` has led: to the end with all handled, or one blob nearer to it for every step. */
  ghost predicate Drained(ss: seq<Stage>, n: nat, all: set<int>)
    requires n < |ss|
  {
    if Ended(ss, n) then n == |Pending(ss[0].t, ss[0].g)| + 1 && AllHandled(ss[n], all)
    else Ready(ss[n], all) && n + |Pending(ss[n].t, ss[n].g)| == |Pending(ss[0].t, ss[0].g)|
  }

  lemma StepDrains(ss: seq<Stage>, n: nat, all: set<int>)
    requires Chain(ss) && 1 <= n < |ss| && Drained(ss, n - 1, all)
    ensures Drained(ss, n, all)
  {
    assert !Ended(ss, n - 1) && StepAt(ss, n - 1);
    OneStep(ss[n - 1], ss[n], all);
  }

  /** Every step of a chain but the last takes one blob off what is left to do; the last finds nothing left. */
  lemma {:induction false} ChainDrains(ss: seq<Stage>, n: nat, all: set<int>)
    requires Chain(ss) && Ready(ss[0], all) && n < |ss|
    ensures Drained(ss, n, all)
    decreases n
  {
    if n == 0 {
      assert !Ended(ss, 0);
    } else {
      ChainDrains(ss, n - 1, all);
      StepDrains(ss, n, all);
    }
  }

  /** Up to `max` members of a set, each once. */
  ghost function UpTo(s: set<int>, max: nat): (r: seq<int>)
    ensures Distinct(r) && |r| <= max && forall i :: 0 <= i < |r| ==> r[i] in s
    ensures |r| < max ==> forall x :: x in s ==> x in r
    decreases max
  {
    if s == {} || max == 0 then []
    else
      var x := AnyOf(s);
      var rest := UpTo(s - {x}, max - 1);
      assert forall y :: y in s - {x} || y == x <==> y in s;
      [x] + rest
  }

  /** The database always has an answer for the collector, so a queued step can always be taken. */
  lemma StepIsPossible(s: Stage)
    ensures exists r :: Step(s, r)
  {
    var u := Swept(s.t, AsSet(s.g.deleted));
    var picked := UpTo(GarbageKeyBlobs(u), MAX_BLOBS);
    assert forall b :: GarbageKeyBlob(u, b) ==> b in GarbageKeyBlobs(u);
    assert Answers(s.t, s.g, picked);
    var g1 := FetchMemory(s.t, s.g, picked);
    var handled := if g1.superseded == [] then s.handled else s.handled + [g1.superseded[|g1.superseded| - 1].id];
    var r := Stage(FetchDb(s.t, s.g, picked), Pop(g1), handled);
    assert StepTo(s, r, picked);
    assert Step(s, r);
  }

  lemma ChainGoesOn(ss: seq<Stage>, r: Stage)
    requires Chain(ss) && !Stopped(ss) && Step(ss[|ss| - 1], r)
    ensures Chain(ss + [r])
  {
    var longer := ss + [r];
    forall i | 0 <= i < |longer| - 1
      ensures StepAt(longer, i)
    {
      assert i < |ss| - 1 ==> StepAt(ss, i);
    }
  }

  ghost function Last(ss: seq<Stage>): Stage
    requires |ss| >= 1
  {
    ss[|ss| - 1]
  }

  lemma NextStage(s: Stage, all: set<int>) returns (r: Stage)
    requires Ready(s, all)
    ensures Step(s, r)
    ensures r.g.deleted != [] ==> Ready(r, all) && |Pending(r.t, r.g)| < |Pending(s.t, s.g)|
  {
    StepIsPossible(s);
    r :| Step(s, r);
    OneStep(s, r, all);
  }

  lemma ChainAdvances(ss: seq<Stage>, all: set<int>) returns (longer: seq<Stage>)
    requires Chain(ss) && !Stopped(ss) && Ready(Last(ss), all)
    ensures Chain(longer) && ss <= longer
    ensures !Stopped(longer) ==> Ready(Last(longer), all)
                                 && |Pending(Last(longer).t, Last(longer).g)| < |Pending(Last(ss).t, Last(ss).g)|
  {
    var r := NextStage(Last(ss), all);
    ChainGoesOn(ss, r);
    longer := ss + [r];
    assert Last(longer) == r && Stopped(longer) == (r.g.deleted == []);
  }

  /** A chain that has not stopped can be carried on until it has. */
  lemma {:induction false} ChainStops(ss: seq<Stage>, all: set<int>) returns (full: seq<Stage>)
    requires Chain(ss) && !Stopped(ss) && Ready(Last(ss), all)
    ensures ss <= full && Chain(full) && Stopped(full)
    decreases |Pending(Last(ss).t, Last(ss).g)|
  {
    full := ChainAdvances(ss, all);
    if !Stopped(full) {
      full := ChainStops(full, all);
    }
  }

  lemma StartsReady(s: Stage) returns (all: set<int>)
    requires s.g == EMPTY_MEMORY && s.handled == []
    ensures all == GarbageKeyBlobs(Swept(s.t, {})) == Pending(s.t, s.g) && Ready(s, all)
  {
    all := GarbageKeyBlobs(Swept(s.t, {}));
    assert Pending(s.t, s.g) == all;
  }

  lemma StopsAfter(ss: seq<Stage>, n: nat, all: set<int>)
    requires n < |ss| && Drained(ss, n, all)
    ensures var m := |Pending(ss[0].t, ss[0].g)|;
            n <= m + 1 && (Ended(ss, n) <==> n == m + 1) && (Ended(ss, n) ==> AllHandled(ss[n], all))
  {
  }

  /**
   Termination and completeness: with n superseded or orphaned key blobs and nothing remembered, no chain
   takes more than n + 1 steps, and a chain has stopped exactly when it has taken n + 1. Every blob is handed
   out for invalidation exactly once, and in the end there is no unreferenced entry and no superseded blob of
   any type.
   */
  lemma ChainStopsClean(ss: seq<Stage>)
    requires Chain(ss) && ss[0].g == EMPTY_MEMORY && ss[0].handled == []
    ensures var all := GarbageKeyBlobs(Swept(ss[0].t, {}));
            && |ss| - 1 <= |all| + 1
            && (Stopped(ss) <==> |ss| - 1 == |all| + 1)
            && (Stopped(ss) ==> AllHandled(Last(ss), all))
  {
    var all := StartsReady(ss[0]);
    ChainDrains(ss, |ss| - 1, all);
    StopsAfter(ss, |ss| - 1, all);
  }

  /** Wherever a chain has got to, it can be carried on to its end. */
  lemma ChainHasEnd(ss: seq<Stage>) returns (full: seq<Stage>)
    requires Chain(ss) && ss[0].g == EMPTY_MEMORY && ss[0].handled == []
    ensures ss <= full && Chain(full) && Stopped(full)
  {
    full := ss;
    if !Stopped(ss) {
      var all := StartsReady(ss[0]);
      ChainDrains(ss, |ss| - 1, all);
      full := CarriedOn(ss, all);
    }
  }

  lemma CarriedOn(ss: seq<Stage>, all: set<int>) returns (full: seq<Stage>)
    requires Chain(ss) && !Stopped(ss) && Drained(ss, |ss| - 1, all)
    ensures ss <= full && Chain(full) && Stopped(full)
  {
    assert Ready(Last(ss), all);
    full := ChainStops(ss, all);
  }
}
