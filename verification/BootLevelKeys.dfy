/**
 Keys for boot levels. The key of each level is expanded from the key of the level before, so a key
 that has been dropped cannot be obtained from those that are kept.
 */
module BootLevelKeys {
  import opened KeystoreTypes

  /** HKDF-Expand of section 2.3 of RFC 5869: output length, key and info to output. */
  type Kdf = (nat, Bytes, string) -> Bytes

  const HKDF_ADVANCE := "Advance KDF one step"
  const HKDF_AES := "Generate AES-256-GCM key"
  const HKDF_KEY_SIZE := 32
  const AES_256_KEY_LENGTH := 32

  /** The chain of level keys, as a definition rather than a cache. */
  function LevelKey(kdf: Kdf, root: Bytes, level: nat): Bytes {
    if level == 0 then root else kdf(HKDF_KEY_SIZE, LevelKey(kdf, root, level - 1), HKDF_ADVANCE)
  }

  function AesKeyOf(kdf: Kdf, root: Bytes, level: nat): Bytes {
    kdf(AES_256_KEY_LENGTH, LevelKey(kdf, root, level), HKDF_AES)
  }

  datatype Cache = Cache(current: nat, keys: seq<Bytes>)

  ghost predicate Refines(c: Cache, kdf: Kdf, root: Bytes) {
    forall i :: 0 <= i < |c.keys| ==> c.keys[i] == LevelKey(kdf, root, c.current + i)
  }

  predicate Accessible(c: Cache, level: nat) {
    level >= c.current && c.keys != []
  }

  /** How many expansions it takes to have the key of an accessible level. */
  function Missing(c: Cache, level: nat): nat {
    var firstNotCached := c.current + |c.keys|;
    if level < firstNotCached then 0 else level + 1 - firstNotCached
  }

  function Grown(c: Cache, n: nat, kdf: Kdf): Cache
    requires c.keys != []
    decreases n
  {
    if n == 0 then c
    else Grown(c.(keys := c.keys + [kdf(HKDF_KEY_SIZE, c.keys[|c.keys| - 1], HKDF_ADVANCE)]), n - 1, kdf)
  }

  // ---------------------------------------------------------------- operations

  /** A request, with the number of expansions that succeed before the first one that fails. */
  datatype Op =
    | AesKey(level: nat, succeed: nat)
    | Advance(level: nat, succeed: nat)
    | Finish

  datatype Reply = Key(key: Bytes) | NoKey | Failed | Done

  function Min(a: nat, b: nat): nat {
    if a < b then a else b
  }

  /** The cache after looking up a level; it keeps what was expanded even if a later expansion failed. */
  function LookedUp(c: Cache, level: nat, succeed: nat, kdf: Kdf): Cache {
    if Accessible(c, level) then Grown(c, Min(Missing(c, level), succeed), kdf) else c
  }

  function Next(c: Cache, op: Op, kdf: Kdf): Cache {
    match op
    case AesKey(level, succeed) => LookedUp(c, level, succeed, kdf)
    case Advance(level, succeed) =>
      if !Accessible(c, level) then c
      else
        var d := LookedUp(c, level, succeed, kdf);
        if Missing(c, level) > succeed || level - c.current > |d.keys| then d
        else Cache(level, d.keys[level - c.current..])
    case Finish => c.(keys := [])
  }

  function ReplyTo(c: Cache, op: Op, kdf: Kdf): Reply {
    match op
    case AesKey(level, succeed) =>
      if !Accessible(c, level) then NoKey
      else
        var d := LookedUp(c, level, succeed, kdf);
        if Missing(c, level) >= succeed || level - c.current >= |d.keys| then Failed
        else Key(kdf(AES_256_KEY_LENGTH, d.keys[level - c.current], HKDF_AES))
    case Advance(level, succeed) => if Accessible(c, level) && Missing(c, level) > succeed then Failed else Done
    case Finish => Done
  }

  lemma {:induction false} GrownRefines(c: Cache, n: nat, kdf: Kdf, root: Bytes)
    requires Refines(c, kdf, root) && c.keys != []
    ensures var d := Grown(c, n, kdf);
            Refines(d, kdf, root) && d.current == c.current && |d.keys| == |c.keys| + n && c.keys <= d.keys
    decreases n
  {
    if n > 0 {
      var k := kdf(HKDF_KEY_SIZE, c.keys[|c.keys| - 1], HKDF_ADVANCE);
      assert k == LevelKey(kdf, root, c.current + |c.keys|);
      GrownRefines(c.(keys := c.keys + [k]), n - 1, kdf, root);
    }
  }

  /** A lookup expands only what is missing up to the level, and as far as expansions succeed. */
  lemma ExpandsAsNeeded(c: Cache, level: nat, succeed: nat, kdf: Kdf, root: Bytes)
    requires Refines(c, kdf, root)
    ensures var d := LookedUp(c, level, succeed, kdf);
            && d.current == c.current && c.keys <= d.keys
            && |d.keys| == if c.keys == [] || level < c.current + |c.keys| then |c.keys|
                           else if |c.keys| + succeed < level - c.current + 1 then |c.keys| + succeed
                           else level - c.current + 1
  {
    if Accessible(c, level) {
      GrownRefines(c, Min(Missing(c, level), succeed), kdf, root);
    }
  }

  lemma StepRefines(c: Cache, op: Op, kdf: Kdf, root: Bytes)
    requires Refines(c, kdf, root)
    ensures Refines(Next(c, op, kdf), kdf, root)
    ensures c.current <= Next(c, op, kdf).current
    ensures c.keys == [] ==> Next(c, op, kdf).keys == []
  {
    if !op.Finish? && Accessible(c, op.level) {
      GrownRefines(c, Min(Missing(c, op.level), op.succeed), kdf, root);
    }
  }

  /** What a request is answered: the key of the level, unless it is out of reach or an expansion failed. */
  lemma ReplyRefines(c: Cache, op: Op, kdf: Kdf, root: Bytes)
    requires Refines(c, kdf, root)
    ensures op.AesKey? ==>
              ReplyTo(c, op, kdf) == if !Accessible(c, op.level) then NoKey
                                     else if op.succeed > Missing(c, op.level) then Key(AesKeyOf(kdf, root, op.level))
                                     else Failed
    ensures op.Advance? && Accessible(c, op.level) && ReplyTo(c, op, kdf).Done? ==> Next(c, op, kdf).current == op.level
    ensures op.Advance? && Accessible(c, op.level) ==> Next(c, op, kdf).keys != []
    ensures op.Advance? && ReplyTo(c, op, kdf).Failed? ==> Next(c, op, kdf).current == c.current
  {
    if !op.Finish? && Accessible(c, op.level) {
      GrownRefines(c, Min(Missing(c, op.level), op.succeed), kdf, root);
    }
  }

  // ---------------------------------------------------------------- every run

  function EndOf(c: Cache, ops: seq<Op>, kdf: Kdf): Cache
    decreases |ops|
  {
    if ops == [] then c else EndOf(Next(c, ops[0], kdf), ops[1..], kdf)
  }

  lemma {:induction false} RunRefines(c: Cache, ops: seq<Op>, kdf: Kdf, root: Bytes)
    requires Refines(c, kdf, root)
    ensures var d := EndOf(c, ops, kdf);
            Refines(d, kdf, root) && c.current <= d.current && (c.keys == [] ==> d.keys == [])
    decreases |ops|
  {
    if ops != [] {
      StepRefines(c, ops[0], kdf, root);
      RunRefines(Next(c, ops[0], kdf), ops[1..], kdf, root);
    }
  }

  /** After any run from the start, a level that is answered at all is answered with its one key. */
  lemma AnsweredWithItsKey(root: Bytes, ops: seq<Op>, level: nat, succeed: nat, kdf: Kdf)
    ensures var reply := ReplyTo(EndOf(Cache(0, [root]), ops, kdf), AesKey(level, succeed), kdf);
            reply.NoKey? || reply.Failed? || reply == Key(AesKeyOf(kdf, root, level))
  {
    assert Refines(Cache(0, [root]), kdf, root);
    RunRefines(Cache(0, [root]), ops, kdf, root);
    ReplyRefines(EndOf(Cache(0, [root]), ops, kdf), AesKey(level, succeed), kdf, root);
  }

  /** Once the level has been raised, or all keys dropped, nothing brings the dropped keys back. */
  lemma DroppedForGood(c: Cache, op: Op, ops: seq<Op>, level: nat, succeed: nat, kdf: Kdf, root: Bytes)
    requires Refines(c, kdf, root)
    requires op.Finish? || (op.Advance? && Accessible(c, op.level) && ReplyTo(c, op, kdf).Done? && level < op.level)
    ensures ReplyTo(EndOf(Next(c, op, kdf), ops, kdf), AesKey(level, succeed), kdf) == NoKey
  {
    StepRefines(c, op, kdf, root);
    ReplyRefines(c, op, kdf, root);
    RunRefines(Next(c, op, kdf), ops, kdf, root);
  }

  /** Everything at or above the current level stays in reach until all keys are dropped. */
  lemma {:induction false} StaysInReach(c: Cache, ops: seq<Op>, level: nat, kdf: Kdf, root: Bytes)
    requires Refines(c, kdf, root) && Accessible(c, level)
    requires forall i :: 0 <= i < |ops| ==> !ops[i].Finish? && (ops[i].Advance? ==> ops[i].level <= level)
    ensures Accessible(EndOf(c, ops, kdf), level)
    decreases |ops|
  {
    if ops != [] {
      StepRefines(c, ops[0], kdf, root);
      ReplyRefines(c, ops[0], kdf, root);
      if Accessible(c, ops[0].level) {
        GrownRefines(c, Min(Missing(c, ops[0].level), ops[0].succeed), kdf, root);
      }
      assert Accessible(Next(c, ops[0], kdf), level);
      assert forall i :: 0 <= i < |ops[1..]| ==> ops[1..][i] == ops[i + 1];
      StaysInReach(Next(c, ops[0], kdf), ops[1..], level, kdf, root);
    }
  }

  // ---------------------------------------------------------------- the object

  class BootLevelKeyCache {
    var current: nat
    var cache: seq<Bytes>
    const kdf: Kdf
    ghost const root: Bytes

    function View(): Cache
      reads this
    {
      Cache(current, cache)
    }

    ghost predicate Valid()
      reads this
    {
      Refines(View(), kdf, root)
    }

    constructor (levelZeroKey: Bytes, kdf: Kdf)
      ensures Valid() && View() == Cache(0, [levelZeroKey])
      ensures this.kdf == kdf && root == levelZeroKey
    {
      current, cache := 0, [levelZeroKey];
      this.kdf, root := kdf, levelZeroKey;
    }

    predicate LevelAccessible(level: nat)
      reads this
    {
      level >= current && cache != []
    }

    /** Grows the cache up to a level; an expansion may fail on the way. */
    method GetHkdfKey(level: nat, succeed: nat) returns (r: Result<Option<Bytes>>)
      requires Valid()
      modifies this`cache
      ensures Valid() && View() == LookedUp(old(View()), level, succeed, kdf)
      ensures r.Err? <==> Accessible(old(View()), level) && Missing(old(View()), level) > succeed
      ensures r.Ok? ==> r.value == if Accessible(old(View()), level) then Some(LevelKey(kdf, root, level)) else None
      ensures r.Ok? && r.value.Some? ==> level - current < |cache| && cache[level - current] == r.value.value
    {
      if !LevelAccessible(level) {
        return Ok(None);
      }
      var needed := Missing(View(), level);
      var n := 0;
      GrownRefines(View(), Min(needed, succeed), kdf, root);
      ghost var goal := Grown(View(), Min(needed, succeed), kdf);
      while n < needed
        invariant 0 <= n <= needed && n <= succeed
        invariant cache != [] && Grown(View(), Min(needed, succeed) - n, kdf) == goal
        invariant |cache| == |old(cache)| + n
      {
        if n == succeed {
          return Err(SystemError);
        }
        var highest := cache[|cache| - 1];
        cache := cache + [kdf(HKDF_KEY_SIZE, highest, HKDF_ADVANCE)];
        n := n + 1;
      }
      r := Ok(Some(cache[level - current]));
    }

    method AdvanceBootLevel(level: nat, succeed: nat) returns (r: Result<()>)
      requires Valid()
      modifies this
      ensures Valid() && View() == Next(old(View()), Advance(level, succeed), kdf)
      ensures r.Ok? <==> ReplyTo(old(View()), Advance(level, succeed), kdf).Done?
    {
      StepRefines(View(), Advance(level, succeed), kdf, root);
      if !LevelAccessible(level) {
        return Ok(());
      }
      var found := GetHkdfKey(level, succeed);
      if found.Err? {
        return Err(found.error);
      }
      cache := cache[level - current..];
      current := level;
      r := Ok(());
    }

    method FinishBoot()
      modifies this`cache
      ensures View() == Next(old(View()), Finish, kdf) && Valid()
    {
      cache := [];
    }

    method GetAesKey(level: nat, succeed: nat) returns (r: Result<Option<Bytes>>)
      requires Valid()
      modifies this`cache
      ensures Valid() && View() == Next(old(View()), AesKey(level, succeed), kdf)
      ensures match ReplyTo(old(View()), AesKey(level, succeed), kdf)
              case Key(k) => r == Ok(Some(k))
              case NoKey => r == Ok(None)
              case Failed => r.Err?
              case Done => false
    {
      ReplyRefines(View(), AesKey(level, succeed), kdf, root);
      var needed := Missing(View(), level);
      var found := GetHkdfKey(level, succeed);
      if found.Err? {
        return found;
      }
      if found.value.None? {
        return Ok(None);
      }
      if needed == succeed {
        return Err(SystemError);
      }
      r := Ok(Some(kdf(AES_256_KEY_LENGTH, found.value.value, HKDF_AES)));
    }
  }
}
