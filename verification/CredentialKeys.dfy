/**
 The authentication keys of an identity credential: each slot holds a certified key with a use count
 and possibly a key that waits for certification.
 */
module CredentialKeys {
  import opened KeystoreTypes

  datatype AuthKey = AuthKey(
    certificate: Bytes,
    keyBlob: Bytes,
    expiration: int,
    staticData: Bytes,
    pendingCertificate: Bytes,
    pendingKeyBlob: Bytes,
    useCount: int)

  const EMPTY_SLOT := AuthKey([], [], 0, [], [], [], 0)

  datatype Keys = Keys(slots: seq<AuthKey>, keyCount: int, maxUses: int)

  /** How a caller wants a key to be selected, and when. */
  datatype Wish = Wish(allowExhausted: bool, allowExpired: bool, now: int)

  // ---------------------------------------------------------------- selection

  predicate Expired(k: AuthKey, now: int) {
    now > k.expiration
  }

  predicate Eligible(k: AuthKey, now: int, allowExpired: bool) {
    k.certificate != [] && (allowExpired || !Expired(k, now))
  }

  /** The first of the least used eligible slots. */
  ghost predicate IsCandidate(slots: seq<AuthKey>, i: int, now: int, allowExpired: bool) {
    && 0 <= i < |slots|
    && Eligible(slots[i], now, allowExpired)
    && (forall j :: 0 <= j < |slots| && Eligible(slots[j], now, allowExpired) ==>
          slots[i].useCount <= slots[j].useCount)
    && (forall j :: 0 <= j < i && Eligible(slots[j], now, allowExpired) ==> slots[i].useCount < slots[j].useCount)
  }

  ghost predicate NoneEligible(slots: seq<AuthKey>, now: int, allowExpired: bool) {
    forall j :: 0 <= j < |slots| ==> !Eligible(slots[j], now, allowExpired)
  }

  function Candidate(slots: seq<AuthKey>, now: int, allowExpired: bool): (r: Option<nat>)
    ensures r.Some? ==> IsCandidate(slots, r.value, now, allowExpired)
    ensures r.None? ==> NoneEligible(slots, now, allowExpired)
  {
    if slots == [] then None
    else
      var n := |slots| - 1;
      var before := Candidate(slots[..n], now, allowExpired);
      if Eligible(slots[n], now, allowExpired) && (before.None? || slots[n].useCount < slots[before.value].useCount)
      then Some(n) else before
  }

  function FindKey(k: Keys, w: Wish, allowExpired: bool): Option<nat> {
    var c := Candidate(k.slots, w.now, allowExpired);
    if c.Some? && k.slots[c.value].useCount >= k.maxUses && !w.allowExhausted then None else c
  }

  /** Expired keys are only looked at when that is allowed and nothing else is to be had. */
  function Choose(k: Keys, w: Wish): Option<nat> {
    var c := FindKey(k, w, false);
    if c.None? && w.allowExpired then FindKey(k, w, true) else c
  }

  function Used(k: Keys, i: nat): Keys
    requires i < |k.slots|
  {
    k.(slots := k.slots[i := k.slots[i].(useCount := k.slots[i].useCount + 1)])
  }

  function Select(k: Keys, w: Wish): Keys {
    var c := Choose(k, w);
    if c.Some? then Used(k, c.value) else k
  }

  ghost predicate Usable(k: Keys, i: int, w: Wish, allowExpired: bool) {
    && 0 <= i < |k.slots|
    && Eligible(k.slots[i], w.now, allowExpired)
    && (w.allowExhausted || k.slots[i].useCount < k.maxUses)
  }

  ghost predicate AnyUsable(k: Keys, w: Wish, allowExpired: bool) {
    exists i :: Usable(k, i, w, allowExpired)
  }

  lemma FindKeyIff(k: Keys, w: Wish, allowExpired: bool)
    ensures FindKey(k, w, allowExpired).Some? <==> AnyUsable(k, w, allowExpired)
    ensures FindKey(k, w, allowExpired).Some? ==> Usable(k, FindKey(k, w, allowExpired).value, w, allowExpired)
  {
    var c := Candidate(k.slots, w.now, allowExpired);
    if i :| Usable(k, i, w, allowExpired) {
      assert c.Some? && k.slots[c.value].useCount <= k.slots[i].useCount;
    }
    if FindKey(k, w, allowExpired).Some? {
      assert Usable(k, c.value, w, allowExpired);
    }
  }

  /** A key is selected exactly when a usable one exists, and an expired one only if none else is usable. */
  lemma ChoiceIff(k: Keys, w: Wish)
    ensures Choose(k, w).Some? <==> AnyUsable(k, w, w.allowExpired)
    ensures var c := Choose(k, w);
            c.Some? ==>
              && Usable(k, c.value, w, w.allowExpired)
              && (Expired(k.slots[c.value], w.now) <==> !AnyUsable(k, w, false))
              && forall j :: Usable(k, j, w, false) ==> k.slots[c.value].useCount <= k.slots[j].useCount
  {
    FindKeyIff(k, w, false);
    FindKeyIff(k, w, true);
    forall i | Usable(k, i, w, false)
      ensures Usable(k, i, w, true)
    {
    }
    if w.allowExpired && AnyUsable(k, w, true) && !AnyUsable(k, w, false) {
      var c := FindKey(k, w, true).value;
      assert !Usable(k, c, w, false);
    }
  }

  // ---------------------------------------------------------------- how often keys can be used

  /** The number of certified slots. */
  function CertifiedCount(slots: seq<AuthKey>): nat {
    if slots == [] then 0 else CertifiedCount(slots[1..]) + if slots[0].certificate != [] then 1 else 0
  }

  /** The uses that the certified slots have left; a slot over the limit has none. */
  function Left(slots: seq<AuthKey>, m: int): nat {
    if slots == [] then 0
    else
      Left(slots[1..], m) + if slots[0].certificate != [] && slots[0].useCount < m then m - slots[0].useCount else 0
  }

  /** No certified key has been used two times more often than another. */
  ghost predicate Balanced(slots: seq<AuthKey>) {
    forall i, j :: 0 <= i < |slots| && 0 <= j < |slots| && slots[i].certificate != [] && slots[j].certificate != [] ==>
      slots[i].useCount <= slots[j].useCount + 1
  }

  /** The certified keys are valid throughout. */
  ghost predicate ValidUntil(slots: seq<AuthKey>, now: int) {
    forall i :: 0 <= i < |slots| && slots[i].certificate != [] ==> now <= slots[i].expiration
  }

  lemma {:induction false} UseTakesOne(slots: seq<AuthKey>, m: int, i: nat)
    requires i < |slots| && slots[i].certificate != [] && slots[i].useCount < m
    ensures Left(slots[i := slots[i].(useCount := slots[i].useCount + 1)], m) == Left(slots, m) - 1
  {
    var t := slots[i := slots[i].(useCount := slots[i].useCount + 1)];
    if i == 0 {
      assert t[1..] == slots[1..];
    } else {
      UseTakesOne(slots[1..], m, i - 1);
      assert t[1..] == slots[1..][i - 1 := slots[i].(useCount := slots[i].useCount + 1)];
    }
  }

  lemma {:induction false} SomeLeft(slots: seq<AuthKey>, m: int, i: nat)
    requires i < |slots| && slots[i].certificate != [] && slots[i].useCount < m
    ensures Left(slots, m) > 0
  {
    if i > 0 {
      SomeLeft(slots[1..], m, i - 1);
    }
  }

  lemma {:induction false} NoneLeft(slots: seq<AuthKey>, m: int)
    requires forall i :: 0 <= i < |slots| && slots[i].certificate != [] ==> slots[i].useCount >= m
    ensures Left(slots, m) == 0
  {
    if slots != [] {
      NoneLeft(slots[1..], m);
    }
  }

  /** A use is possible exactly as long as there are uses left. */
  lemma SucceedsIff(k: Keys, w: Wish)
    requires ValidUntil(k.slots, w.now) && !w.allowExhausted
    ensures Choose(k, w).Some? <==> Left(k.slots, k.maxUses) > 0
    ensures Choose(k, w).Some? ==> Left(Select(k, w).slots, k.maxUses) == Left(k.slots, k.maxUses) - 1
  {
    ChoiceIff(k, w);
    if Choose(k, w).Some? {
      var i := Choose(k, w).value;
      assert Usable(k, i, w, w.allowExpired);
      SomeLeft(k.slots, k.maxUses, i);
      UseTakesOne(k.slots, k.maxUses, i);
    } else {
      forall j | 0 <= j < |k.slots| && k.slots[j].certificate != []
        ensures k.slots[j].useCount >= k.maxUses
      {
        assert !Usable(k, j, w, w.allowExpired);
      }
      NoneLeft(k.slots, k.maxUses);
    }
  }

  lemma SelectKeepsBalance(k: Keys, w: Wish)
    requires Balanced(k.slots) && ValidUntil(k.slots, w.now)
    ensures Balanced(Select(k, w).slots)
  {
    var c := Choose(k, w);
    if c.Some? {
      forall j | 0 <= j < |k.slots| && k.slots[j].certificate != []
        ensures Eligible(k.slots[j], w.now, false) && k.slots[c.value].useCount <= k.slots[j].useCount
      {
      }
    }
  }

  function SelectAll(k: Keys, ws: seq<Wish>): Keys
    decreases |ws|
  {
    if ws == [] then k else SelectAll(Select(k, ws[0]), ws[1..])
  }

  function Successes(k: Keys, ws: seq<Wish>): nat
    decreases |ws|
  {
    if ws == [] then 0 else (if Choose(k, ws[0]).Some? then 1 else 0) + Successes(Select(k, ws[0]), ws[1..])
  }

  ghost predicate StrictAndTimely(k: Keys, ws: seq<Wish>) {
    forall i :: 0 <= i < |ws| ==> !ws[i].allowExhausted && ValidUntil(k.slots, ws[i].now)
  }

  function Min(a: int, b: int): int {
    if a < b then a else b
  }

  /**
   However often a key is asked for, exactly as many requests succeed as there are uses left, whatever the use
   counts are. Counts that are within one of each other stay so.
   */
  lemma {:induction false} EveryUseIsGiven(k: Keys, ws: seq<Wish>)
    requires StrictAndTimely(k, ws)
    ensures Successes(k, ws) == Min(|ws|, Left(k.slots, k.maxUses))
    ensures Balanced(k.slots) ==> Balanced(SelectAll(k, ws).slots)
    decreases |ws|
  {
    if ws != [] {
      assert ValidUntil(k.slots, ws[0].now);
      SucceedsIff(k, ws[0]);
      if Balanced(k.slots) {
        SelectKeepsBalance(k, ws[0]);
      }
      SelectKeepsValidity(k, ws);
      EveryUseIsGiven(Select(k, ws[0]), ws[1..]);
    }
  }

  lemma SelectKeepsValidity(k: Keys, ws: seq<Wish>)
    requires ws != [] && StrictAndTimely(k, ws)
    ensures StrictAndTimely(Select(k, ws[0]), ws[1..])
  {
    forall i | 0 <= i < |ws[1..]|
      ensures !ws[1..][i].allowExhausted && ValidUntil(Select(k, ws[0]).slots, ws[1..][i].now)
    {
      assert ws[1..][i] == ws[i + 1] && ValidUntil(k.slots, ws[i + 1].now);
    }
  }

  lemma {:induction false} FreshLeft(slots: seq<AuthKey>, m: nat)
    requires forall i :: 0 <= i < |slots| && slots[i].certificate != [] ==> slots[i].useCount == 0
    ensures Left(slots, m) == CertifiedCount(slots) * m
  {
    if slots != [] {
      FreshLeft(slots[1..], m);
      var n := CertifiedCount(slots[1..]);
      assert (n + 1) * m == n * m + m;
    }
  }

  /** From n new certified keys with a limit of m uses, the first n * m requests succeed and no more. */
  lemma FreshKeysGiveAllUses(k: Keys, ws: seq<Wish>)
    requires StrictAndTimely(k, ws) && k.maxUses >= 0
    requires forall i :: 0 <= i < |k.slots| && k.slots[i].certificate != [] ==> k.slots[i].useCount == 0
    ensures Successes(k, ws) == Min(|ws|, CertifiedCount(k.slots) * k.maxUses)
    ensures Balanced(SelectAll(k, ws).slots)
  {
    FreshLeft(k.slots, k.maxUses);
    EveryUseIsGiven(k, ws);
  }

  // ---------------------------------------------------------------- certification

  predicate NeedsNewKey(k: AuthKey, maxUses: int, now: int) {
    k.certificate == [] || k.useCount >= maxUses || Expired(k, now)
  }

  /** Moves a pending key into use. */
  function Certified(k: AuthKey, expiration: int, staticData: Bytes): AuthKey {
    AuthKey(k.pendingCertificate, k.pendingKeyBlob, expiration, staticData, [], [], 0)
  }

  /** The slot whose pending key is meant: the first one with an equal certificate. */
  function PendingSlot(slots: seq<AuthKey>, key: Bytes): (r: Option<nat>)
    ensures r.Some? ==> r.value < |slots| && slots[r.value].pendingCertificate == key
    ensures r.Some? ==> forall j :: 0 <= j < r.value ==> slots[j].pendingCertificate != key
    ensures r.None? ==> forall j :: 0 <= j < |slots| ==> slots[j].pendingCertificate != key
    decreases |slots|
  {
    if slots == [] then None
    else if slots[0].pendingCertificate == key then Some(0)
    else
      var rest := PendingSlot(slots[1..], key);
      if rest.None? then
        assert forall j :: 0 < j < |slots| ==> slots[j] == slots[1..][j - 1];
        None
      else
        assert forall j :: 0 < j < rest.value + 1 ==> slots[j] == slots[1..][j - 1];
        Some(rest.value + 1)
  }

  function Store(slots: seq<AuthKey>, key: Bytes, expiration: int, staticData: Bytes): (t: seq<AuthKey>)
    ensures |t| == |slots|
  {
    var i := PendingSlot(slots, key);
    if i.None? then slots else slots[i.value := Certified(slots[i.value], expiration, staticData)]
  }

  /** Storing data for a key puts a certified key in use exactly if the key is not the empty one. */
  lemma StoreCertifiesIff(slots: seq<AuthKey>, key: Bytes, expiration: int, staticData: Bytes)
    requires PendingSlot(slots, key).Some?
    ensures var i := PendingSlot(slots, key).value;
            var t := Store(slots, key, expiration, staticData);
            && (t[i].certificate != [] <==> key != [])
            && t[i] == AuthKey(key, slots[i].pendingKeyBlob, expiration, staticData, [], [], 0)
            && |t| == |slots| && forall j :: 0 <= j < |t| && j != i ==> t[j] == slots[j]
  {
  }

  /** The empty key stands for any slot without a pending key and wipes the key in use there. */
  lemma EmptyKeyWipes()
    ensures var slot := AuthKey([1], [2], 10, [3], [], [], 0);
            Store([slot], [], 20, []) == [EMPTY_SLOT.(expiration := 20)]
  {
  }

  ghost predicate DistinctPending(slots: seq<AuthKey>) {
    forall i, j :: 0 <= i < j < |slots| && slots[i].pendingCertificate != [] ==>
      slots[i].pendingCertificate != slots[j].pendingCertificate
  }

  /** Certifies the pending keys of the slots from `i` on, one after the other. */
  function StoreAll(slots: seq<AuthKey>, i: nat, expiration: int, staticData: Bytes): seq<AuthKey>
    decreases |slots| - i
  {
    if i >= |slots| then slots
    else if slots[i].pendingCertificate == [] then StoreAll(slots, i + 1, expiration, staticData)
    else StoreAll(Store(slots, slots[i].pendingCertificate, expiration, staticData), i + 1, expiration, staticData)
  }

  lemma {:induction false} StoreAllReaches(slots: seq<AuthKey>, i: nat, expiration: int, staticData: Bytes)
    requires DistinctPending(slots) && i <= |slots|
    ensures var t := StoreAll(slots, i, expiration, staticData);
            && |t| == |slots|
            && (forall j :: 0 <= j < i ==> t[j] == slots[j])
            && (forall j :: i <= j < |t| ==>
                  t[j] == if slots[j].pendingCertificate == [] then slots[j]
                          else Certified(slots[j], expiration, staticData))
    decreases |slots| - i
  {
    if i < |slots| {
      if slots[i].pendingCertificate == [] {
        StoreAllReaches(slots, i + 1, expiration, staticData);
      } else {
        assert PendingSlot(slots, slots[i].pendingCertificate) == Some(i);
        StoreAllReaches(Store(slots, slots[i].pendingCertificate, expiration, staticData), i + 1, expiration,
                        staticData);
      }
    }
  }

  /**
   A full renewal: once every slot has a pending key and all of them have been certified, each of the slots
   can be used up to the limit.
   */
  lemma RenewalGivesAllUses(k: Keys, expiration: int, staticData: Bytes, ws: seq<Wish>)
    requires DistinctPending(k.slots) && k.maxUses >= 0
    requires forall i :: 0 <= i < |k.slots| ==> k.slots[i].pendingCertificate != []
    requires forall i :: 0 <= i < |ws| ==> !ws[i].allowExhausted && ws[i].now <= expiration
    ensures var t := k.(slots := StoreAll(k.slots, 0, expiration, staticData));
            Successes(t, ws) == Min(|ws|, |k.slots| * k.maxUses)
  {
    var t := k.(slots := StoreAll(k.slots, 0, expiration, staticData));
    StoreAllReaches(k.slots, 0, expiration, staticData);
    forall i | 0 <= i < |ws|
      ensures !ws[i].allowExhausted && ValidUntil(t.slots, ws[i].now)
    {
    }
    AllCertified(t.slots);
    FreshKeysGiveAllUses(t, ws);
  }

  lemma {:induction false} AllCertified(slots: seq<AuthKey>)
    requires forall i :: 0 <= i < |slots| ==> slots[i].certificate != []
    ensures CertifiedCount(slots) == |slots|
  {
    if slots != [] {
      AllCertified(slots[1..]);
    }
  }

  // ---------------------------------------------------------------- asking for certification

  predicate LacksKey(k: AuthKey, maxUses: int, now: int) {
    NeedsNewKey(k, maxUses, now) && k.pendingCertificate == []
  }

  /** A key is generated exactly for a slot with nothing pending whose key could not be selected without concessions. */
  lemma LacksKeyIff(k: AuthKey, maxUses: int, now: int)
    ensures LacksKey(k, maxUses, now) <==>
              k.pendingCertificate == [] && Choose(Keys([k], 1, maxUses), Wish(false, false, now)).None?
    ensures LacksKey(k, maxUses, now) <==>
              k.pendingCertificate == [] && (k.certificate == [] || k.useCount >= maxUses || k.expiration < now)
  {
    assert [k][0] == k;
    if Candidate([k], now, false).None? {
      assert !Eligible([k][0], now, false);
    }
  }

  /** A slot that lacks a key gets a pending one; the key in use is not touched. */
  function Offered(k: AuthKey, g: Option<(Bytes, Bytes)>, maxUses: int, now: int): AuthKey {
    if LacksKey(k, maxUses, now) && g.Some?
    then k.(pendingCertificate := g.value.0, pendingKeyBlob := g.value.1)
    else k
  }

  function AllOffered(slots: seq<AuthKey>, gs: seq<Option<(Bytes, Bytes)>>, maxUses: int, now: int): (t: seq<AuthKey>)
    requires |gs| == |slots|
    ensures |t| == |slots|
  {
    seq(|slots|, i requires 0 <= i < |slots| => Offered(slots[i], gs[i], maxUses, now))
  }

  /** The certificates to be signed, in the order of the slots. */
  function Wanted(slots: seq<AuthKey>, gs: seq<Option<(Bytes, Bytes)>>, maxUses: int, now: int): seq<Bytes>
    requires |gs| == |slots|
  {
    if slots == [] then []
    else
      var n := |slots| - 1;
      Wanted(slots[..n], gs[..n], maxUses, now)
      + if LacksKey(slots[n], maxUses, now) || slots[n].pendingCertificate != []
        then [Offered(slots[n], gs[n], maxUses, now).pendingCertificate] else []
  }

  /** The slots before `i` have been gone through, the others not. */
  ghost predicate OfferedUpTo(before: seq<AuthKey>, after: seq<AuthKey>, gs: seq<Option<(Bytes, Bytes)>>, i: nat,
                              maxUses: int, now: int) {
    && |after| == |before| == |gs| && i <= |before|
    && (forall j :: 0 <= j < i ==> after[j] == Offered(before[j], gs[j], maxUses, now))
    && (forall j :: i <= j < |before| ==> after[j] == before[j])
  }

  lemma WantedNext(slots: seq<AuthKey>, gs: seq<Option<(Bytes, Bytes)>>, i: nat, maxUses: int, now: int)
    requires |gs| == |slots| && i < |slots|
    ensures Wanted(slots[..i + 1], gs[..i + 1], maxUses, now)
            == Wanted(slots[..i], gs[..i], maxUses, now)
               + if LacksKey(slots[i], maxUses, now) || slots[i].pendingCertificate != []
                 then [Offered(slots[i], gs[i], maxUses, now).pendingCertificate] else []
  {
    assert slots[..i + 1][..i] == slots[..i] && gs[..i + 1][..i] == gs[..i];
  }

  ghost predicate ProperKeys(gs: seq<Option<(Bytes, Bytes)>>) {
    forall i :: 0 <= i < |gs| ==> gs[i].Some? && gs[i].value.0 != []
  }

  /** A slot whose key in use expired between two requests and that had no pending key. */
  predicate ExpiredSince(k: AuthKey, maxUses: int, first: int, later: int) {
    !NeedsNewKey(k, maxUses, first) && k.pendingCertificate == [] && Expired(k, later)
  }

  predicate Listed(k: AuthKey, maxUses: int, now: int) {
    LacksKey(k, maxUses, now) || k.pendingCertificate != []
  }

  /** The certificates of a first request, with those of slots that expired since in their places. */
  function WantedLater(slots: seq<AuthKey>, gs: seq<Option<(Bytes, Bytes)>>, hs: seq<Option<(Bytes, Bytes)>>,
                       maxUses: int, first: int, later: int): seq<Bytes>
    requires |gs| == |slots| == |hs|
  {
    if slots == [] then []
    else
      var n := |slots| - 1;
      WantedLater(slots[..n], gs[..n], hs[..n], maxUses, first, later)
      + if Listed(slots[n], maxUses, first) then [Offered(slots[n], gs[n], maxUses, first).pendingCertificate]
        else if ExpiredSince(slots[n], maxUses, first, later)
        then [Offered(slots[n], hs[n], maxUses, later).pendingCertificate]
        else []
  }

  lemma AskedSlot(k: AuthKey, g: Option<(Bytes, Bytes)>, h: Option<(Bytes, Bytes)>, maxUses: int, first: int,
                  later: int)
    requires first <= later && g.Some? && g.value.0 != []
    ensures var t := Offered(k, g, maxUses, first);
            && (Listed(t, maxUses, later) <==> Listed(k, maxUses, first) || ExpiredSince(k, maxUses, first, later))
            && (Listed(k, maxUses, first) ==> Offered(t, h, maxUses, later) == t)
            && (!Listed(k, maxUses, first) ==> t == k)
  {
  }

  /**
   Asking again later, before anything was signed, lists the same certificates and generates nothing for them;
   only slots whose key expired in between are added.
   */
  lemma {:induction false} AskingAgain(slots: seq<AuthKey>, gs: seq<Option<(Bytes, Bytes)>>,
                                       hs: seq<Option<(Bytes, Bytes)>>,
                                       maxUses: int, first: int, later: int)
    requires |gs| == |slots| == |hs| && ProperKeys(gs) && first <= later
    ensures var t := AllOffered(slots, gs, maxUses, first);
            && Wanted(t, hs, maxUses, later) == WantedLater(slots, gs, hs, maxUses, first, later)
            && (forall i :: 0 <= i < |slots| && !ExpiredSince(slots[i], maxUses, first, later) ==>
                  AllOffered(t, hs, maxUses, later)[i] == t[i])
            && ((forall i :: 0 <= i < |slots| ==> !ExpiredSince(slots[i], maxUses, first, later)) ==>
                  Wanted(t, hs, maxUses, later) == Wanted(slots, gs, maxUses, first))
    decreases |slots|
  {
    var t := AllOffered(slots, gs, maxUses, first);
    forall i | 0 <= i < |slots|
      ensures !ExpiredSince(slots[i], maxUses, first, later) ==> AllOffered(t, hs, maxUses, later)[i] == t[i]
    {
      AskedSlot(slots[i], gs[i], hs[i], maxUses, first, later);
    }
    if slots != [] {
      var n := |slots| - 1;
      AskingAgain(slots[..n], gs[..n], hs[..n], maxUses, first, later);
      assert t[..n] == AllOffered(slots[..n], gs[..n], maxUses, first);
      AskedSlot(slots[n], gs[n], hs[n], maxUses, first, later);
    }
  }

  // ---------------------------------------------------------------- the object

  class CredentialSlots {
    var slots: seq<AuthKey>
    var keyCount: int
    var maxUses: int

    function View(): Keys
      reads this
    {
      Keys(slots, keyCount, maxUses)
    }

    ghost predicate Valid()
      reads this
    {
      keyCount == |slots|
    }

    constructor ()
      ensures Valid() && View() == Keys([], 0, 1)
    {
      slots, keyCount, maxUses := [], 0, 1;
    }

    /** Grows with empty slots or drops slots from the end; the container throws at a negative size. */
    method SetAvailableAuthenticationKeys(count: int, uses: int) returns (threw: bool)
      modifies this
      ensures keyCount == count && maxUses == uses
      ensures threw <==> count < 0
      ensures threw ==> slots == old(slots)
      ensures !threw ==> Valid() && forall i :: 0 <= i < count ==>
                           slots[i] == if i < |old(slots)| then old(slots)[i] else EMPTY_SLOT
    {
      keyCount := count;
      maxUses := uses;
      threw := count < 0;
      if !threw {
        if count <= |slots| {
          slots := slots[..count];
        } else {
          slots := slots + seq(count - |slots|, _ => EMPTY_SLOT);
        }
      }
    }

    method FindAuthKey(w: Wish, allowExpired: bool) returns (r: Option<nat>)
      ensures r == FindKey(View(), w, allowExpired)
    {
      r := None;
      var i := 0;
      while i < |slots|
        invariant 0 <= i <= |slots|
        invariant r == Candidate(slots[..i], w.now, allowExpired)
      {
        var data := slots[i];
        assert slots[..i + 1][..i] == slots[..i];
        if !(w.now > data.expiration && !allowExpired) {
          if |data.certificate| != 0 {
            if r.None? || data.useCount < slots[r.value].useCount {
              r := Some(i);
            }
          }
        }
        i := i + 1;
      }
      assert slots[..i] == slots;
      if r.None? {
        return None;
      }
      if slots[r.value].useCount >= maxUses && !w.allowExhausted {
        return None;
      }
    }

    method SelectAuthKey(w: Wish) returns (r: Option<AuthKey>)
      modifies this`slots
      ensures View() == Select(old(View()), w) && |slots| == |old(slots)|
      ensures r.Some? <==> Choose(old(View()), w).Some?
      ensures r.Some? ==> r.value == slots[Choose(old(View()), w).value]
    {
      var c := FindAuthKey(w, false);
      if c.None? {
        if !w.allowExpired {
          return None;
        }
        c := FindAuthKey(w, true);
        if c.None? {
          return None;
        }
      }
      slots := slots[c.value := slots[c.value].(useCount := slots[c.value].useCount + 1)];
      r := Some(slots[c.value]);
    }

    /**
     Has keys generated where new ones are needed. The generator's answers come in as a sequence, one per
     slot; if one of them is a failure the work done before it stays.
     */
    method GetAuthKeysNeedingCertification(now: int, generated: seq<Option<(Bytes, Bytes)>>)
      returns (r: Option<seq<Bytes>>)
      requires |generated| == |slots|
      modifies this`slots
      ensures |slots| == |old(slots)|
      ensures r.Some? ==> slots == AllOffered(old(slots), generated, maxUses, now)
                          && r.value == Wanted(old(slots), generated, maxUses, now)
      ensures r.None? ==> exists i :: 0 <= i < |slots| && generated[i].None? && LacksKey(old(slots)[i], maxUses, now)
                                      && OfferedUpTo(old(slots), slots, generated, i, maxUses, now)
      ensures r.Some? ==> forall i :: 0 <= i < |slots| && generated[i].None? ==> !LacksKey(old(slots)[i], maxUses, now)
    {
      var result: seq<Bytes> := [];
      var i := 0;
      while i < |slots|
        invariant 0 <= i <= |slots|
        invariant OfferedUpTo(old(slots), slots, generated, i, maxUses, now)
        invariant result == Wanted(old(slots)[..i], generated[..i], maxUses, now)
        invariant forall j :: 0 <= j < i && generated[j].None? ==> !LacksKey(old(slots)[j], maxUses, now)
      {
        WantedNext(old(slots), generated, i, maxUses, now);
        var pending := slots[i].pendingCertificate != [];
        if NeedsNewKey(slots[i], maxUses, now) && !pending {
          if generated[i].None? {
            return None;
          }
          slots := slots[i := slots[i].(pendingCertificate := generated[i].value.0,
                                        pendingKeyBlob := generated[i].value.1)];
          pending := true;
        }
        if pending {
          result := result + [slots[i].pendingCertificate];
        }
        i := i + 1;
      }
      assert old(slots)[..i] == old(slots) && generated[..i] == generated;
      r := Some(result);
    }

    method StoreStaticAuthenticationData(key: Bytes, expiration: int, staticData: Bytes) returns (found: bool)
      modifies this`slots
      ensures |slots| == |old(slots)| && slots == Store(old(slots), key, expiration, staticData)
      ensures found <==> exists i :: 0 <= i < |old(slots)| && old(slots)[i].pendingCertificate == key
    {
      var i := 0;
      while i < |slots|
        invariant 0 <= i <= |slots|
        invariant slots == old(slots)
        invariant forall j :: 0 <= j < i ==> slots[j].pendingCertificate != key
      {
        if slots[i].pendingCertificate == key {
          slots := slots[i := Certified(slots[i], expiration, staticData)];
          return true;
        }
        i := i + 1;
      }
      found := false;
    }
  }
}
