/**
 The file of an identity credential, as the items of section 2 of RFC 8949 that are written and read.
 How items become bytes is left to the encoder.
 */
module CredentialFile {
  import opened KeystoreTypes
  import opened CredentialKeys

  datatype Item =
    | IntItem(i: int)
    | Bstr(b: Bytes)
    | Tstr(s: string)
    | BoolItem(v: bool)
    | Array(items: seq<Item>)
    | Map(pairs: seq<(Item, Item)>)

  datatype Profile = Profile(
    id: int,
    readerCertificate: Bytes,
    userAuthenticationRequired: bool,
    timeoutMillis: int,
    secureUserId: int,
    mac: Bytes)

  datatype Entry = Entry(size: int, profileIds: seq<int>, chunks: seq<Bytes>)

  datatype Credential = Credential(
    secureUserId: int,
    credentialData: Bytes,
    attestationCertificate: Bytes,
    profiles: seq<Profile>,
    entries: map<string, Entry>,
    keyCount: int,
    maxUses: int,
    authKeys: seq<AuthKey>)

  const TWO_31 := 0x8000_0000
  const TWO_32 := 0x1_0000_0000
  const TWO_63 := 0x8000_0000_0000_0000
  const TWO_64 := 0x1_0000_0000_0000_0000
  const INT64_MAX := TWO_63 - 1

  /** Conversions between integer widths keep the low bits. */
  function ToI32(x: int): int {
    var m := x % TWO_32;
    if m < TWO_31 then m else m - TWO_32
  }

  function ToI64(x: int): int {
    var m := x % TWO_64;
    if m < TWO_63 then m else m - TWO_64
  }

  function ToU64(x: int): int {
    x % TWO_64
  }

  predicate IsI32(x: int) {
    -TWO_31 <= x < TWO_31
  }

  predicate IsI64(x: int) {
    -TWO_63 <= x < TWO_63
  }

  // ---------------------------------------------------------------- field names

  datatype Field =
    | SecureUserIdField
    | CredentialDataField
    | AttestationCertificateField
    | ProfilesField
    | EntriesField
    | KeyCountField
    | MaxUsesField
    | AuthKeysField

  function NameOf(f: Field): string {
    match f
    case SecureUserIdField => "secureUserId"
    case CredentialDataField => "credentialData"
    case AttestationCertificateField => "attestationCertificate"
    case ProfilesField => "secureAccessControlProfiles"
    case EntriesField => "entryData"
    case KeyCountField => "authKeyCount"
    case MaxUsesField => "maxUsesPerAuthKey"
    case AuthKeysField => "authKeyData"
  }

  function FieldOf(name: string): Option<Field> {
    if name == "secureUserId" then Some(SecureUserIdField)
    else if name == "credentialData" then Some(CredentialDataField)
    else if name == "attestationCertificate" then Some(AttestationCertificateField)
    else if name == "secureAccessControlProfiles" then Some(ProfilesField)
    else if name == "entryData" then Some(EntriesField)
    else if name == "authKeyData" then Some(AuthKeysField)
    else if name == "authKeyCount" then Some(KeyCountField)
    else if name == "maxUsesPerAuthKey" then Some(MaxUsesField)
    else None
  }

  lemma FieldOfName(f: Field)
    ensures FieldOf(NameOf(f)) == Some(f)
  {
    assert |"secureUserId"| == 12 && |"credentialData"| == 14 && |"attestationCertificate"| == 22;
    assert |"secureAccessControlProfiles"| == 27 && |"entryData"| == 9 && |"authKeyData"| == 11;
    assert |"authKeyCount"| == 12 && |"maxUsesPerAuthKey"| == 17;
    assert "secureUserId"[0] != "authKeyCount"[0];
  }

  // ---------------------------------------------------------------- writing

  function SaveProfile(p: Profile): Item {
    Array([IntItem(p.id), Bstr(p.readerCertificate), BoolItem(p.userAuthenticationRequired),
           IntItem(p.timeoutMillis), IntItem(p.secureUserId), Bstr(p.mac)])
  }

  function SaveProfiles(ps: seq<Profile>): seq<Item> {
    seq(|ps|, i requires 0 <= i < |ps| => SaveProfile(ps[i]))
  }

  function SaveInts(xs: seq<int>): seq<Item> {
    seq(|xs|, i requires 0 <= i < |xs| => IntItem(xs[i]))
  }

  function SaveChunks(bs: seq<Bytes>): seq<Item> {
    seq(|bs|, i requires 0 <= i < |bs| => Bstr(bs[i]))
  }

  function SaveEntry(e: Entry): Item {
    Array([IntItem(e.size), Array(SaveInts(e.profileIds)), Array(SaveChunks(e.chunks))])
  }

  function SaveEntries(entries: map<string, Entry>, order: seq<string>): seq<(Item, Item)>
    requires forall i :: 0 <= i < |order| ==> order[i] in entries
  {
    seq(|order|, i requires 0 <= i < |order| => (Tstr(order[i]), SaveEntry(entries[order[i]])))
  }

  /** The first six fields are those of Android 11; the seventh came with Android 12. */
  function SaveAuthKey(k: AuthKey, withExpiration: bool): Item {
    Array([Bstr(k.certificate), Bstr(k.keyBlob), Bstr(k.staticData), Bstr(k.pendingCertificate),
           Bstr(k.pendingKeyBlob), IntItem(k.useCount)]
          + if withExpiration then [IntItem(k.expiration)] else [])
  }

  function SaveAuthKeys(ks: seq<AuthKey>, withExpiration: bool): seq<Item> {
    seq(|ks|, i requires 0 <= i < |ks| => SaveAuthKey(ks[i], withExpiration))
  }

  /** A sequence that names every entry once. */
  ghost predicate Enumerates(order: seq<string>, entries: map<string, Entry>) {
    && (forall i :: 0 <= i < |order| ==> order[i] in entries)
    && (forall s :: s in entries ==> s in order)
    && (forall i, j :: 0 <= i < j < |order| ==> order[i] != order[j])
  }

  /** The item that is written; entries come in the given order. */
  function Save(c: Credential, order: seq<string>, withExpiration: bool): Item
    requires forall i :: 0 <= i < |order| ==> order[i] in c.entries
  {
    var values := Values(c, order, withExpiration);
    Map(seq(8, i requires 0 <= i < 8 => (Tstr(NameOf(FIELDS[i])), values[i])))
  }

  const FIELDS := [SecureUserIdField, CredentialDataField, AttestationCertificateField, ProfilesField,
                   EntriesField, KeyCountField, MaxUsesField, AuthKeysField]

  function Values(c: Credential, order: seq<string>, withExpiration: bool): (r: seq<Item>)
    requires forall i :: 0 <= i < |order| ==> order[i] in c.entries
    ensures |r| == 8
  {
    [IntItem(c.secureUserId), Bstr(c.credentialData), Bstr(c.attestationCertificate), Array(SaveProfiles(c.profiles)),
     Map(SaveEntries(c.entries, order)), IntItem(c.keyCount), IntItem(c.maxUses),
     Array(SaveAuthKeys(c.authKeys, withExpiration))]
  }

  // ---------------------------------------------------------------- reading

  /** Reading either succeeds, is given up, or runs into an item of the wrong type that is not checked for. */
  datatype Parsed<+T> = Good(value: T) | Bad | Crash

  function ParseProfile(item: Item): Parsed<Profile> {
    if !item.Array? || |item.items| < 6 then Bad
    else
      var a := item.items;
      if a[0].IntItem? && a[1].Bstr? && a[2].BoolItem? && a[3].IntItem? && a[4].IntItem? && a[5].Bstr?
      then Good(Profile(ToI32(a[0].i), a[1].b, a[2].v, ToI64(a[3].i), ToI64(a[4].i), a[5].b))
      else Bad
  }

  function ParseAuthKey(item: Item): Parsed<AuthKey> {
    if !item.Array? || |item.items| < 6 then Bad
    else
      var a := item.items;
      if !(a[0].Bstr? && a[1].Bstr? && a[2].Bstr? && a[3].Bstr? && a[4].Bstr? && a[5].IntItem?) then Bad
      else if |a| >= 7 && !a[6].IntItem? then Crash
      else
        var expiration := if |a| >= 7 then ToI64(a[6].i) else INT64_MAX;
        Good(AuthKey(a[0].b, a[1].b, expiration, a[2].b, a[3].b, a[4].b, ToI32(a[5].i)))
  }

  /** A list with anything but numbers in it reads as the empty list. */
  function ParseIds(item: Item): seq<int> {
    if item.Array? && forall i :: 0 <= i < |item.items| ==> item.items[i].IntItem?
    then seq(|item.items|, i requires 0 <= i < |item.items| => ToI32(item.items[i].i))
    else []
  }

  function ParseChunks(item: Item): Parsed<seq<Bytes>> {
    if item.Array? && forall i :: 0 <= i < |item.items| ==> item.items[i].Bstr?
    then Good(seq(|item.items|, i requires 0 <= i < |item.items| => item.items[i].b))
    else Bad
  }

  function ParseEntry(item: Item): Parsed<Entry> {
    if !item.Array? || |item.items| < 3 || !item.items[0].IntItem? then Bad
    else
      var chunks := ParseChunks(item.items[2]);
      if chunks.Good? then Good(Entry(ToU64(item.items[0].i), ParseIds(item.items[1]), chunks.value)) else Bad
  }

  function ParseProfiles(items: seq<Item>, so: seq<Profile>): Parsed<seq<Profile>>
    decreases |items|
  {
    if items == [] then Good(so)
    else
      match ParseProfile(items[0])
      case Good(p) => ParseProfiles(items[1..], so + [p])
      case Bad => Bad
      case Crash => Crash
  }

  function ParseAuthKeys(items: seq<Item>, so: seq<AuthKey>): Parsed<seq<AuthKey>>
    decreases |items|
  {
    if items == [] then Good(so)
    else
      match ParseAuthKey(items[0])
      case Good(k) => ParseAuthKeys(items[1..], so + [k])
      case Bad => Bad
      case Crash => Crash
  }

  function ParseEntries(pairs: seq<(Item, Item)>, so: map<string, Entry>): Parsed<map<string, Entry>>
    decreases |pairs|
  {
    if pairs == [] then Good(so)
    else if !pairs[0].0.Tstr? then Bad
    else
      match ParseEntry(pairs[0].1)
      case Good(e) => ParseEntries(pairs[1..], so[pairs[0].0.s := e])
      case Bad => Bad
      case Crash => Crash
  }

  /** One field of the top-level map. */
  function ParseField(f: Field, v: Item, c: Credential): Parsed<Credential> {
    match f
    case SecureUserIdField => if v.IntItem? then Good(c.(secureUserId := ToI64(v.i))) else Bad
    case CredentialDataField => if v.Bstr? then Good(c.(credentialData := v.b)) else Bad
    case AttestationCertificateField => if v.Bstr? then Good(c.(attestationCertificate := v.b)) else Bad
    case ProfilesField =>
      if !v.Array? then Bad
      else
        var r := ParseProfiles(v.items, c.profiles);
        if r.Good? then Good(c.(profiles := r.value)) else if r.Bad? then Bad else Crash
    case EntriesField =>
      if !v.Map? then Bad
      else
        var r := ParseEntries(v.pairs, c.entries);
        if r.Good? then Good(c.(entries := r.value)) else if r.Bad? then Bad else Crash
    case AuthKeysField =>
      if !v.Array? then Bad
      else
        var r := ParseAuthKeys(v.items, c.authKeys);
        if r.Good? then Good(c.(authKeys := r.value)) else if r.Bad? then Bad else Crash
    case KeyCountField => if v.IntItem? then Good(c.(keyCount := ToI32(v.i))) else Bad
    case MaxUsesField => if v.IntItem? then Good(c.(maxUses := ToI32(v.i))) else Bad
  }

  /** Fields that are not known are skipped. */
  function ParsePair(key: Item, v: Item, c: Credential): Parsed<Credential> {
    if !key.Tstr? then Bad
    else
      var f := FieldOf(key.s);
      if f.None? then Good(c) else ParseField(f.value, v, c)
  }

  function ParsePairs(pairs: seq<(Item, Item)>, c: Credential): Parsed<Credential>
    decreases |pairs|
  {
    if pairs == [] then Good(c)
    else
      match ParsePair(pairs[0].0, pairs[0].1, c)
      case Good(d) => ParsePairs(pairs[1..], d)
      case Bad => Bad
      case Crash => Crash
  }

  /** Everything but the secure user id is reset before reading. */
  function Blank(c: Credential): Credential {
    Credential(c.secureUserId, [], [], [], map[], 0, 1, [])
  }

  predicate Complete(c: Credential) {
    c.credentialData != [] && c.attestationCertificate != [] && ToU64(c.keyCount) == |c.authKeys|
  }

  function Load(before: Credential, item: Item): Parsed<Credential> {
    if !item.Map? then Bad
    else
      var r := ParsePairs(item.pairs, Blank(before));
      if r.Good? && !Complete(r.value) then Bad else r
  }

  // ---------------------------------------------------------------- what is written is read

  ghost predicate InRange(c: Credential) {
    && IsI64(c.secureUserId) && IsI32(c.keyCount) && IsI32(c.maxUses)
    && (forall i :: 0 <= i < |c.profiles| ==>
          IsI32(c.profiles[i].id) && IsI64(c.profiles[i].timeoutMillis) && IsI64(c.profiles[i].secureUserId))
    && (forall s :: s in c.entries ==> EntryInRange(c.entries[s]))
    && (forall i :: 0 <= i < |c.authKeys| ==> IsI32(c.authKeys[i].useCount) && IsI64(c.authKeys[i].expiration))
  }

  ghost predicate EntryInRange(e: Entry) {
    0 <= e.size < TWO_64 && forall i :: 0 <= i < |e.profileIds| ==> IsI32(e.profileIds[i])
  }

  /** What is read back from a key written without its expiration date. */
  function Dated(k: AuthKey, withExpiration: bool): AuthKey {
    if withExpiration then k else k.(expiration := INT64_MAX)
  }

  function AllDated(ks: seq<AuthKey>, withExpiration: bool): seq<AuthKey> {
    seq(|ks|, i requires 0 <= i < |ks| => Dated(ks[i], withExpiration))
  }

  lemma AuthKeyRoundTrip(k: AuthKey, withExpiration: bool)
    requires IsI32(k.useCount) && IsI64(k.expiration)
    ensures ParseAuthKey(SaveAuthKey(k, withExpiration)) == Good(Dated(k, withExpiration))
  {
  }

  lemma EntryRoundTrip(e: Entry)
    requires EntryInRange(e)
    ensures ParseEntry(SaveEntry(e)) == Good(e)
  {
    assert ParseIds(Array(SaveInts(e.profileIds))) == e.profileIds;
    var chunks := ParseChunks(Array(SaveChunks(e.chunks)));
    assert chunks.Good? && chunks.value == e.chunks;
  }

  lemma ProfileRoundTrip(p: Profile)
    requires IsI32(p.id) && IsI64(p.timeoutMillis) && IsI64(p.secureUserId)
    ensures ParseProfile(SaveProfile(p)) == Good(p)
  {
  }

  lemma {:induction false} ProfilesRoundTrip(ps: seq<Profile>, so: seq<Profile>)
    requires forall i :: 0 <= i < |ps| ==> IsI32(ps[i].id) && IsI64(ps[i].timeoutMillis) && IsI64(ps[i].secureUserId)
    ensures ParseProfiles(SaveProfiles(ps), so) == Good(so + ps)
    decreases |ps|
  {
    if ps != [] {
      ProfileRoundTrip(ps[0]);
      assert SaveProfiles(ps)[1..] == SaveProfiles(ps[1..]);
      ProfilesRoundTrip(ps[1..], so + [ps[0]]);
      assert so + ps == so + [ps[0]] + ps[1..];
    } else {
      assert so + ps == so;
    }
  }

  lemma {:induction false} AuthKeysRoundTrip(ks: seq<AuthKey>, withExpiration: bool, so: seq<AuthKey>)
    requires forall i :: 0 <= i < |ks| ==> IsI32(ks[i].useCount) && IsI64(ks[i].expiration)
    ensures ParseAuthKeys(SaveAuthKeys(ks, withExpiration), so) == Good(so + AllDated(ks, withExpiration))
    decreases |ks|
  {
    if ks != [] {
      AuthKeyRoundTrip(ks[0], withExpiration);
      assert SaveAuthKeys(ks, withExpiration)[1..] == SaveAuthKeys(ks[1..], withExpiration);
      AuthKeysRoundTrip(ks[1..], withExpiration, so + [Dated(ks[0], withExpiration)]);
      assert so + AllDated(ks, withExpiration)
          == so + [Dated(ks[0], withExpiration)] + AllDated(ks[1..], withExpiration);
    } else {
      assert so + AllDated(ks, withExpiration) == so;
    }
  }

  /** The entries named by a sequence. */
  function Restrict(entries: map<string, Entry>, order: seq<string>): map<string, Entry> {
    map s | s in order && s in entries :: entries[s]
  }

  lemma RestrictNext(entries: map<string, Entry>, order: seq<string>, so: map<string, Entry>)
    requires order != [] && order[0] in entries
    ensures so + Restrict(entries, order) == so[order[0] := entries[order[0]]] + Restrict(entries, order[1..])
  {
    assert order == [order[0]] + order[1..];
  }

  lemma {:induction false} EntriesRoundTrip(entries: map<string, Entry>, order: seq<string>, so: map<string, Entry>)
    requires forall i :: 0 <= i < |order| ==> order[i] in entries
    requires forall s :: s in entries ==> EntryInRange(entries[s])
    ensures ParseEntries(SaveEntries(entries, order), so) == Good(so + Restrict(entries, order))
    decreases |order|
  {
    if order != [] {
      EntryRoundTrip(entries[order[0]]);
      assert SaveEntries(entries, order)[1..] == SaveEntries(entries, order[1..]);
      EntriesRoundTrip(entries, order[1..], so[order[0] := entries[order[0]]]);
      RestrictNext(entries, order, so);
    } else {
      assert so + Restrict(entries, order) == so;
    }
  }

  /** Fields that parse in turn, each from what the ones before have made, parse as a map. */
  lemma {:induction false} FieldsInTurn(p: seq<(Item, Item)>, fs: seq<Field>, cs: seq<Credential>)
    requires |fs| == |p| && |cs| == |p| + 1
    requires forall i :: 0 <= i < |p| ==>
               p[i].0 == Tstr(NameOf(fs[i])) && ParseField(fs[i], p[i].1, cs[i]) == Good(cs[i + 1])
    ensures ParsePairs(p, cs[0]) == Good(cs[|p|])
    decreases |p|
  {
    if p != [] {
      FieldOfName(fs[0]);
      FieldsInTurn(p[1..], fs[1..], cs[1..]);
    }
  }

  lemma ProfilesParse(c: Credential, d: Credential)
    requires InRange(c) && d.profiles == []
    ensures ParseField(ProfilesField, Array(SaveProfiles(c.profiles)), d) == Good(d.(profiles := c.profiles))
  {
    ProfilesRoundTrip(c.profiles, []);
    assert [] + c.profiles == c.profiles;
  }

  lemma EntriesParse(c: Credential, order: seq<string>, d: Credential)
    requires InRange(c) && Enumerates(order, c.entries) && d.entries == map[]
    ensures ParseField(EntriesField, Map(SaveEntries(c.entries, order)), d) == Good(d.(entries := c.entries))
  {
    EntriesRoundTrip(c.entries, order, map[]);
    assert map[] + Restrict(c.entries, order) == c.entries;
  }

  lemma AuthKeysParse(c: Credential, withExpiration: bool, d: Credential)
    requires InRange(c) && d.authKeys == []
    ensures ParseField(AuthKeysField, Array(SaveAuthKeys(c.authKeys, withExpiration)), d)
            == Good(d.(authKeys := AllDated(c.authKeys, withExpiration)))
  {
    AuthKeysRoundTrip(c.authKeys, withExpiration, []);
    assert [] + AllDated(c.authKeys, withExpiration) == AllDated(c.authKeys, withExpiration);
  }

  /** What has been read after each of the eight fields. */
  function Progress(c0: Credential, c: Credential): seq<Credential> {
    var c1 := c0.(secureUserId := c.secureUserId);
    var c2 := c1.(credentialData := c.credentialData);
    var c3 := c2.(attestationCertificate := c.attestationCertificate);
    var c4 := c3.(profiles := c.profiles);
    var c5 := c4.(entries := c.entries);
    var c6 := c5.(keyCount := c.keyCount);
    var c7 := c6.(maxUses := c.maxUses);
    [c0, c1, c2, c3, c4, c5, c6, c7, c7.(authKeys := c.authKeys)]
  }

  /** Each value parses to the step it stands for. */
  lemma FieldRoundTrip(c: Credential, order: seq<string>, withExpiration: bool, c0: Credential, i: nat)
    requires InRange(c) && Enumerates(order, c.entries) && i < 8
    requires c0.profiles == [] && c0.entries == map[] && c0.authKeys == []
    ensures var cs := Progress(c0, c.(authKeys := AllDated(c.authKeys, withExpiration)));
            ParseField(FIELDS[i], Values(c, order, withExpiration)[i], cs[i]) == Good(cs[i + 1])
  {
    var cs := Progress(c0, c.(authKeys := AllDated(c.authKeys, withExpiration)));
    if i == 3 {
      ProfilesParse(c, cs[3]);
    } else if i == 4 {
      EntriesParse(c, order, cs[4]);
    } else if i == 7 {
      AuthKeysParse(c, withExpiration, cs[7]);
    }
  }

  lemma PairsRoundTrip(c: Credential, order: seq<string>, withExpiration: bool, before: Credential)
    requires InRange(c) && Enumerates(order, c.entries)
    ensures ParsePairs(Save(c, order, withExpiration).pairs, Blank(before))
            == Good(c.(authKeys := AllDated(c.authKeys, withExpiration)))
  {
    var p := Save(c, order, withExpiration).pairs;
    var cs := Progress(Blank(before), c.(authKeys := AllDated(c.authKeys, withExpiration)));
    forall i: nat | i < 8
      ensures p[i].0 == Tstr(NameOf(FIELDS[i])) && ParseField(FIELDS[i], p[i].1, cs[i]) == Good(cs[i + 1])
    {
      FieldRoundTrip(c, order, withExpiration, Blank(before), i);
    }
    FieldsInTurn(p, FIELDS, cs);
  }

  /**
   A credential that has been written is read back the same, whatever was in memory before and in
   whatever order its entries were written, exactly if it has data, a certificate and as many keys as it
   says it has; otherwise it is refused.
   */
  lemma RoundTripIff(c: Credential, order: seq<string>, before: Credential)
    requires InRange(c) && Enumerates(order, c.entries) && |c.authKeys| < TWO_31
    ensures Load(before, Save(c, order, true)) ==
              if c.credentialData != [] && c.attestationCertificate != [] && c.keyCount == |c.authKeys|
              then Good(c) else Bad
  {
    PairsRoundTrip(c, order, true, before);
    assert AllDated(c.authKeys, true) == c.authKeys;
  }

  /** A file of the older format reads the same but for the expiration dates, which are as late as can be. */
  lemma OldFormatLoads(c: Credential, order: seq<string>, before: Credential)
    requires InRange(c) && Enumerates(order, c.entries) && Complete(c)
    ensures Load(before, Save(c, order, false)) == Good(c.(authKeys := AllDated(c.authKeys, false)))
  {
    PairsRoundTrip(c, order, false, before);
  }

  // ---------------------------------------------------------------- which files load, and which crash the reader

  predicate SixFields(item: Item) {
    && item.Array? && |item.items| >= 6
    && item.items[0].Bstr? && item.items[1].Bstr? && item.items[2].Bstr? && item.items[3].Bstr? && item.items[4].Bstr?
    && item.items[5].IntItem?
  }

  /** A key whose first six fields are as they should be and whose seventh is there but is not a number. */
  predicate Trap(item: Item) {
    SixFields(item) && |item.items| >= 7 && !item.items[6].IntItem?
  }

  predicate KeyReadable(item: Item) {
    SixFields(item) && (|item.items| >= 7 ==> item.items[6].IntItem?)
  }

  predicate ProfileReadable(item: Item) {
    && item.Array? && |item.items| >= 6
    && item.items[0].IntItem? && item.items[1].Bstr? && item.items[2].BoolItem? && item.items[3].IntItem?
    && item.items[4].IntItem? && item.items[5].Bstr?
  }

  predicate EntryReadable(key: Item, item: Item) {
    && key.Tstr? && item.Array? && |item.items| >= 3 && item.items[0].IntItem?
    && item.items[2].Array? && forall i :: 0 <= i < |item.items[2].items| ==> item.items[2].items[i].Bstr?
  }

  /** The value of a field has the type that is looked for. */
  predicate ValueReadable(f: Field, v: Item) {
    match f
    case SecureUserIdField => v.IntItem?
    case CredentialDataField => v.Bstr?
    case AttestationCertificateField => v.Bstr?
    case ProfilesField => v.Array? && forall i :: 0 <= i < |v.items| ==> ProfileReadable(v.items[i])
    case EntriesField => v.Map? && forall i :: 0 <= i < |v.pairs| ==> EntryReadable(v.pairs[i].0, v.pairs[i].1)
    case KeyCountField => v.IntItem?
    case MaxUsesField => v.IntItem?
    case AuthKeysField => v.Array? && forall i :: 0 <= i < |v.items| ==> KeyReadable(v.items[i])
  }

  predicate PairReadable(pair: (Item, Item)) {
    pair.0.Tstr? && (FieldOf(pair.0.s).Some? ==> ValueReadable(FieldOf(pair.0.s).value, pair.1))
  }

  /** The first key of the list that cannot be read is a trap. */
  predicate KeysTrapped(items: seq<Item>) {
    exists i :: 0 <= i < |items| && Trap(items[i]) && forall j :: 0 <= j < i ==> KeyReadable(items[j])
  }

  predicate PairTrapped(pair: (Item, Item)) {
    pair.0.Tstr? && FieldOf(pair.0.s) == Some(AuthKeysField) && pair.1.Array? && KeysTrapped(pair.1.items)
  }

  lemma KeyOutcome(item: Item)
    ensures ParseAuthKey(item).Good? <==> KeyReadable(item)
    ensures ParseAuthKey(item).Crash? <==> Trap(item)
  {
  }

  /** Reading keys crashes exactly at a trap that only readable keys come before. */
  lemma {:induction false} KeysOutcome(items: seq<Item>, so: seq<AuthKey>)
    ensures ParseAuthKeys(items, so).Good? <==> forall i :: 0 <= i < |items| ==> KeyReadable(items[i])
    ensures ParseAuthKeys(items, so).Crash? <==> KeysTrapped(items)
    decreases |items|
  {
    if items != [] {
      KeyOutcome(items[0]);
      if KeyReadable(items[0]) {
        KeysOutcome(items[1..], so + [ParseAuthKey(items[0]).value]);
        TrapMovesUp(items);
      }
    }
  }

  lemma TrapMovesUp(items: seq<Item>)
    requires items != [] && KeyReadable(items[0])
    ensures KeysTrapped(items) <==> KeysTrapped(items[1..])
    ensures (forall i :: 0 <= i < |items| ==> KeyReadable(items[i])) <==>
            (forall i :: 0 <= i < |items[1..]| ==> KeyReadable(items[1..][i]))
  {
    assert forall i :: 0 < i < |items| ==> items[i] == items[1..][i - 1];
    if i :| 0 <= i < |items| && Trap(items[i]) && forall j :: 0 <= j < i ==> KeyReadable(items[j]) {
      assert Trap(items[1..][i - 1]);
    }
    if i :| 0 <= i < |items[1..]| && Trap(items[1..][i]) && forall j :: 0 <= j < i ==> KeyReadable(items[1..][j]) {
      assert Trap(items[i + 1]);
    }
  }

  lemma {:induction false} ProfilesOutcome(items: seq<Item>, so: seq<Profile>)
    ensures !ParseProfiles(items, so).Crash?
    ensures ParseProfiles(items, so).Good? <==> forall i :: 0 <= i < |items| ==> ProfileReadable(items[i])
    decreases |items|
  {
    if items != [] && ProfileReadable(items[0]) {
      ProfilesOutcome(items[1..], so + [ParseProfile(items[0]).value]);
      assert forall i :: 0 < i < |items| ==> items[i] == items[1..][i - 1];
    }
  }

  lemma {:induction false} EntriesOutcome(pairs: seq<(Item, Item)>, so: map<string, Entry>)
    ensures !ParseEntries(pairs, so).Crash?
    ensures ParseEntries(pairs, so).Good? <==> forall i :: 0 <= i < |pairs| ==> EntryReadable(pairs[i].0, pairs[i].1)
    decreases |pairs|
  {
    if pairs != [] && EntryReadable(pairs[0].0, pairs[0].1) {
      EntriesOutcome(pairs[1..], so[pairs[0].0.s := ParseEntry(pairs[0].1).value]);
      assert forall i :: 0 < i < |pairs| ==> pairs[i] == pairs[1..][i - 1];
    }
  }

  lemma PairOutcome(pair: (Item, Item), c: Credential)
    ensures ParsePair(pair.0, pair.1, c).Good? <==> PairReadable(pair)
    ensures ParsePair(pair.0, pair.1, c).Crash? <==> PairTrapped(pair)
  {
    if pair.0.Tstr? && FieldOf(pair.0.s).Some? {
      FieldOutcome(FieldOf(pair.0.s).value, pair.1, c);
    }
  }

  lemma FieldOutcome(f: Field, v: Item, c: Credential)
    ensures ParseField(f, v, c).Good? <==> ValueReadable(f, v)
    ensures ParseField(f, v, c).Crash? <==> f == AuthKeysField && v.Array? && KeysTrapped(v.items)
  {
    if f == ProfilesField && v.Array? {
      ProfilesOutcome(v.items, c.profiles);
    } else if f == EntriesField && v.Map? {
      EntriesOutcome(v.pairs, c.entries);
    } else if f == AuthKeysField && v.Array? {
      KeysOutcome(v.items, c.authKeys);
    }
  }

  /** The first field that cannot be read has a trap among its keys. */
  predicate FileTrapped(pairs: seq<(Item, Item)>) {
    exists n :: 0 <= n < |pairs| && PairTrapped(pairs[n]) && forall m :: 0 <= m < n ==> PairReadable(pairs[m])
  }

  lemma {:induction false} PairsOutcome(pairs: seq<(Item, Item)>, c: Credential)
    ensures ParsePairs(pairs, c).Good? <==> forall n :: 0 <= n < |pairs| ==> PairReadable(pairs[n])
    ensures ParsePairs(pairs, c).Crash? <==> FileTrapped(pairs)
    decreases |pairs|
  {
    if pairs != [] {
      PairOutcome(pairs[0], c);
      if PairReadable(pairs[0]) {
        PairsOutcome(pairs[1..], ParsePair(pairs[0].0, pairs[0].1, c).value);
        FileTrapMovesUp(pairs);
      }
    }
  }

  lemma FileTrapMovesUp(pairs: seq<(Item, Item)>)
    requires pairs != [] && PairReadable(pairs[0]) && !PairTrapped(pairs[0])
    ensures FileTrapped(pairs) <==> FileTrapped(pairs[1..])
    ensures (forall n :: 0 <= n < |pairs| ==> PairReadable(pairs[n])) <==>
            (forall n :: 0 <= n < |pairs[1..]| ==> PairReadable(pairs[1..][n]))
  {
    assert forall n :: 0 < n < |pairs| ==> pairs[n] == pairs[1..][n - 1];
    if n :| 0 <= n < |pairs| && PairTrapped(pairs[n]) && forall m :: 0 <= m < n ==> PairReadable(pairs[m]) {
      assert PairTrapped(pairs[1..][n - 1]);
    }
    if n :| 0 <= n < |pairs[1..]| && PairTrapped(pairs[1..][n])
            && forall m :: 0 <= m < n ==> PairReadable(pairs[1..][m]) {
      assert PairTrapped(pairs[n + 1]);
    }
  }

  /**
   Loading crashes exactly for a map whose first unreadable field is the list of keys, and there the first
   unreadable key is one with six good fields and a seventh that is not a number.
   */
  lemma LoadCrashesIff(before: Credential, item: Item)
    ensures Load(before, item).Crash? <==> item.Map? && FileTrapped(item.pairs)
    ensures Load(before, item).Good? ==> item.Map? && forall n :: 0 <= n < |item.pairs| ==> PairReadable(item.pairs[n])
  {
    if item.Map? {
      PairsOutcome(item.pairs, Blank(before));
    }
  }

  /** A file with a single key whose expiration date is a byte string. */
  lemma CrashExample(before: Credential)
    ensures var key := Array([Bstr([]), Bstr([]), Bstr([]), Bstr([]), Bstr([]), IntItem(0), Bstr([])]);
            Load(before, Map([(Tstr("authKeyData"), Array([key]))])).Crash?
  {
    var key := Array([Bstr([]), Bstr([]), Bstr([]), Bstr([]), Bstr([]), IntItem(0), Bstr([])]);
    var pair := (Tstr("authKeyData"), Array([key]));
    FieldOfName(AuthKeysField);
    assert Trap([key][0]);
    assert PairTrapped([pair][0]);
    LoadCrashesIff(before, Map([pair]));
  }

  // ---------------------------------------------------------------- as the program reads it

  method ReadAuthKeys(items: seq<Item>, so: seq<AuthKey>) returns (r: Parsed<seq<AuthKey>>)
    ensures r == ParseAuthKeys(items, so)
  {
    var keys := so;
    var i := 0;
    while i < |items|
      invariant 0 <= i <= |items|
      invariant ParseAuthKeys(items, so) == ParseAuthKeys(items[i..], keys)
    {
      match ParseAuthKey(items[i])
      case Good(k) =>
        keys := keys + [k];
        i := i + 1;
      case Bad => return Bad;
      case Crash => return Crash;
    }
    r := Good(keys);
  }

  method ReadEntries(pairs: seq<(Item, Item)>, so: map<string, Entry>) returns (r: Parsed<map<string, Entry>>)
    ensures r == ParseEntries(pairs, so)
  {
    var entries := so;
    var i := 0;
    while i < |pairs|
      invariant 0 <= i <= |pairs|
      invariant ParseEntries(pairs, so) == ParseEntries(pairs[i..], entries)
    {
      if !pairs[i].0.Tstr? {
        return Bad;
      }
      match ParseEntry(pairs[i].1)
      case Good(e) =>
        entries := entries[pairs[i].0.s := e];
        i := i + 1;
      case Bad => return Bad;
      case Crash => return Crash;
    }
    r := Good(entries);
  }

  method LoadFromDisk(before: Credential, item: Item) returns (r: Parsed<Credential>)
    ensures r == Load(before, item)
  {
    if !item.Map? {
      return Bad;
    }
    var c := Blank(before);
    var i := 0;
    while i < |item.pairs|
      invariant 0 <= i <= |item.pairs|
      invariant ParsePairs(item.pairs, Blank(before)) == ParsePairs(item.pairs[i..], c)
    {
      match ParsePair(item.pairs[i].0, item.pairs[i].1, c)
      case Good(d) =>
        c := d;
        i := i + 1;
      case Bad => return Bad;
      case Crash => return Crash;
    }
    r := if Complete(c) then Good(c) else Bad;
  }
}
