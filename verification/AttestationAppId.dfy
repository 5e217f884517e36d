/**
 The application id that goes into attestation certificates: a DER structure whose size is estimated while
 packages and signature digests are added, so that it stays within a fixed buffer.
 */
module AttestationAppId {
  import opened KeystoreTypes

  const MAX_SIZE := 1024
  const GENERAL_OVERHEAD := 16
  const PKG_INFO_OVERHEAD := 15
  const SIGNATURE_SIZE := 34
  const DIGEST_LENGTH := 32
  const TWO_64 := 0x1_0000_0000_0000_0000

  // ---------------------------------------------------------------- DER

  const INTEGER_TAG: byte := 0x02
  const OCTET_STRING_TAG: byte := 0x04
  const SEQUENCE_TAG: byte := 0x30
  const SET_TAG: byte := 0x31

  /** The digits of a number in base 256, without leading zeros. */
  function BigEndian(n: nat): (r: Bytes)
    ensures |r| > 0
  {
    if n < 256 then [n as byte] else BigEndian(n / 256) + [(n % 256) as byte]
  }

  /** Definite lengths in the shortest form, sections 8.1.3 and 10.1 of ITU-T X.690. */
  function DerLength(n: nat): Bytes
    requires |BigEndian(n)| < 127
  {
    if n < 128 then [n as byte] else [(128 + |BigEndian(n)|) as byte] + BigEndian(n)
  }

  /** The contents of a non-negative integer, section 8.3 of ITU-T X.690. */
  function IntBytes(n: nat): (r: Bytes)
    ensures |r| > 0 && (r[0] as int) < 128
  {
    if n < 128 then [n as byte] else IntBytes(n / 256) + [(n % 256) as byte]
  }

  function ValueOf(b: Bytes): nat {
    if b == [] then 0 else 256 * ValueOf(b[..|b| - 1]) + b[|b| - 1] as nat
  }

  /** The contents stand for the number and no shorter contents would. */
  lemma {:induction false} IntBytesExact(n: nat)
    ensures ValueOf(IntBytes(n)) == n
    ensures var b := IntBytes(n); |b| > 1 && b[0] == 0 ==> (b[1] as int) >= 128
  {
    if n >= 128 {
      IntBytesExact(n / 256);
      var b := IntBytes(n);
      assert b[..|b| - 1] == IntBytes(n / 256);
      if n / 256 < 128 {
        assert IntBytes(n / 256) == [(n / 256) as byte];
      }
    } else {
      assert IntBytes(n)[..0] == [];
    }
  }

  /** The numbers that fit into so many content bytes. */
  function Bound(k: nat): nat {
    if k == 0 then 0 else if k == 1 then 128 else 256 * Bound(k - 1)
  }

  lemma {:induction false} IntBytesLength(n: nat, k: nat)
    requires k > 0
    ensures |IntBytes(n)| <= k <==> n < Bound(k)
    decreases k
  {
    if n >= 128 && k > 1 {
      IntBytesLength(n / 256, k - 1);
    } else if n < 128 {
      BoundGrows(k);
    }
  }

  lemma {:induction false} BoundGrows(k: nat)
    requires k > 0
    ensures Bound(k) >= 128
  {
    if k > 1 {
      BoundGrows(k - 1);
    }
  }

  function HeaderSize(n: nat): nat {
    if n < 128 then 2 else if n < 256 then 3 else 4
  }

  lemma SmallLengths(n: nat)
    requires n < 65536
    ensures |BigEndian(n)| <= 2
    ensures 1 + |DerLength(n)| == HeaderSize(n)
  {
    if n >= 256 {
      assert BigEndian(n / 256) == [(n / 256) as byte];
    }
  }

  predicate Encodable(content: Bytes) {
    |BigEndian(|content|)| < 127
  }

  function Tlv(tag: byte, content: Bytes): Bytes
    requires Encodable(content)
  {
    [tag] + DerLength(|content|) + content
  }

  lemma TlvSize(tag: byte, content: Bytes)
    requires |content| < 65536
    ensures Encodable(content) && |Tlv(tag, content)| == HeaderSize(|content|) + |content|
  {
    SmallLengths(|content|);
  }

  function Concat(xs: seq<Bytes>): Bytes {
    if xs == [] then [] else Concat(xs[..|xs| - 1]) + xs[|xs| - 1]
  }

  // ---------------------------------------------------------------- the structure

  datatype Package = Package(name: Option<Bytes>, version: int)

  /** Names are short enough to be pushed at all. */
  ghost predicate Named(p: Package) {
    p.name.Some? && |p.name.value| <= MAX_SIZE
  }

  /** The version code is taken as an unsigned 64 bit number. */
  function Version(p: Package): nat {
    p.version % TWO_64
  }

  function VersionSize(p: Package): nat {
    |IntBytes(Version(p))|
  }

  lemma VersionSizes(p: Package)
    ensures 1 <= VersionSize(p) <= 9
    ensures 0 <= p.version < 0x80_0000_0000 ==> VersionSize(p) <= 5
  {
    IntBytesLength(Version(p), 9);
    IntBytesLength(Version(p), 5);
    assert Bound(2) == 256 * 128 && Bound(3) == 256 * Bound(2) && Bound(4) == 256 * Bound(3)
           && Bound(5) == 256 * Bound(4);
    assert Bound(5) == 0x80_0000_0000;
    assert Bound(6) == 256 * Bound(5) && Bound(7) == 256 * Bound(6) && Bound(8) == 256 * Bound(7)
           && Bound(9) == 256 * Bound(8);
  }

  function NameTlv(p: Package): Bytes
    requires p.name.Some? && Encodable(p.name.value)
  {
    Tlv(OCTET_STRING_TAG, p.name.value)
  }

  function PackageContent(p: Package): Bytes
    requires p.name.Some? && Encodable(p.name.value) && Encodable(IntBytes(Version(p)))
  {
    NameTlv(p) + Tlv(INTEGER_TAG, IntBytes(Version(p)))
  }

  ghost predicate PackageEncodable(p: Package) {
    && p.name.Some? && Encodable(p.name.value) && Encodable(IntBytes(Version(p)))
    && Encodable(PackageContent(p))
  }

  ghost function EncodePackage(p: Package): Bytes
    requires PackageEncodable(p)
  {
    Tlv(SEQUENCE_TAG, PackageContent(p))
  }

  function BodySize(nameLength: nat, versionSize: nat): nat {
    HeaderSize(nameLength) + nameLength + 2 + versionSize
  }

  lemma PackageSize(p: Package)
    requires Named(p)
    ensures PackageEncodable(p)
    ensures var n, v := |p.name.value|, VersionSize(p);
            |EncodePackage(p)| == HeaderSize(BodySize(n, v)) + BodySize(n, v)
  {
    VersionSizes(p);
    TlvSize(OCTET_STRING_TAG, p.name.value);
    TlvSize(INTEGER_TAG, IntBytes(Version(p)));
    TlvSize(SEQUENCE_TAG, PackageContent(p));
  }

  // ---------------------------------------------------------------- the estimate of one package

  /** Names and versions for which the estimate is large enough. */
  predicate EstimateHolds(nameLength: nat, versionSize: nat) {
    || nameLength <= 114
    || (nameLength <= 127 && versionSize <= 8)
    || (nameLength <= 255 && versionSize <= (if nameLength + 5 + versionSize < 256 then 7 else 6))
    || versionSize <= 5
  }

  /** The estimate of a package is an upper bound exactly in the cases listed. */
  lemma EstimateIff(p: Package)
    requires Named(p)
    ensures PackageEncodable(p)
    ensures |EncodePackage(p)| <= PKG_INFO_OVERHEAD + |p.name.value| <==> EstimateHolds(|p.name.value|, VersionSize(p))
  {
    PackageSize(p);
    VersionSizes(p);
  }

  // ---------------------------------------------------------------- the whole

  ghost function EncodePackages(ps: seq<Package>): seq<Bytes>
    requires forall i :: 0 <= i < |ps| ==> PackageEncodable(ps[i])
  {
    seq(|ps|, i requires 0 <= i < |ps| => EncodePackage(ps[i]))
  }

  ghost function EncodeDigests(ds: seq<Bytes>): seq<Bytes>
    requires forall i :: 0 <= i < |ds| ==> Encodable(ds[i])
  {
    seq(|ds|, i requires 0 <= i < |ds| => Tlv(OCTET_STRING_TAG, ds[i]))
  }

  ghost predicate IdEncodable(packages: seq<Bytes>, digests: seq<Bytes>) {
    && Encodable(Concat(packages)) && Encodable(Concat(digests))
    && Encodable(Tlv(SET_TAG, Concat(packages)) + Tlv(SET_TAG, Concat(digests)))
  }

  /** The structure from the encodings of its elements, in whatever order a set is written. */
  ghost function EncodeId(packages: seq<Bytes>, digests: seq<Bytes>): Bytes
    requires IdEncodable(packages, digests)
  {
    Tlv(SEQUENCE_TAG, Tlv(SET_TAG, Concat(packages)) + Tlv(SET_TAG, Concat(digests)))
  }

  function NameLength(p: Package): nat {
    if p.name.Some? then |p.name.value| else 0
  }

  /** The running estimate after some packages and digests. */
  function Estimate(ps: seq<Package>, digests: nat): nat {
    if ps == [] then GENERAL_OVERHEAD + SIGNATURE_SIZE * digests
    else Estimate(ps[..|ps| - 1], digests) + PKG_INFO_OVERHEAD + NameLength(ps[|ps| - 1])
  }

  ghost predicate AllWithinEstimate(ps: seq<Package>) {
    forall i :: 0 <= i < |ps| ==> Named(ps[i]) && EstimateHolds(|ps[i].name.value|, VersionSize(ps[i]))
  }

  lemma {:induction false} PackagesSize(ps: seq<Package>)
    requires AllWithinEstimate(ps)
    ensures forall i :: 0 <= i < |ps| ==> PackageEncodable(ps[i])
    ensures |Concat(EncodePackages(ps))| + GENERAL_OVERHEAD <= Estimate(ps, 0)
  {
    forall i | 0 <= i < |ps|
      ensures PackageEncodable(ps[i])
    {
      EstimateIff(ps[i]);
    }
    if ps != [] {
      var front := ps[..|ps| - 1];
      PackagesSize(front);
      EstimateIff(ps[|ps| - 1]);
      assert EncodePackages(ps)[..|ps| - 1] == EncodePackages(front);
    }
  }

  lemma {:induction false} DigestsSize(ds: seq<Bytes>)
    requires forall i :: 0 <= i < |ds| ==> |ds[i]| == DIGEST_LENGTH
    ensures forall i :: 0 <= i < |ds| ==> Encodable(ds[i])
    ensures |Concat(EncodeDigests(ds))| == SIGNATURE_SIZE * |ds|
  {
    forall i | 0 <= i < |ds|
      ensures Encodable(ds[i])
    {
      TlvSize(OCTET_STRING_TAG, ds[i]);
    }
    if ds != [] {
      var front := ds[..|ds| - 1];
      DigestsSize(front);
      TlvSize(OCTET_STRING_TAG, ds[|ds| - 1]);
      assert EncodeDigests(ds)[..|ds| - 1] == EncodeDigests(front);
    }
  }

  lemma {:induction false} EstimateSplits(ps: seq<Package>, digests: nat)
    ensures Estimate(ps, digests) == Estimate(ps, 0) + SIGNATURE_SIZE * digests
  {
    if ps != [] {
      EstimateSplits(ps[..|ps| - 1], digests);
    }
  }

  /** The order of the elements of a set makes no difference to the size. */
  lemma {:induction false} OrderDoesNotMatter(xs: seq<Bytes>, ys: seq<Bytes>)
    requires multiset(xs) == multiset(ys)
    ensures |Concat(xs)| == |Concat(ys)|
    decreases |xs|
  {
    if xs == [] {
      assert |multiset(ys)| == 0;
    } else {
      var x := xs[|xs| - 1];
      assert x in multiset(ys);
      var i :| 0 <= i < |ys| && ys[i] == x;
      WithoutOne(xs, |xs| - 1);
      WithoutOne(ys, i);
      assert xs[..|xs| - 1] + xs[|xs|..] == xs[..|xs| - 1];
      OrderDoesNotMatter(xs[..|xs| - 1], ys[..i] + ys[i + 1..]);
      TakenOut(ys, i);
    }
  }

  lemma WithoutOne(ys: seq<Bytes>, i: nat)
    requires i < |ys|
    ensures multiset(ys[..i] + ys[i + 1..]) == multiset(ys) - multiset{ys[i]}
  {
    assert ys == ys[..i] + [ys[i]] + ys[i + 1..];
  }

  lemma {:induction false} TakenOut(ys: seq<Bytes>, i: nat)
    requires i < |ys|
    ensures |Concat(ys)| == |Concat(ys[..i] + ys[i + 1..])| + |ys[i]|
    decreases |ys|
  {
    var n := |ys| - 1;
    if i < n {
      TakenOut(ys[..n], i);
      var rest := ys[..i] + ys[i + 1..];
      assert ys[..n][..i] + ys[..n][i + 1..] == rest[..|rest| - 1];
      assert rest[|rest| - 1] == ys[n];
    } else {
      assert ys[..i] + ys[i + 1..] == ys[..n];
    }
  }

  /** If every package is within its estimate, so is the whole, in any order of the sets. */
  lemma WithinBudget(ps: seq<Package>, ds: seq<Bytes>, packages: seq<Bytes>, digests: seq<Bytes>)
    requires AllWithinEstimate(ps) && Estimate(ps, |ds|) <= MAX_SIZE
    requires forall i :: 0 <= i < |ds| ==> |ds[i]| == DIGEST_LENGTH
    requires forall i :: 0 <= i < |ps| ==> PackageEncodable(ps[i])
    requires forall i :: 0 <= i < |ds| ==> Encodable(ds[i])
    requires multiset(packages) == multiset(EncodePackages(ps)) && multiset(digests) == multiset(EncodeDigests(ds))
    ensures IdEncodable(packages, digests) && |EncodeId(packages, digests)| <= MAX_SIZE - 4
  {
    PackagesSize(ps);
    DigestsSize(ds);
    EstimateSplits(ps, |ds|);
    OrderDoesNotMatter(packages, EncodePackages(ps));
    OrderDoesNotMatter(digests, EncodeDigests(ds));
    TlvSize(SET_TAG, Concat(packages));
    TlvSize(SET_TAG, Concat(digests));
    TlvSize(SEQUENCE_TAG, Tlv(SET_TAG, Concat(packages)) + Tlv(SET_TAG, Concat(digests)));
  }

  /** The size of the encoded packages, from the lengths of their names and versions alone. */
  function PackagesTotal(ps: seq<Package>): nat {
    if ps == [] then 0
    else
      var p := ps[|ps| - 1];
      var body := BodySize(NameLength(p), VersionSize(p));
      PackagesTotal(ps[..|ps| - 1]) + HeaderSize(body) + body
  }

  function IdTotal(packages: nat, digests: nat): nat {
    var content := HeaderSize(packages) + packages + HeaderSize(digests) + digests;
    HeaderSize(content) + content
  }

  lemma {:induction false} PackagesExactSize(ps: seq<Package>)
    requires forall i :: 0 <= i < |ps| ==> Named(ps[i])
    ensures forall i :: 0 <= i < |ps| ==> PackageEncodable(ps[i])
    ensures |Concat(EncodePackages(ps))| == PackagesTotal(ps)
  {
    forall i | 0 <= i < |ps|
      ensures PackageEncodable(ps[i])
    {
      PackageSize(ps[i]);
    }
    if ps != [] {
      var front := ps[..|ps| - 1];
      PackagesExactSize(front);
      PackageSize(ps[|ps| - 1]);
      assert EncodePackages(ps)[..|ps| - 1] == EncodePackages(front);
    }
  }

  lemma ExactSize(ps: seq<Package>, ds: seq<Bytes>, packages: seq<Bytes>, digests: seq<Bytes>)
    requires forall i :: 0 <= i < |ps| ==> Named(ps[i]) && PackageEncodable(ps[i])
    requires forall i :: 0 <= i < |ds| ==> |ds[i]| == DIGEST_LENGTH && Encodable(ds[i])
    requires PackagesTotal(ps) < 30000 && |ds| < 800
    requires multiset(packages) == multiset(EncodePackages(ps)) && multiset(digests) == multiset(EncodeDigests(ds))
    ensures IdEncodable(packages, digests)
    ensures |EncodeId(packages, digests)| == IdTotal(PackagesTotal(ps), SIGNATURE_SIZE * |ds|)
  {
    PackagesExactSize(ps);
    DigestsSize(ds);
    OrderDoesNotMatter(packages, EncodePackages(ps));
    OrderDoesNotMatter(digests, EncodeDigests(ds));
    TlvSize(SET_TAG, Concat(packages));
    TlvSize(SET_TAG, Concat(digests));
    TlvSize(SEQUENCE_TAG, Tlv(SET_TAG, Concat(packages)) + Tlv(SET_TAG, Concat(digests)));
  }

  /** No package exceeds its estimate by more than four bytes. */
  lemma {:induction false} TotalBound(ps: seq<Package>)
    ensures PackagesTotal(ps) + GENERAL_OVERHEAD <= Estimate(ps, 0) + 4 * |ps|
    ensures GENERAL_OVERHEAD + PKG_INFO_OVERHEAD * |ps| <= Estimate(ps, 0)
  {
    if ps != [] {
      TotalBound(ps[..|ps| - 1]);
      VersionSizes(ps[|ps| - 1]);
    }
  }

  // ---------------------------------------------------------------- what the loops push

  datatype Status = BadValue | RateLimitExceeded | NoMemory

  datatype Built = Built(packages: seq<Package>, digests: seq<Bytes>) | Refused(status: Status)

  /** The name of the package that may not use attestation. */
  const GMS: Bytes := [99, 111, 109, 46, 103, 111, 111, 103, 108, 101, 46, 97, 110, 100, 114, 111, 105, 100, 46, 103,
                       109, 115]

  function NameError(p: Package): Option<Status> {
    if p.name.None? then Some(BadValue) else if p.name.value == GMS then Some(RateLimitExceeded) else None
  }

  /** The bytes spell the text. */
  predicate Spells(name: Bytes, text: string) {
    |name| == |text| && forall i :: 0 <= i < |text| ==> name[i] as int == text[i] as int
  }

  /** A package without a name is bad, and one package is held back by its name. */
  lemma NameErrorIff(p: Package)
    ensures NameError(p) == Some(BadValue) <==> p.name.None?
    ensures NameError(p) == Some(RateLimitExceeded) <==>
              p.name.Some? && Spells(p.name.value, "com.google.android.gms")
    ensures NameError(p) != Some(NoMemory)
  {
    if p.name.Some? && Spells(p.name.value, "com.google.android.gms") {
      assert p.name.value == GMS;
    }
  }

  /** The number of leading packages within the estimate. */
  ghost predicate FitsUpTo(ps: seq<Package>, n: nat) {
    && n <= |ps|
    && (forall i :: 0 < i <= n ==> Estimate(ps[..i], 0) <= MAX_SIZE)
    && (n < |ps| ==> Estimate(ps[..n + 1], 0) > MAX_SIZE)
  }

  ghost predicate DigestsFit(estimate: nat, available: nat, m: nat) {
    && m <= available
    && (m > 0 ==> estimate + SIGNATURE_SIZE * m <= MAX_SIZE)
    && (m < available ==> estimate + SIGNATURE_SIZE * (m + 1) > MAX_SIZE)
  }

  /** The packages looked at, which are those that fit and the first that does not, may all be named. */
  ghost predicate NamesOk(ps: seq<Package>) {
    forall n: nat, i: nat :: FitsUpTo(ps, n) && i <= n && i < |ps| ==> NameError(ps[i]).None?
  }

  /** Package `i` is looked at and is the first with a bad name; `n` packages fit. */
  ghost predicate FirstBadName(ps: seq<Package>, n: nat, i: nat) {
    && FitsUpTo(ps, n) && i <= n && i < |ps|
    && NameError(ps[i]).Some? && forall j :: 0 <= j < i ==> NameError(ps[j]).None?
  }

  /** An empty list, or the first bad name among the packages looked at, decides what is reported. */
  ghost predicate RefusedFor(ps: seq<Package>, status: Status) {
    if ps == [] then status == BadValue
    else exists n: nat, i: nat :: FirstBadName(ps, n, i) && NameError(ps[i]) == Some(status)
  }

  /** As many packages as fit; then, if all do, as many digests as fit, else none. */
  ghost predicate Pushes(ps: seq<Package>, ds: seq<Bytes>, packages: seq<Package>, digests: seq<Bytes>) {
    && FitsUpTo(ps, |packages|) && packages == ps[..|packages|]
    && digests <= ds
    && (if |packages| < |ps| then digests == [] else DigestsFit(Estimate(ps, 0), |ds|, |digests|))
  }

  lemma EstimateNext(ps: seq<Package>, i: nat)
    requires i < |ps|
    ensures Estimate(ps[..i + 1], 0) == Estimate(ps[..i], 0) + PKG_INFO_OVERHEAD + NameLength(ps[i])
  {
    assert ps[..i + 1][..i] == ps[..i];
  }

  /**
   Pushes packages and then the digests of the first package's signatures until the estimate says stop. A
   package that does not fit is still looked at, and still counts in the estimate for the digests.
   */
  method Build(ps: seq<Package>, ds: seq<Bytes>) returns (r: Built)
    ensures r.Built? <==> ps != [] && NamesOk(ps)
    ensures r.Built? ==> Pushes(ps, ds, r.packages, r.digests)
    ensures r.Refused? ==> RefusedFor(ps, r.status)
  {
    if ps == [] {
      return Refused(BadValue);
    }
    var estimated := GENERAL_OVERHEAD;
    var n := 0;
    assert Estimate(ps[..0], 0) == GENERAL_OVERHEAD;
    while n < |ps|
      invariant 0 <= n <= |ps|
      invariant estimated == Estimate(ps[..n], 0)
      invariant forall i :: 0 < i <= n ==> Estimate(ps[..i], 0) <= MAX_SIZE
      invariant forall i :: 0 <= i < n ==> NameError(ps[i]).None?
    {
      var e := NameError(ps[n]);
      if e.Some? {
        BadNameRefuses(ps, n);
        return Refused(e.value);
      }
      EstimateNext(ps, n);
      estimated := estimated + PKG_INFO_OVERHEAD + |ps[n].name.value|;
      if estimated > MAX_SIZE {
        break;
      }
      n := n + 1;
    }
    ghost var start := estimated;
    var m := 0;
    while m < |ds|
      invariant 0 <= m <= |ds|
      invariant estimated == start + SIGNATURE_SIZE * m
      invariant m > 0 ==> estimated <= MAX_SIZE
    {
      estimated := estimated + SIGNATURE_SIZE;
      if estimated > MAX_SIZE {
        break;
      }
      m := m + 1;
    }
    assert ps[..|ps|] == ps;
    GoodNamesPass(ps, n);
    r := Built(ps[..n], ds[..m]);
  }

  /** A bad name among packages that may be looked at decides. */
  lemma BadNameRefuses(ps: seq<Package>, n: nat)
    requires n < |ps| && forall i :: 0 < i <= n ==> Estimate(ps[..i], 0) <= MAX_SIZE
    requires NameError(ps[n]).Some? && forall i :: 0 <= i < n ==> NameError(ps[i]).None?
    ensures !NamesOk(ps) && RefusedFor(ps, NameError(ps[n]).value)
  {
    var m := FirstMisfit(ps, n);
    assert FirstBadName(ps, m, n);
  }

  lemma GoodNamesPass(ps: seq<Package>, n: nat)
    requires FitsUpTo(ps, n) && forall i :: 0 <= i <= n && i < |ps| ==> NameError(ps[i]).None?
    ensures NamesOk(ps)
  {
    FitIsUnique(ps, n);
  }

  lemma {:induction false} FirstMisfit(ps: seq<Package>, n: nat) returns (m: nat)
    requires n < |ps| && forall i :: 0 < i <= n ==> Estimate(ps[..i], 0) <= MAX_SIZE
    ensures n <= m && FitsUpTo(ps, m)
    decreases |ps| - n
  {
    if Estimate(ps[..n + 1], 0) > MAX_SIZE {
      m := n;
    } else if n + 1 == |ps| {
      m := n + 1;
    } else {
      m := FirstMisfit(ps, n + 1);
    }
  }

  lemma FitIsUnique(ps: seq<Package>, n: nat)
    requires FitsUpTo(ps, n)
    ensures forall m :: FitsUpTo(ps, m) ==> m == n
  {
  }

  // ---------------------------------------------------------------- the budget

  /** Packages a caller may hand in without risking an oversized result. */
  predicate Harmless(p: Package) {
    p.name.Some? ==> |p.name.value| <= 114 || 0 <= p.version < 0x80_0000_0000
  }

  lemma {:induction false} PushedAreNamed(ps: seq<Package>, i: nat)
    requires i < |ps| && Estimate(ps, 0) <= MAX_SIZE
    ensures NameLength(ps[i]) <= MAX_SIZE
    decreases |ps|
  {
    if i < |ps| - 1 {
      PushedAreNamed(ps[..|ps| - 1], i);
    } else {
      EstimateAtLeast(ps[..|ps| - 1]);
    }
  }

  lemma {:induction false} EstimateAtLeast(ps: seq<Package>)
    ensures Estimate(ps, 0) >= GENERAL_OVERHEAD
  {
    if ps != [] {
      EstimateAtLeast(ps[..|ps| - 1]);
    }
  }

  lemma HarmlessIsWithinEstimate(p: Package)
    requires Harmless(p) && Named(p)
    ensures EstimateHolds(|p.name.value|, VersionSize(p))
  {
    VersionSizes(p);
  }

  lemma PushedWithinEstimate(ps: seq<Package>, ds: seq<Bytes>, pushed: seq<Package>, digests: seq<Bytes>)
    requires Pushes(ps, ds, pushed, digests)
    requires forall i :: 0 <= i < |ps| ==> ps[i].name.Some? && Harmless(ps[i])
    ensures AllWithinEstimate(pushed) && Estimate(pushed, |digests|) <= MAX_SIZE
  {
    assert Estimate(pushed, 0) <= MAX_SIZE;
    forall i | 0 <= i < |pushed|
      ensures Named(pushed[i]) && EstimateHolds(|pushed[i].name.value|, VersionSize(pushed[i]))
    {
      PushedAreNamed(pushed, i);
      assert pushed[i] == ps[i];
      HarmlessIsWithinEstimate(pushed[i]);
    }
    EstimateSplits(pushed, |digests|);
    assert |pushed| == |ps| ==> pushed == ps;
  }

  /** What the caller of the service gets: the encoding is copied only into a buffer of the right size. */
  function Handover(encoded: Bytes, bufferSize: nat): Option<Status> {
    if |encoded| > MAX_SIZE then Some(NoMemory) else if bufferSize != MAX_SIZE then Some(BadValue) else None
  }

  /** Whatever the loops push from harmless packages fits the buffer, in any order of the sets. */
  lemma NeverTooLarge(ps: seq<Package>, ds: seq<Bytes>, pushed: seq<Package>, digests: seq<Bytes>, set0: seq<Bytes>,
                      set1: seq<Bytes>)
    requires Pushes(ps, ds, pushed, digests)
    requires forall i :: 0 <= i < |ps| ==> ps[i].name.Some? && Harmless(ps[i])
    requires forall i :: 0 <= i < |digests| ==> |digests[i]| == DIGEST_LENGTH && Encodable(digests[i])
    requires forall i :: 0 <= i < |pushed| ==> PackageEncodable(pushed[i])
    requires multiset(set0) == multiset(EncodePackages(pushed)) && multiset(set1) == multiset(EncodeDigests(digests))
    ensures IdEncodable(set0, set1) && |EncodeId(set0, set1)| <= MAX_SIZE
    ensures Handover(EncodeId(set0, set1), MAX_SIZE) == None
  {
    PushedWithinEstimate(ps, ds, pushed, digests);
    WithinBudget(pushed, digests, set0, set1);
  }

  /** Whatever the packages, the result fits the buffer exactly if their name lengths and version sizes add up to it. */
  lemma FitsIff(ps: seq<Package>, ds: seq<Bytes>, pushed: seq<Package>, digests: seq<Bytes>, set0: seq<Bytes>,
                set1: seq<Bytes>)
    requires Pushes(ps, ds, pushed, digests)
    requires forall i :: 0 <= i < |pushed| ==> PackageEncodable(pushed[i])
    requires forall i :: 0 <= i < |digests| ==> |digests[i]| == DIGEST_LENGTH && Encodable(digests[i])
    requires multiset(set0) == multiset(EncodePackages(pushed)) && multiset(set1) == multiset(EncodeDigests(digests))
    ensures IdEncodable(set0, set1)
    ensures |EncodeId(set0, set1)| <= MAX_SIZE <==>
              IdTotal(PackagesTotal(pushed), SIGNATURE_SIZE * |digests|) <= MAX_SIZE
    ensures forall bufferSize: nat ::
              Handover(EncodeId(set0, set1), bufferSize)
              == if IdTotal(PackagesTotal(pushed), SIGNATURE_SIZE * |digests|) > 1024 then Some(NoMemory)
                 else if bufferSize != 1024 then Some(BadValue)
                 else None
  {
    assert Estimate(pushed, 0) <= MAX_SIZE;
    forall i | 0 <= i < |pushed|
      ensures Named(pushed[i])
    {
      PushedAreNamed(pushed, i);
    }
    TotalBound(pushed);
    ExactSize(pushed, digests, set0, set1);
  }

  /** Five packages with names of 186 and 187 bytes and a version that takes nine bytes. */
  ghost predicate Five(ps: seq<Package>) {
    && |ps| == 5
    && forall i :: 0 <= i < 5 ==>
         ps[i].name.Some? && ps[i].version == -1 && NameLength(ps[i]) == if i < 2 then 186 else 187
  }

  /** The estimate passes and all of them are pushed, but the result does not fit the buffer. */
  lemma TooLargeExample(ps: seq<Package>)
    requires Five(ps)
    ensures Pushes(ps, [], ps, []) && forall i :: 0 <= i < |ps| ==> PackageEncodable(ps[i])
    ensures IdEncodable(EncodePackages(ps), []) && |EncodeId(EncodePackages(ps), [])| == 1028
    ensures Handover(EncodeId(EncodePackages(ps), []), MAX_SIZE) == Some(NoMemory)
  {
    FiveFit(ps);
    FiveSize(ps);
    forall i | 0 <= i < 5
      ensures PackageEncodable(ps[i])
    {
      PackageSize(ps[i]);
    }
    assert multiset(EncodeDigests([])) == multiset([]);
    ExactSize(ps, [], EncodePackages(ps), []);
  }

  lemma FiveFit(ps: seq<Package>)
    requires Five(ps)
    ensures FitsUpTo(ps, 5) && ps[..5] == ps && Estimate(ps, 0) == MAX_SIZE
  {
    assert ps[..0] == [] && ps[..5] == ps;
    EstimateNext(ps, 0);
    EstimateNext(ps, 1);
    EstimateNext(ps, 2);
    EstimateNext(ps, 3);
    EstimateNext(ps, 4);
  }

  lemma TotalNext(ps: seq<Package>, i: nat)
    requires i < |ps|
    ensures var body := BodySize(NameLength(ps[i]), VersionSize(ps[i]));
            PackagesTotal(ps[..i + 1]) == PackagesTotal(ps[..i]) + HeaderSize(body) + body
  {
    assert ps[..i + 1][..i] == ps[..i];
  }

  lemma FiveSize(ps: seq<Package>)
    requires Five(ps)
    ensures PackagesTotal(ps) == 1018
  {
    assert ps[..0] == [] && ps[..5] == ps;
    forall i | 0 <= i < 5
      ensures VersionSize(ps[i]) == 9
    {
      NineBytes(ps[i]);
    }
    TotalNext(ps, 0);
    TotalNext(ps, 1);
    TotalNext(ps, 2);
    TotalNext(ps, 3);
    TotalNext(ps, 4);
  }

  lemma NineBytes(p: Package)
    requires p.version == -1
    ensures VersionSize(p) == 9
  {
    VersionSizes(p);
    IntBytesLength(Version(p), 8);
    assert Bound(2) == 256 * 128 && Bound(3) == 256 * Bound(2) && Bound(4) == 256 * Bound(3)
           && Bound(5) == 256 * Bound(4);
    assert Bound(6) == 256 * Bound(5) && Bound(7) == 256 * Bound(6) && Bound(8) == 256 * Bound(7);
  }
}
