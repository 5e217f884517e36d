/**
 The decision whether an operation on a key may begin, taken from the key's parameters, the
 authentication tokens received since boot and the state of the device.
 */
module Enforcements {
  import opened KeystoreTypes

  datatype Purpose = Encrypt | Decrypt | Sign | Verify | WrapKey | AgreeKey | OtherPurpose

  datatype Algorithm = RSA | EC | AES | TripleDES | HMAC

  datatype Param =
    | NoAuthRequired
    | AuthTimeout(seconds: int)
    | AuthenticatorType(mask: bv32)
    | KeyPurpose(purpose: Purpose)
    | CallerNonce
    | ActiveDateTime(millis: int)
    | OriginationExpireDateTime(millis: int)
    | UsageExpireDateTime(millis: int)
    | UserSecureID(sid: int)
    | UserID(user: int)
    | UnlockedDeviceRequired
    | AllowWhileOnBody
    | UsageCountLimit
    | TrustedConfirmationRequired
    | MaxBootLevel(level: int)
    | KeyAlgorithm(algorithm: Algorithm)
    | OtherParam(tag: int)

  datatype ErrorCode =
    | IncompatiblePurpose
    | UnsupportedPurpose
    | KeyNotYetValid
    | KeyExpired
    | InvalidKeyBlob
    | KeyUserNotAuthenticated
    | CallerNonceProhibited
    | DeviceLocked
    | BootLevelExceeded
    | System

  datatype AuthToken = AuthToken(challenge: int, userId: int, authenticatorId: int, authenticatorType: bv32, mac: int)

  datatype TokenEntry = TokenEntry(token: AuthToken, received: int)

  const I64_MIN := -0x8000_0000_0000_0000
  const I64_MAX := 0x7fff_ffff_ffff_ffff
  const U128 := 0x1_0000_0000_0000_0000_0000_0000_0000_0000

  /** What the decision depends on besides the key and the request. */
  datatype Env = Env(
    wallClock: Option<nat>,
    now: int,
    tokens: seq<TokenEntry>,
    lastOffBody: int,
    unlockedUsers: set<int>,
    accessible: int -> bool)

  /** Monotonic time is not negative and times are 64 bit numbers. */
  ghost predicate SaneTimes(env: Env) {
    && 0 <= env.now <= I64_MAX
    && forall i :: 0 <= i < |env.tokens| ==> I64_MIN <= env.tokens[i].received <= I64_MAX
  }

  // ---------------------------------------------------------------- tokens

  predicate Satisfies(e: TokenEntry, sids: seq<int>, mask: bv32) {
    exists i :: 0 <= i < |sids| && (sids[i] == e.token.userId || sids[i] == e.token.authenticatorId)
                && mask & e.token.authenticatorType != 0
  }

  /** The newest of the matching tokens; among equally new ones the last. */
  function Newest(tokens: seq<TokenEntry>, p: TokenEntry -> bool): (r: Option<TokenEntry>)
    ensures r.None? <==> forall i :: 0 <= i < |tokens| ==> !p(tokens[i])
    ensures r.Some? ==> p(r.value) && r.value in tokens
    ensures r.Some? ==> forall i :: 0 <= i < |tokens| && p(tokens[i]) ==> tokens[i].received <= r.value.received
  {
    if tokens == [] then None
    else
      var last := tokens[|tokens| - 1];
      var before := Newest(tokens[..|tokens| - 1], p);
      if p(last) && (before.None? || before.value.received <= last.received) then Some(last) else before
  }

  /** No later token in the list that matches is as new. */
  lemma {:induction false} NewestIsLast(tokens: seq<TokenEntry>, p: TokenEntry -> bool) returns (i: nat)
    requires Newest(tokens, p).Some?
    ensures i < |tokens| && tokens[i] == Newest(tokens, p).value
    ensures forall j :: i < j < |tokens| && p(tokens[j]) ==> tokens[j].received < tokens[i].received
    decreases |tokens|
  {
    var n := |tokens| - 1;
    var before := Newest(tokens[..n], p);
    if p(tokens[n]) && (before.None? || before.value.received <= tokens[n].received) {
      i := n;
    } else {
      i := NewestIsLast(tokens[..n], p);
    }
  }

  // ---------------------------------------------------------------- clock arithmetic

  /** The cast of a signed 64 bit number to an unsigned 128 bit one. */
  function AsU128(x: int): int {
    if x < 0 then x + U128 else x
  }

  predicate TimePassed(clock: Option<nat>, given: int, inclusive: bool) {
    clock.Some? && (clock.value > AsU128(given) || (inclusive && clock.value == AsU128(given)))
  }

  /** Division that truncates toward zero. */
  function TruncDiv(a: int, b: int): int
    requires b > 0
  {
    if a >= 0 then a / b else -((-a) / b)
  }

  function CheckedSub(a: int, b: int): Option<int> {
    if I64_MIN <= a - b <= I64_MAX then Some(a - b) else None
  }

  // ---------------------------------------------------------------- reading the parameters

  /** What one pass over the parameters notes down. */
  datatype Facts = Facts(
    purposeAuthorized: bool,
    authType: Option<bv32>,
    noAuth: bool,
    nonceAllowed: bool,
    userId: int,
    sids: seq<int>,
    timeout: Option<int>,
    onBody: bool,
    unlocked: bool,
    usageLimited: bool,
    confirmation: bool,
    bootLevel: Option<int>)

  const NO_FACTS := Facts(false, None, false, false, -1, [], None, false, false, false, false, None)

  function Note(f: Facts, p: Param, purpose: Purpose): Facts {
    match p
    case NoAuthRequired => f.(noAuth := true)
    case AuthTimeout(t) => f.(timeout := Some(t))
    case AuthenticatorType(a) => f.(authType := Some(a))
    case KeyPurpose(q) => f.(purposeAuthorized := f.purposeAuthorized || q == purpose)
    case CallerNonce => f.(nonceAllowed := true)
    case UserSecureID(s) => f.(sids := f.sids + [s])
    case UserID(u) => f.(userId := u)
    case UnlockedDeviceRequired => f.(unlocked := true)
    case AllowWhileOnBody => f.(onBody := true)
    case UsageCountLimit => f.(usageLimited := true)
    case TrustedConfirmationRequired => f.(confirmation := true)
    case MaxBootLevel(l) => f.(bootLevel := Some(l))
    case _ => f
  }

  function FactsOf(ps: seq<Param>, purpose: Purpose): Facts {
    if ps == [] then NO_FACTS else Note(FactsOf(ps[..|ps| - 1], purpose), ps[|ps| - 1], purpose)
  }

  function TimeViolation(p: Param, purpose: Purpose, clock: Option<nat>): Option<ErrorCode> {
    match p
    case ActiveDateTime(a) => if TimePassed(clock, a, true) then None else Some(KeyNotYetValid)
    case OriginationExpireDateTime(o) =>
      if (purpose == Encrypt || purpose == Sign) && TimePassed(clock, o, false) then Some(KeyExpired) else None
    case UsageExpireDateTime(u) =>
      if (purpose == Decrypt || purpose == Verify) && TimePassed(clock, u, false) then Some(KeyExpired) else None
    case _ => None
  }

  /** The first parameter the time forbids decides. */
  function FirstViolation(ps: seq<Param>, purpose: Purpose, clock: Option<nat>): (r: Option<ErrorCode>)
    ensures r.None? <==> forall i :: 0 <= i < |ps| ==> TimeViolation(ps[i], purpose, clock).None?
  {
    if ps == [] then None
    else
      var before := FirstViolation(ps[..|ps| - 1], purpose, clock);
      if before.Some? then before else TimeViolation(ps[|ps| - 1], purpose, clock)
  }

  /** Purposes that a kind of key can never be used for. */
  predicate ForbidsPurpose(p: Param, purpose: Purpose) {
    && p.KeyAlgorithm?
    && (|| (purpose == AgreeKey && p.algorithm != EC)
        || ((purpose == Verify || purpose == Encrypt) && (p.algorithm == RSA || p.algorithm == EC)))
  }

  function PurposeError(ps: seq<Param>, purpose: Purpose): Option<ErrorCode> {
    if purpose == WrapKey then Some(IncompatiblePurpose)
    else if purpose == OtherPurpose then Some(UnsupportedPurpose)
    else if exists i :: 0 <= i < |ps| && ForbidsPurpose(ps[i], purpose) then Some(UnsupportedPurpose)
    else None
  }

  /** The facts, said without reference to the order in which they are collected. */
  ghost predicate FlagsAgree(f: Facts, ps: seq<Param>, purpose: Purpose) {
    && (f.purposeAuthorized <==> KeyPurpose(purpose) in ps)
    && (f.noAuth <==> NoAuthRequired in ps)
    && (f.nonceAllowed <==> CallerNonce in ps)
    && (f.unlocked <==> UnlockedDeviceRequired in ps)
    && (f.onBody <==> AllowWhileOnBody in ps)
    && (f.usageLimited <==> Param.UsageCountLimit in ps)
    && (f.confirmation <==> TrustedConfirmationRequired in ps)
  }

  ghost predicate SidsAgree(f: Facts, ps: seq<Param>) {
    && (f.sids == [] <==> forall s :: UserSecureID(s) !in ps)
    && (forall s :: s in f.sids <==> UserSecureID(s) in ps)
  }

  ghost predicate TimeoutAgrees(f: Facts, ps: seq<Param>) {
    if f.timeout.Some? then AuthTimeout(f.timeout.value) in ps else forall t :: AuthTimeout(t) !in ps
  }

  ghost predicate AuthTypeAgrees(f: Facts, ps: seq<Param>) {
    if f.authType.Some? then AuthenticatorType(f.authType.value) in ps else forall a :: AuthenticatorType(a) !in ps
  }

  ghost predicate BootLevelAgrees(f: Facts, ps: seq<Param>) {
    if f.bootLevel.Some? then Param.MaxBootLevel(f.bootLevel.value) in ps else forall l :: Param.MaxBootLevel(l) !in ps
  }

  /** Secure ids are all collected; any other value noted is one of those given. */
  ghost predicate ValuesAgree(f: Facts, ps: seq<Param>) {
    SidsAgree(f, ps) && TimeoutAgrees(f, ps) && AuthTypeAgrees(f, ps) && BootLevelAgrees(f, ps)
  }

  lemma InExtended(ps: seq<Param>, p: Param, x: Param)
    ensures x in ps + [p] <==> x in ps || x == p
  {
  }

  lemma FlagsExtend(f: Facts, ps: seq<Param>, p: Param, purpose: Purpose)
    requires FlagsAgree(f, ps, purpose)
    ensures FlagsAgree(Note(f, p, purpose), ps + [p], purpose)
  {
    NoteIsFlag(f, p, purpose);
    InExtended(ps, p, KeyPurpose(purpose));
    InExtended(ps, p, NoAuthRequired);
    InExtended(ps, p, CallerNonce);
    InExtended(ps, p, UnlockedDeviceRequired);
    InExtended(ps, p, AllowWhileOnBody);
    InExtended(ps, p, Param.UsageCountLimit);
    InExtended(ps, p, TrustedConfirmationRequired);
  }

  lemma NoteIsFlag(f: Facts, p: Param, purpose: Purpose)
    ensures var g := Note(f, p, purpose);
            && g.purposeAuthorized == (f.purposeAuthorized || (p.KeyPurpose? && p.purpose == purpose))
            && g.noAuth == (if p.NoAuthRequired? then true else f.noAuth)
            && g.nonceAllowed == (if p.CallerNonce? then true else f.nonceAllowed)
            && g.unlocked == (if p.UnlockedDeviceRequired? then true else f.unlocked)
            && g.onBody == (if p.AllowWhileOnBody? then true else f.onBody)
            && g.usageLimited == (if p.UsageCountLimit? then true else f.usageLimited)
            && g.confirmation == (if p.TrustedConfirmationRequired? then true else f.confirmation)
  {
    match p {
      case NoAuthRequired =>
      case AuthTimeout(_) =>
      case AuthenticatorType(_) =>
      case KeyPurpose(_) =>
      case CallerNonce =>
      case UserSecureID(_) =>
      case UserID(_) =>
      case UnlockedDeviceRequired =>
      case AllowWhileOnBody =>
      case UsageCountLimit =>
      case TrustedConfirmationRequired =>
      case MaxBootLevel(_) =>
      case _ =>
    }
  }

  lemma SidsExtend(f: Facts, ps: seq<Param>, p: Param, purpose: Purpose)
    requires SidsAgree(f, ps)
    ensures SidsAgree(Note(f, p, purpose), ps + [p])
  {
    forall s
      ensures UserSecureID(s) in ps + [p] <==> UserSecureID(s) in ps || UserSecureID(s) == p
    {
      InExtended(ps, p, UserSecureID(s));
    }
    assert p in ps + [p];
  }

  lemma TimeoutExtends(f: Facts, ps: seq<Param>, p: Param, purpose: Purpose)
    requires TimeoutAgrees(f, ps)
    ensures TimeoutAgrees(Note(f, p, purpose), ps + [p])
  {
  }

  lemma AuthTypeExtends(f: Facts, ps: seq<Param>, p: Param, purpose: Purpose)
    requires AuthTypeAgrees(f, ps)
    ensures AuthTypeAgrees(Note(f, p, purpose), ps + [p])
  {
  }

  lemma BootLevelExtends(f: Facts, ps: seq<Param>, p: Param, purpose: Purpose)
    requires BootLevelAgrees(f, ps)
    ensures BootLevelAgrees(Note(f, p, purpose), ps + [p])
  {
  }

  lemma {:induction false} FactsMean(ps: seq<Param>, purpose: Purpose)
    ensures FlagsAgree(FactsOf(ps, purpose), ps, purpose)
    ensures ValuesAgree(FactsOf(ps, purpose), ps)
  {
    if ps != [] {
      var front, p := ps[..|ps| - 1], ps[|ps| - 1];
      FactsMean(front, purpose);
      FlagsExtend(FactsOf(front, purpose), front, p, purpose);
      SidsExtend(FactsOf(front, purpose), front, p, purpose);
      TimeoutExtends(FactsOf(front, purpose), front, p, purpose);
      AuthTypeExtends(FactsOf(front, purpose), front, p, purpose);
      BootLevelExtends(FactsOf(front, purpose), front, p, purpose);
      assert ps == front + [p];
    }
  }

  predicate SameKind(p: Param, q: Param) {
    || (p.AuthTimeout? && q.AuthTimeout?)
    || (p.AuthenticatorType? && q.AuthenticatorType?)
    || (p.UserID? && q.UserID?)
    || (p.MaxBootLevel? && q.MaxBootLevel?)
  }

  ghost predicate Noted(f: Facts, p: Param) {
    && (p.AuthTimeout? ==> f.timeout == Some(p.seconds))
    && (p.AuthenticatorType? ==> f.authType == Some(p.mask))
    && (p.UserID? ==> f.userId == p.user)
    && (p.MaxBootLevel? ==> f.bootLevel == Some(p.level))
  }

  lemma NoteKeeps(f: Facts, p: Param, q: Param, purpose: Purpose)
    requires Noted(f, p) && !SameKind(p, q)
    ensures Noted(Note(f, q, purpose), p)
  {
  }

  /** Of several values of one kind the last one counts. */
  lemma {:induction false} LastValueCounts(ps: seq<Param>, purpose: Purpose, i: nat)
    requires i < |ps| && forall j :: i < j < |ps| ==> !SameKind(ps[i], ps[j])
    ensures Noted(FactsOf(ps, purpose), ps[i])
  {
    if i < |ps| - 1 {
      var front := ps[..|ps| - 1];
      LastValueCounts(front, purpose, i);
      NoteKeeps(FactsOf(front, purpose), ps[i], ps[|ps| - 1], purpose);
    }
  }

  // ---------------------------------------------------------------- the last value of each kind

  function LastTimeout(ps: seq<Param>): Option<int> {
    if ps == [] then None
    else if ps[|ps| - 1].AuthTimeout? then Some(ps[|ps| - 1].seconds)
    else LastTimeout(ps[..|ps| - 1])
  }

  function LastAuthenticator(ps: seq<Param>): Option<bv32> {
    if ps == [] then None
    else if ps[|ps| - 1].AuthenticatorType? then Some(ps[|ps| - 1].mask)
    else LastAuthenticator(ps[..|ps| - 1])
  }

  function LastLevel(ps: seq<Param>): Option<int> {
    if ps == [] then None
    else if ps[|ps| - 1].MaxBootLevel? then Some(ps[|ps| - 1].level)
    else LastLevel(ps[..|ps| - 1])
  }

  /** The user a key is for, and -1 if none is given. */
  function LastUser(ps: seq<Param>): int {
    if ps == [] then -1
    else if ps[|ps| - 1].UserID? then ps[|ps| - 1].user
    else LastUser(ps[..|ps| - 1])
  }

  lemma NoteIsLast(f: Facts, p: Param, purpose: Purpose)
    ensures var g := Note(f, p, purpose);
            && g.timeout == (if p.AuthTimeout? then Some(p.seconds) else f.timeout)
            && g.authType == (if p.AuthenticatorType? then Some(p.mask) else f.authType)
            && g.bootLevel == (if p.MaxBootLevel? then Some(p.level) else f.bootLevel)
            && g.userId == (if p.UserID? then p.user else f.userId)
  {
  }

  lemma {:induction false} LastValuesNoted(ps: seq<Param>, purpose: Purpose)
    ensures var f := FactsOf(ps, purpose);
            && f.timeout == LastTimeout(ps) && f.authType == LastAuthenticator(ps)
            && f.bootLevel == LastLevel(ps) && f.userId == LastUser(ps)
    decreases |ps|
  {
    if ps != [] {
      var front := ps[..|ps| - 1];
      LastValuesNoted(front, purpose);
      NoteIsLast(FactsOf(front, purpose), ps[|ps| - 1], purpose);
    }
  }

  // ---------------------------------------------------------------- the decision

  datatype Deferred =
    | NoDeferredAuth
    | OpAuthRequired
    | TimeStampRequired(token: AuthToken)
    | TimeStampedOpAuthRequired

  datatype Decision =
    | Granted(immediate: Option<AuthToken>, deferred: Deferred, usageLimited: Option<int>, confirmation: bool)
    | Denied(error: ErrorCode)
    | Panicked

  /** Why the parameters alone, with the state of the device, rule the operation out. */
  function Objection(f: Facts, purpose: Purpose, hasNonce: bool, env: Env): Option<ErrorCode> {
    if !f.purposeAuthorized then Some(IncompatiblePurpose)
    else if f.sids != [] && f.noAuth then Some(ErrorCode.InvalidKeyBlob)
    else if (f.authType.Some? && f.sids == []) || (f.authType.None? && f.sids != []) then Some(KeyUserNotAuthenticated)
    else if (purpose == Encrypt || purpose == Sign) && !f.nonceAllowed && hasNonce then Some(CallerNonceProhibited)
    else if f.unlocked && f.userId !in env.unlockedUsers then Some(DeviceLocked)
    else if f.bootLevel.Some? && !env.accessible(f.bootLevel.value) then Some(BootLevelExceeded)
    else None
  }

  /** The tokens that may stand for the user. */
  predicate Matches(f: Facts, e: TokenEntry) {
    if f.authType.Some? && f.sids != [] then Satisfies(e, f.sids, f.authType.value) else f.unlocked
  }

  function FindToken(f: Facts, env: Env): Option<TokenEntry> {
    Newest(env.tokens, (e: TokenEntry) => Matches(f, e))
  }

  predicate NeedsToken(f: Facts) {
    (f.timeout.Some? && f.sids != []) || f.unlocked
  }

  predicate OnBodyExtended(f: Facts, env: Env, e: TokenEntry) {
    f.onBody && env.lastOffBody < e.received
  }

  function Validate(f: Facts, env: Env, e: TokenEntry): Option<ErrorCode> {
    if f.timeout.None? then None
    else
      var age := CheckedSub(env.now, e.received);
      if age.None? then Some(System)
      else if TruncDiv(age.value, 1000) > f.timeout.value && !OnBodyExtended(f, env, e)
      then Some(KeyUserNotAuthenticated)
      else None
  }

  function Grant(f: Facts, keyId: int, immediate: Option<AuthToken>, deferred: Deferred): Decision {
    Granted(immediate, deferred, if f.usageLimited then Some(keyId) else None, f.confirmation)
  }

  function WithToken(f: Facts, keyId: int, e: TokenEntry, stamped: bool): Decision {
    var perOp := f.timeout.None? && f.sids != [];
    if stamped && perOp then Grant(f, keyId, None, TimeStampedOpAuthRequired)
    else if stamped then Grant(f, keyId, Some(e.token), TimeStampRequired(e.token))
    else if perOp then Grant(f, keyId, Some(e.token), OpAuthRequired)
    else Grant(f, keyId, Some(e.token), NoDeferredAuth)
  }

  function Decide(f: Facts, keyId: int, stamped: bool, env: Env): Decision {
    if !f.unlocked && f.noAuth then Grant(f, keyId, None, NoDeferredAuth)
    else if NeedsToken(f) then
      var found := FindToken(f, env);
      if found.None? then Denied(KeyUserNotAuthenticated)
      else
        var invalid := Validate(f, env, found.value);
        if invalid.Some? then Denied(invalid.value) else WithToken(f, keyId, found.value, stamped)
    else if f.timeout.Some? then Panicked
    else Grant(f, keyId, None, if f.sids != [] then OpAuthRequired else NoDeferredAuth)
  }

  datatype Request = Request(purpose: Purpose, key: Option<(int, seq<Param>)>, hasNonce: bool, stamped: bool)

  function Authorize(r: Request, env: Env): Decision {
    if r.key.None? then Granted(None, NoDeferredAuth, None, false)
    else
      var (keyId, ps) := r.key.value;
      var unfit := PurposeError(ps, r.purpose);
      if unfit.Some? then Denied(unfit.value)
      else
        var untimely := FirstViolation(ps, r.purpose, env.wallClock);
        if untimely.Some? then Denied(untimely.value)
        else
          var f := FactsOf(ps, r.purpose);
          var objection := Objection(f, r.purpose, r.hasNonce, env);
          if objection.Some? then Denied(objection.value) else Decide(f, keyId, r.stamped, env)
  }

  // ---------------------------------------------------------------- as the program computes it

  method CheckPurpose(ps: seq<Param>, purpose: Purpose) returns (e: Option<ErrorCode>)
    ensures e == PurposeError(ps, purpose)
  {
    if purpose == WrapKey {
      return Some(IncompatiblePurpose);
    }
    if purpose == OtherPurpose {
      return Some(UnsupportedPurpose);
    }
    var i := 0;
    while i < |ps|
      invariant 0 <= i <= |ps|
      invariant forall j :: 0 <= j < i ==> !ForbidsPurpose(ps[j], purpose)
    {
      if ForbidsPurpose(ps[i], purpose) {
        return Some(UnsupportedPurpose);
      }
      i := i + 1;
    }
    e := None;
  }

  /** One pass over the parameters: stop at the first one the time forbids, else note what is needed later. */
  method ReadParams(ps: seq<Param>, purpose: Purpose, clock: Option<nat>) returns (e: Option<ErrorCode>, f: Facts)
    ensures e == FirstViolation(ps, purpose, clock)
    ensures e.None? ==> f == FactsOf(ps, purpose)
  {
    f := NO_FACTS;
    var i := 0;
    while i < |ps|
      invariant 0 <= i <= |ps|
      invariant forall j :: 0 <= j < i ==> TimeViolation(ps[j], purpose, clock).None?
      invariant f == FactsOf(ps[..i], purpose)
    {
      var violation := TimeViolation(ps[i], purpose, clock);
      if violation.Some? {
        FirstIs(ps, purpose, clock, i);
        return violation, f;
      }
      assert ps[..i + 1][..i] == ps[..i];
      f := Note(f, ps[i], purpose);
      i := i + 1;
    }
    assert ps[..i] == ps;
    e := None;
  }

  lemma {:induction false} FirstIs(ps: seq<Param>, purpose: Purpose, clock: Option<nat>, i: nat)
    requires i < |ps| && TimeViolation(ps[i], purpose, clock).Some?
    requires forall j :: 0 <= j < i ==> TimeViolation(ps[j], purpose, clock).None?
    ensures FirstViolation(ps, purpose, clock) == TimeViolation(ps[i], purpose, clock)
  {
    if i < |ps| - 1 {
      FirstIs(ps[..|ps| - 1], purpose, clock, i);
    }
  }

  method AuthorizeCreate(r: Request, env: Env) returns (d: Decision)
    ensures d == Authorize(r, env)
  {
    if r.key.None? {
      return Granted(None, NoDeferredAuth, None, false);
    }
    var (keyId, ps) := r.key.value;
    var e := CheckPurpose(ps, r.purpose);
    if e.Some? {
      return Denied(e.value);
    }
    var f;
    e, f := ReadParams(ps, r.purpose, env.wallClock);
    if e.Some? {
      return Denied(e.value);
    }
    e := Objection(f, r.purpose, r.hasNonce, env);
    if e.Some? {
      return Denied(e.value);
    }
    d := Decide(f, keyId, r.stamped, env);
  }

  // ---------------------------------------------------------------- when an operation may begin

  /** The token is young enough, or it was received after the device was last off the body. */
  ghost predicate Fresh(f: Facts, env: Env, e: TokenEntry) {
    f.timeout.Some? ==> TruncDiv(env.now - e.received, 1000) <= f.timeout.value || OnBodyExtended(f, env, e)
  }

  ghost predicate Admissible(r: Request, env: Env)
    requires r.key.Some?
  {
    var ps := r.key.value.1;
    && PurposeError(ps, r.purpose).None?
    && (forall i :: 0 <= i < |ps| ==> TimeViolation(ps[i], r.purpose, env.wallClock).None?)
    && Objection(FactsOf(ps, r.purpose), r.purpose, r.hasNonce, env).None?
  }

  /** Some token stands for the user and is fresh enough to be used by its age. */
  ghost predicate UserPresent(f: Facts, env: Env) {
    exists i :: 0 <= i < |env.tokens| && Matches(f, env.tokens[i]) && CheckedSub(env.now, env.tokens[i].received).Some?
                && Fresh(f, env, env.tokens[i])
  }

  lemma DivMonotone(a: int, b: int)
    requires a <= b
    ensures TruncDiv(a, 1000) <= TruncDiv(b, 1000)
  {
  }

  /** Looking at the newest token alone is as good as looking at all of them. */
  lemma NewestDecides(f: Facts, env: Env)
    requires SaneTimes(env) && f.timeout.Some?
    ensures UserPresent(f, env) <==> FindToken(f, env).Some? && Validate(f, env, FindToken(f, env).value).None?
  {
    var found := FindToken(f, env);
    if UserPresent(f, env) {
      var i :| 0 <= i < |env.tokens| && Matches(f, env.tokens[i]) && CheckedSub(env.now, env.tokens[i].received).Some?
               && Fresh(f, env, env.tokens[i]);
      assert found.Some? && env.tokens[i].received <= found.value.received;
      DivMonotone(env.now - found.value.received, env.now - env.tokens[i].received);
    }
    if found.Some? && Validate(f, env, found.value).None? {
      var i :| 0 <= i < |env.tokens| && env.tokens[i] == found.value;
      assert Matches(f, env.tokens[i]) && Fresh(f, env, env.tokens[i]);
    }
  }

  /** A key bound to users and to a timeout may be used exactly while one of its users is present. */
  lemma TimeoutBoundIff(r: Request, env: Env)
    requires SaneTimes(env) && r.key.Some?
    requires var f := FactsOf(r.key.value.1, r.purpose); f.sids != [] && f.timeout.Some?
    ensures Authorize(r, env).Granted? <==>
              Admissible(r, env) && UserPresent(FactsOf(r.key.value.1, r.purpose), env)
  {
    NewestDecides(FactsOf(r.key.value.1, r.purpose), env);
  }

  /** The token shown for such a key is one of its users', of an accepted kind and fresh. */
  lemma TimeoutBoundToken(r: Request, env: Env)
    requires r.key.Some? && Authorize(r, env).Granted?
    requires var f := FactsOf(r.key.value.1, r.purpose); f.sids != [] && f.timeout.Some?
    ensures var d := Authorize(r, env);
            var f := FactsOf(r.key.value.1, r.purpose);
            && d.immediate.Some?
            && d.deferred == (if r.stamped then TimeStampRequired(d.immediate.value) else NoDeferredAuth)
            && exists e :: e in env.tokens && e.token == d.immediate.value && Fresh(f, env, e)
                           && f.authType.Some? && Satisfies(e, f.sids, f.authType.value)
  {
    var f := FactsOf(r.key.value.1, r.purpose);
    var e := FindToken(f, env).value;
    assert e in env.tokens && Matches(f, e) && Fresh(f, env, e);
  }

  /** A key bound to users without a timeout always leaves an authorisation of the operation itself to be awaited. */
  lemma PerOperationBound(r: Request, env: Env)
    requires r.key.Some? && Authorize(r, env).Granted?
    requires exists s :: UserSecureID(s) in r.key.value.1
    requires forall t :: AuthTimeout(t) !in r.key.value.1
    ensures var d := Authorize(r, env);
            var ps := r.key.value.1;
            && (d.deferred == if r.stamped && UnlockedDeviceRequired in ps then TimeStampedOpAuthRequired
                              else OpAuthRequired)
            && (d.immediate.Some? <==> !r.stamped && UnlockedDeviceRequired in ps)
  {
    var ps := r.key.value.1;
    FactsMean(ps, r.purpose);
    var f := FactsOf(ps, r.purpose);
    var s :| UserSecureID(s) in ps;
    assert s in f.sids;
  }

  /** A key without users needs no deferred authorisation, and no token either unless the device must be unlocked. */
  lemma UnboundKeys(r: Request, env: Env)
    requires r.key.Some? && Authorize(r, env).Granted?
    requires forall s :: UserSecureID(s) !in r.key.value.1
    ensures var d := Authorize(r, env);
            && !d.deferred.OpAuthRequired? && !d.deferred.TimeStampedOpAuthRequired?
            && (d.immediate.Some? <==> UnlockedDeviceRequired in r.key.value.1)
  {
    var ps := r.key.value.1;
    FactsMean(ps, r.purpose);
  }

  /** The use counter and the confirmation channel are attached exactly when the key asks for them. */
  lemma Attachments(r: Request, env: Env)
    requires r.key.Some? && Authorize(r, env).Granted?
    ensures var d := Authorize(r, env);
            && d.usageLimited == (if Param.UsageCountLimit in r.key.value.1 then Some(r.key.value.0) else None)
            && (d.confirmation <==> TrustedConfirmationRequired in r.key.value.1)
  {
    FactsMean(r.key.value.1, r.purpose);
  }

  // ---------------------------------------------------------------- the unreachable arm

  /** The arm that is said not to be reachable is reached exactly by a timeout without anything it could bound. */
  lemma PanicsIff(r: Request, env: Env)
    requires r.key.Some?
    ensures Authorize(r, env).Panicked? <==>
              var ps := r.key.value.1;
              && Admissible(r, env)
              && (exists t :: AuthTimeout(t) in ps)
              && (forall s :: UserSecureID(s) !in ps)
              && NoAuthRequired !in ps
              && UnlockedDeviceRequired !in ps
  {
    var ps := r.key.value.1;
    FactsMean(ps, r.purpose);
  }

  /** A signing key with a timeout and nothing else. */
  lemma PanicExample(env: Env)
    ensures Authorize(Request(Sign, Some((1, [KeyPurpose(Sign), AuthTimeout(10)])), false, false), env).Panicked?
  {
    var ps := [KeyPurpose(Sign), AuthTimeout(10)];
    var r := Request(Sign, Some((1, ps)), false, false);
    assert ps[..1] == [KeyPurpose(Sign)];
    assert FactsOf([KeyPurpose(Sign)], Sign) == NO_FACTS.(purposeAuthorized := true);
    assert AuthTimeout(10) in ps;
    assert Admissible(r, env);
    PanicsIff(r, env);
  }

  // ---------------------------------------------------------------- super encryption

  datatype SuperEncryption = NoSuperEncryption | LskfBound | ScreenLockBound | BootLevel(level: int)

  function Candidate(p: Param, domain: Domain): (int, SuperEncryption) {
    if p.MaxBootLevel? then (3, BootLevel(p.level))
    else if p.UnlockedDeviceRequired? && domain == APP then (2, ScreenLockBound)
    else if p.UserSecureID? && domain == APP then (1, LskfBound)
    else (0, NoSuperEncryption)
  }

  ghost predicate HasSid(ps: seq<Param>) {
    exists i :: 0 <= i < |ps| && ps[i].UserSecureID?
  }

  ghost predicate HasBootLevel(ps: seq<Param>) {
    exists i :: 0 <= i < |ps| && ps[i].MaxBootLevel?
  }

  /** A boot level wins, and the first one does; then the screen lock; then the lock screen knowledge factor. */
  method SuperEncryptionRequired(domain: Domain, ps: seq<Param>, optedOut: bool) returns (r: SuperEncryption)
    ensures optedOut ==> r == NoSuperEncryption
    ensures !optedOut ==>
              && (r.BootLevel? <==> HasBootLevel(ps))
              && (r.BootLevel? ==> exists i :: 0 <= i < |ps| && ps[i] == Param.MaxBootLevel(r.level)
                                              && forall j :: 0 <= j < i ==> !ps[j].MaxBootLevel?)
              && (r.ScreenLockBound? <==> !HasBootLevel(ps) && domain == APP && UnlockedDeviceRequired in ps)
              && (r.LskfBound? <==> !HasBootLevel(ps) && domain == APP && UnlockedDeviceRequired !in ps && HasSid(ps))
  {
    if optedOut {
      return NoSuperEncryption;
    }
    var priority := 0;
    r := NoSuperEncryption;
    var i := 0;
    ghost var k := 0;
    while i < |ps|
      invariant 0 <= i <= |ps|
      invariant forall j :: 0 <= j < i ==> Candidate(ps[j], domain).0 <= priority
      invariant priority == 0 ==> r == NoSuperEncryption
      invariant priority > 0 ==> 0 <= k < i && (priority, r) == Candidate(ps[k], domain)
      invariant priority > 0 ==> forall j :: 0 <= j < k ==> Candidate(ps[j], domain).0 < priority
      invariant 0 <= priority <= 3
    {
      var t := Candidate(ps[i], domain);
      if t.0 > priority {
        priority, r := t.0, t.1;
        k := i;
      }
      i := i + 1;
    }
    if r.BootLevel? {
      assert ps[k] == Param.MaxBootLevel(r.level);
      assert forall j :: 0 <= j < k && ps[j].MaxBootLevel? ==> Candidate(ps[j], domain).0 == 3;
    }
    assert forall j :: 0 <= j < |ps| && ps[j].MaxBootLevel? ==> Candidate(ps[j], domain).0 == 3;
    assert forall j :: 0 <= j < |ps| && ps[j].UnlockedDeviceRequired? && domain == APP ==>
             Candidate(ps[j], domain).0 == 2;
    assert forall j :: 0 <= j < |ps| && ps[j].UserSecureID? && domain == APP ==> Candidate(ps[j], domain).0 == 1;
  }

  // ---------------------------------------------------------------- tokens for credentials

  predicate Younger(env: Env, e: TokenEntry, maxAge: int) {
    var age := CheckedSub(env.now, e.received);
    age.Some? && maxAge > age.value
  }

  const ANY_AUTHENTICATOR: bv32 := 0xffff_ffff

  /** A token for a challenge, or else one that is young enough. */
  function TokenFor(env: Env, challenge: int, sid: int, maxAge: int): Option<AuthToken> {
    var exact := Newest(env.tokens,
                        (e: TokenEntry) => challenge == e.token.challenge && Satisfies(e, [sid], ANY_AUTHENTICATOR));
    if exact.Some? then Some(exact.value.token)
    else if maxAge == 0 then None
    else
      var young := Newest(env.tokens,
                          (e: TokenEntry) => Younger(env, e, maxAge) && Satisfies(e, [sid], ANY_AUTHENTICATOR));
      if young.Some? then Some(young.value.token) else None
  }

  /** The token together with a time stamp from the secure clock, which may fail to give one. */
  function TokensFor(env: Env, challenge: int, sid: int, maxAge: int, stamp: Option<int>): Option<(AuthToken, int)> {
    var token := TokenFor(env, challenge, sid, maxAge);
    if token.Some? && stamp.Some? then Some((token.value, stamp.value)) else None
  }

  ghost predicate Usable(env: Env, e: TokenEntry, challenge: int, sid: int, maxAge: int) {
    && (sid == e.token.userId || sid == e.token.authenticatorId)
    && e.token.authenticatorType != 0
    && (challenge == e.token.challenge
        || (maxAge != 0 && env.now - e.received < maxAge
            && -0x8000_0000_0000_0000 <= env.now - e.received <= 0x7fff_ffff_ffff_ffff))
  }

  /** A usable token for the challenge comes first, and else the newest usable one. */
  ghost predicate Best(env: Env, e: TokenEntry, challenge: int, sid: int, maxAge: int) {
    && e in env.tokens && Usable(env, e, challenge, sid, maxAge)
    && forall d :: d in env.tokens && Usable(env, d, challenge, sid, maxAge) ==>
         if d.token.challenge == challenge then e.token.challenge == challenge && d.received <= e.received
         else e.token.challenge == challenge || d.received <= e.received
  }

  lemma AnyAuthenticator(e: TokenEntry, sid: int)
    ensures Satisfies(e, [sid], ANY_AUTHENTICATOR) <==>
              (sid == e.token.userId || sid == e.token.authenticatorId) && e.token.authenticatorType != 0
  {
    AllOnes(e.token.authenticatorType);
    if (sid == e.token.userId || sid == e.token.authenticatorId) && e.token.authenticatorType != 0 {
      assert [sid][0] == sid;
    }
  }

  /** A token is found exactly if one is usable, and it is the best of them. */
  lemma TokenIsBest(env: Env, challenge: int, sid: int, maxAge: int)
    ensures var r := TokenFor(env, challenge, sid, maxAge);
            && (r.Some? <==> exists e :: e in env.tokens && Usable(env, e, challenge, sid, maxAge))
            && (r.Some? ==> exists e :: Best(env, e, challenge, sid, maxAge) && e.token == r.value)
  {
    var exact := (e: TokenEntry) => challenge == e.token.challenge && Satisfies(e, [sid], ANY_AUTHENTICATOR);
    var young := (e: TokenEntry) => Younger(env, e, maxAge) && Satisfies(e, [sid], ANY_AUTHENTICATOR);
    var first, second := Newest(env.tokens, exact), Newest(env.tokens, young);
    forall d | d in env.tokens && Usable(env, d, challenge, sid, maxAge)
      ensures d.token.challenge == challenge ==> first.Some? && d.received <= first.value.received
      ensures d.token.challenge != challenge ==> maxAge != 0 && second.Some? && d.received <= second.value.received
    {
      AnyAuthenticator(d, sid);
      var i :| 0 <= i < |env.tokens| && env.tokens[i] == d;
      assert exact(env.tokens[i]) || (maxAge != 0 && young(env.tokens[i]));
    }
    if TokenFor(env, challenge, sid, maxAge).Some? {
      var found := if first.Some? then first.value else second.value;
      AnyAuthenticator(found, sid);
      assert Best(env, found, challenge, sid, maxAge);
    }
  }

  /**
   There is an answer exactly when some token is usable and the clock gives a time stamp; it is the newest token with
   the challenge, or else the newest one that is young enough.
   */
  lemma TokensForIff(env: Env, challenge: int, sid: int, maxAge: int, stamp: Option<int>)
    ensures var r := TokensFor(env, challenge, sid, maxAge, stamp);
            && (r.Some? <==> stamp.Some? && exists e :: e in env.tokens && Usable(env, e, challenge, sid, maxAge))
            && (r.Some? ==>
                  && Some(r.value.1) == stamp
                  && exists e :: Best(env, e, challenge, sid, maxAge) && e.token == r.value.0)
  {
    TokenIsBest(env, challenge, sid, maxAge);
  }

  lemma AllOnes(x: bv32)
    ensures ANY_AUTHENTICATOR & x == x
  {
  }
}
