/**
 The rules of authorisation, said in terms of the key's parameters, the request and the device alone, and the
 decision shown to follow them: when an operation may begin, with which tokens, and else with which error.
 */
module AuthorizationRules {
  import opened KeystoreTypes
  import opened Enforcements

  // ---------------------------------------------------------------- the rules

  ghost predicate BoundToUsers(ps: seq<Param>) {
    exists s :: UserSecureID(s) in ps
  }

  ghost predicate HasTimeout(ps: seq<Param>) {
    exists t :: AuthTimeout(t) in ps
  }

  /** Key agreement is for EC keys, and public operations are not for asymmetric ones. */
  ghost predicate PurposeFits(ps: seq<Param>, purpose: Purpose) {
    && purpose in {Encrypt, Decrypt, Sign, Verify, AgreeKey}
    && (purpose == AgreeKey ==> forall a :: KeyAlgorithm(a) in ps ==> a == EC)
    && (purpose in {Verify, Encrypt} ==> KeyAlgorithm(RSA) !in ps && KeyAlgorithm(EC) !in ps)
  }

  /** A date before 1970 counts as one in the far future. */
  ghost predicate NotBefore(time: nat, date: int) {
    if date >= 0 then time >= date else time >= 0x1_0000_0000_0000_0000_0000_0000_0000_0000 + date
  }

  ghost predicate NotAfter(time: nat, date: int) {
    if date >= 0 then time <= date else time <= 0x1_0000_0000_0000_0000_0000_0000_0000_0000 + date
  }

  /** Without a clock a key with a start date is not valid yet, and no key has expired. */
  ghost predicate Timely(p: Param, purpose: Purpose, clock: Option<nat>) {
    match p
    case ActiveDateTime(a) => clock.Some? && NotBefore(clock.value, a)
    case OriginationExpireDateTime(o) => purpose in {Encrypt, Sign} && clock.Some? ==> NotAfter(clock.value, o)
    case UsageExpireDateTime(u) => purpose in {Decrypt, Verify} && clock.Some? ==> NotAfter(clock.value, u)
    case _ => true
  }

  ghost predicate AllTimely(ps: seq<Param>, purpose: Purpose, clock: Option<nat>) {
    forall i :: 0 <= i < |ps| ==> Timely(ps[i], purpose, clock)
  }

  ghost predicate NonceAllowed(ps: seq<Param>, purpose: Purpose, hasNonce: bool) {
    purpose in {Encrypt, Sign} && hasNonce ==> CallerNonce in ps
  }

  ghost predicate DeviceReady(ps: seq<Param>, env: Env) {
    UnlockedDeviceRequired in ps ==> LastUser(ps) in env.unlockedUsers
  }

  ghost predicate BootLevelReached(ps: seq<Param>, env: Env) {
    LastLevel(ps).Some? ==> env.accessible(LastLevel(ps).value)
  }

  /** Secure ids and kinds of authenticators are given together or not at all. */
  ghost predicate Consistent(ps: seq<Param>) {
    BoundToUsers(ps) <==> exists a :: AuthenticatorType(a) in ps
  }

  /** Everything but the presence of the user. */
  ghost predicate Fit(r: Request, env: Env)
    requires r.key.Some?
  {
    var ps := r.key.value.1;
    && PurposeFits(ps, r.purpose)
    && AllTimely(ps, r.purpose, env.wallClock)
    && KeyPurpose(r.purpose) in ps
    && !(BoundToUsers(ps) && NoAuthRequired in ps)
    && Consistent(ps)
    && NonceAllowed(ps, r.purpose, r.hasNonce)
    && DeviceReady(ps, env)
    && BootLevelReached(ps, env)
  }

  ghost predicate NeedsUser(ps: seq<Param>) {
    UnlockedDeviceRequired in ps || (BoundToUsers(ps) && HasTimeout(ps))
  }

  /** The token is of one of the key's users and of the last kind given; any token will do for a key without users. */
  ghost predicate Stands(ps: seq<Param>, e: TokenEntry) {
    BoundToUsers(ps) ==>
      && (UserSecureID(e.token.userId) in ps || UserSecureID(e.token.authenticatorId) in ps)
      && LastAuthenticator(ps).Some? && LastAuthenticator(ps).value & e.token.authenticatorType != 0
  }

  /** Whole seconds, a begun one not counted. */
  ghost predicate WithinSeconds(millis: int, seconds: int) {
    if seconds >= 0 then millis < (seconds + 1) * 1000 else millis <= seconds * 1000
  }

  ghost predicate AgeIsKnown(env: Env, e: TokenEntry) {
    -0x8000_0000_0000_0000 <= env.now - e.received <= 0x7fff_ffff_ffff_ffff
  }

  /** The token is within the last timeout given, or the device has been worn since if that is allowed. */
  ghost predicate YoungEnough(ps: seq<Param>, env: Env, e: TokenEntry) {
    LastTimeout(ps).Some? ==>
      && AgeIsKnown(env, e)
      && (|| WithinSeconds(env.now - e.received, LastTimeout(ps).value)
          || (AllowWhileOnBody in ps && env.lastOffBody < e.received))
  }

  ghost predicate Authenticated(ps: seq<Param>, env: Env) {
    exists i :: 0 <= i < |env.tokens| && Stands(ps, env.tokens[i]) && YoungEnough(ps, env, env.tokens[i])
  }

  // ---------------------------------------------------------------- what one pass over the parameters finds

  /** The facts noted are the ones the rules speak of. */
  ghost predicate Tells(f: Facts, ps: seq<Param>, purpose: Purpose) {
    && FlagsAgree(f, ps, purpose)
    && (f.sids != [] <==> BoundToUsers(ps))
    && (forall s :: s in f.sids <==> UserSecureID(s) in ps)
    && (f.timeout.Some? <==> HasTimeout(ps))
    && f.timeout == LastTimeout(ps)
    && (f.authType.Some? <==> exists a :: AuthenticatorType(a) in ps)
    && f.authType == LastAuthenticator(ps)
    && f.bootLevel == LastLevel(ps)
    && f.userId == LastUser(ps)
  }

  lemma SidsAre(ps: seq<Param>, purpose: Purpose)
    ensures var f := FactsOf(ps, purpose);
            && FlagsAgree(f, ps, purpose)
            && (f.sids != [] <==> BoundToUsers(ps))
            && (forall s :: s in f.sids <==> UserSecureID(s) in ps)
            && (f.timeout.Some? <==> HasTimeout(ps))
            && (f.authType.Some? <==> exists a :: AuthenticatorType(a) in ps)
  {
    FactsMean(ps, purpose);
  }

  lemma FactsTell(ps: seq<Param>, purpose: Purpose)
    ensures Tells(FactsOf(ps, purpose), ps, purpose)
  {
    SidsAre(ps, purpose);
    LastValuesNoted(ps, purpose);
  }

  /** The decision, from what the pass over the parameters finds. */
  lemma Steps(r: Request, env: Env) returns (f: Facts)
    requires r.key.Some?
    ensures Tells(f, r.key.value.1, r.purpose)
    ensures var (keyId, ps) := r.key.value;
            var unfit, untimely := PurposeError(ps, r.purpose), FirstViolation(ps, r.purpose, env.wallClock);
            var objection := Objection(f, r.purpose, r.hasNonce, env);
            && Authorize(r, env) == (if unfit.Some? then Denied(unfit.value)
                                     else if untimely.Some? then Denied(untimely.value)
                                     else if objection.Some? then Denied(objection.value)
                                     else Decide(f, keyId, r.stamped, env))
            && (Admissible(r, env) <==> unfit.None? && untimely.None? && objection.None?)
  {
    f := FactsOf(r.key.value.1, r.purpose);
    FactsTell(r.key.value.1, r.purpose);
  }

  // ---------------------------------------------------------------- the checks follow the rules

  lemma PurposeErrorIff(ps: seq<Param>, purpose: Purpose)
    ensures PurposeError(ps, purpose).None? <==> PurposeFits(ps, purpose)
    ensures PurposeError(ps, purpose).Some? ==>
              PurposeError(ps, purpose).value == if purpose == WrapKey then IncompatiblePurpose else UnsupportedPurpose
  {
    if i :| 0 <= i < |ps| && ForbidsPurpose(ps[i], purpose) {
      assert ps[i] == KeyAlgorithm(ps[i].algorithm) && ps[i] in ps;
    } else {
      forall a | KeyAlgorithm(a) in ps
        ensures !ForbidsPurpose(KeyAlgorithm(a), purpose)
      {
        var i :| 0 <= i < |ps| && ps[i] == KeyAlgorithm(a);
        assert !ForbidsPurpose(ps[i], purpose);
      }
    }
  }

  lemma TimelyIff(p: Param, purpose: Purpose, clock: Option<nat>)
    ensures TimeViolation(p, purpose, clock).None? <==> Timely(p, purpose, clock)
    ensures TimeViolation(p, purpose, clock).Some? ==>
              TimeViolation(p, purpose, clock).value == if p.ActiveDateTime? then KeyNotYetValid else KeyExpired
  {
  }

  lemma UntimelyIff(ps: seq<Param>, purpose: Purpose, clock: Option<nat>)
    ensures FirstViolation(ps, purpose, clock).None? <==> AllTimely(ps, purpose, clock)
  {
    forall i | 0 <= i < |ps|
      ensures TimeViolation(ps[i], purpose, clock).None? <==> Timely(ps[i], purpose, clock)
    {
      TimelyIff(ps[i], purpose, clock);
    }
  }

  /** The errors of the checks after the dates, in the order in which they are made. */
  ghost function FirstObjection(r: Request, env: Env): Option<ErrorCode>
    requires r.key.Some?
  {
    var ps := r.key.value.1;
    if KeyPurpose(r.purpose) !in ps then Some(IncompatiblePurpose)
    else if BoundToUsers(ps) && NoAuthRequired in ps then Some(ErrorCode.InvalidKeyBlob)
    else if !Consistent(ps) then Some(KeyUserNotAuthenticated)
    else if !NonceAllowed(ps, r.purpose, r.hasNonce) then Some(CallerNonceProhibited)
    else if !DeviceReady(ps, env) then Some(DeviceLocked)
    else if !BootLevelReached(ps, env) then Some(BootLevelExceeded)
    else None
  }

  lemma ObjectionIs(r: Request, env: Env, f: Facts)
    requires r.key.Some? && Tells(f, r.key.value.1, r.purpose)
    ensures Objection(f, r.purpose, r.hasNonce, env) == FirstObjection(r, env)
  {
  }

  /** The checks other than that of the user pass exactly for a fit request. */
  lemma AdmissibleIff(r: Request, env: Env)
    requires r.key.Some?
    ensures Admissible(r, env) <==> Fit(r, env)
  {
    var f := Steps(r, env);
    PurposeErrorIff(r.key.value.1, r.purpose);
    UntimelyIff(r.key.value.1, r.purpose, env.wallClock);
    ObjectionIs(r, env, f);
  }

  // ---------------------------------------------------------------- the decision follows the rules

  lemma SatisfiesIff(e: TokenEntry, sids: seq<int>, mask: bv32)
    ensures Satisfies(e, sids, mask) <==>
              (e.token.userId in sids || e.token.authenticatorId in sids) && mask & e.token.authenticatorType != 0
  {
    var kind := mask & e.token.authenticatorType != 0;
    if kind {
      OneOf(sids, e.token.userId, e.token.authenticatorId);
    }
  }

  lemma OneOf(sids: seq<int>, a: int, b: int)
    ensures (exists i :: 0 <= i < |sids| && (sids[i] == a || sids[i] == b)) <==> a in sids || b in sids
  {
  }

  lemma StandsIff(f: Facts, ps: seq<Param>, purpose: Purpose, e: TokenEntry)
    requires Tells(f, ps, purpose) && NeedsUser(ps) && Consistent(ps)
    ensures Matches(f, e) <==> Stands(ps, e)
  {
    if BoundToUsers(ps) {
      assert e.token.userId in f.sids <==> UserSecureID(e.token.userId) in ps;
      assert e.token.authenticatorId in f.sids <==> UserSecureID(e.token.authenticatorId) in ps;
      BoundStandsIff(f.sids, f.authType.value, ps, e);
    }
  }

  lemma BoundStandsIff(sids: seq<int>, mask: bv32, ps: seq<Param>, e: TokenEntry)
    requires BoundToUsers(ps) && LastAuthenticator(ps) == Some(mask)
    requires e.token.userId in sids <==> UserSecureID(e.token.userId) in ps
    requires e.token.authenticatorId in sids <==> UserSecureID(e.token.authenticatorId) in ps
    ensures Satisfies(e, sids, mask) <==> Stands(ps, e)
  {
    SatisfiesIff(e, sids, mask);
  }

  lemma SecondsAgree(millis: int, seconds: int)
    ensures TruncDiv(millis, 1000) <= seconds <==> WithinSeconds(millis, seconds)
  {
  }

  lemma YoungIff(f: Facts, ps: seq<Param>, purpose: Purpose, env: Env, e: TokenEntry)
    requires Tells(f, ps, purpose)
    ensures Validate(f, env, e).None? <==> YoungEnough(ps, env, e)
    ensures Validate(f, env, e).Some? ==>
              Validate(f, env, e).value == if AgeIsKnown(env, e) then KeyUserNotAuthenticated else System
  {
    if f.timeout.Some? {
      SecondsAgree(env.now - e.received, f.timeout.value);
    }
  }

  /** The newest of the tokens that stand for the user. */
  ghost predicate NewestFor(ps: seq<Param>, env: Env, e: TokenEntry) {
    && e in env.tokens && Stands(ps, e)
    && forall i :: 0 <= i < |env.tokens| && Stands(ps, env.tokens[i]) ==> env.tokens[i].received <= e.received
  }

  lemma FoundIsNewest(f: Facts, ps: seq<Param>, purpose: Purpose, env: Env)
    requires Tells(f, ps, purpose) && NeedsUser(ps) && Consistent(ps)
    ensures FindToken(f, env).Some? ==> NewestFor(ps, env, FindToken(f, env).value)
    ensures FindToken(f, env).None? <==> forall i :: 0 <= i < |env.tokens| ==> !Stands(ps, env.tokens[i])
  {
    var found := FindToken(f, env);
    if found.Some? {
      StandsIff(f, ps, purpose, found.value);
    }
    forall i | 0 <= i < |env.tokens|
      ensures Matches(f, env.tokens[i]) <==> Stands(ps, env.tokens[i])
    {
      StandsIff(f, ps, purpose, env.tokens[i]);
    }
  }

  /** If any token that stands for the user is young enough, the newest one is. */
  lemma NewestIsYoung(f: Facts, ps: seq<Param>, purpose: Purpose, env: Env, e: TokenEntry)
    requires SaneTimes(env) && Tells(f, ps, purpose) && NewestFor(ps, env, e)
    ensures Authenticated(ps, env) <==> YoungEnough(ps, env, e)
  {
    if i :| 0 <= i < |env.tokens| && Stands(ps, env.tokens[i]) && YoungEnough(ps, env, env.tokens[i]) {
      NewerIsYounger(f, ps, purpose, env, env.tokens[i], e);
    }
    if YoungEnough(ps, env, e) {
      var i :| 0 <= i < |env.tokens| && env.tokens[i] == e;
    }
  }

  lemma NewerIsYounger(f: Facts, ps: seq<Param>, purpose: Purpose, env: Env, d: TokenEntry, e: TokenEntry)
    requires SaneTimes(env) && Tells(f, ps, purpose) && e in env.tokens && d in env.tokens
    requires d.received <= e.received && YoungEnough(ps, env, d)
    ensures YoungEnough(ps, env, e)
  {
  }

  /**
   An operation may begin exactly if the request is fit and some token received stands for the user and is young
   enough, or the key needs no user; a timeout on such a key then needs NO_AUTH_REQUIRED beside it.
   */
  lemma GrantedIff(r: Request, env: Env)
    requires SaneTimes(env) && r.key.Some?
    ensures var ps := r.key.value.1;
            Authorize(r, env).Granted? <==>
              && Fit(r, env)
              && (if NeedsUser(ps) then Authenticated(ps, env) else HasTimeout(ps) ==> NoAuthRequired in ps)
  {
    var ps := r.key.value.1;
    var f := Steps(r, env);
    AdmissibleIff(r, env);
    if Fit(r, env) {
      DecideIff(f, ps, r, env);
    }
  }

  lemma DecideIff(f: Facts, ps: seq<Param>, r: Request, env: Env)
    requires SaneTimes(env) && Tells(f, ps, r.purpose) && Consistent(ps)
    requires !(BoundToUsers(ps) && NoAuthRequired in ps) && r.key.Some?
    ensures Decide(f, r.key.value.0, r.stamped, env).Granted? <==>
              if NeedsUser(ps) then Authenticated(ps, env) else HasTimeout(ps) ==> NoAuthRequired in ps
  {
    if NeedsUser(ps) {
      FoundIsNewest(f, ps, r.purpose, env);
      var found := FindToken(f, env);
      if found.Some? {
        NewestIsYoung(f, ps, r.purpose, env, found.value);
        YoungIff(f, ps, r.purpose, env, found.value);
      }
    }
  }

  /** What an operation that may begin is given, and what is left to be awaited. */
  ghost predicate GivenWith(r: Request, d: Decision, token: Option<AuthToken>)
    requires r.key.Some? && d.Granted?
  {
    var ps := r.key.value.1;
    var perOp := BoundToUsers(ps) && !HasTimeout(ps);
    && (d.immediate == if r.stamped && perOp then None else token)
    && (d.deferred == if perOp then (if token.Some? && r.stamped then TimeStampedOpAuthRequired else OpAuthRequired)
                      else if token.Some? && r.stamped then TimeStampRequired(token.value)
                      else NoDeferredAuth)
    && (d.usageLimited == if Param.UsageCountLimit in ps then Some(r.key.value.0) else None)
    && (d.confirmation <==> TrustedConfirmationRequired in ps)
  }

  /** The token is the newest that stands for the user, for a key that needs one, and young enough. */
  lemma GrantedWith(r: Request, env: Env)
    requires r.key.Some? && Authorize(r, env).Granted?
    ensures var ps := r.key.value.1;
            if NeedsUser(ps) then
              exists e :: NewestFor(ps, env, e) && YoungEnough(ps, env, e)
                          && GivenWith(r, Authorize(r, env), Some(e.token))
            else GivenWith(r, Authorize(r, env), None)
  {
    var ps := r.key.value.1;
    var f := Steps(r, env);
    AdmissibleIff(r, env);
    if NeedsUser(ps) {
      FoundIsNewest(f, ps, r.purpose, env);
      var e := FindToken(f, env).value;
      YoungIff(f, ps, r.purpose, env, e);
      assert GivenWith(r, Authorize(r, env), Some(e.token));
    }
  }

  /** The first check that fails gives the error: the purpose, the first date out of time, then the others in turn. */
  lemma DeniedInOrder(r: Request, env: Env)
    requires r.key.Some?
    ensures var ps := r.key.value.1;
            && (!PurposeFits(ps, r.purpose) ==>
                  Authorize(r, env) == Denied(if r.purpose == WrapKey then IncompatiblePurpose else UnsupportedPurpose))
            && (PurposeFits(ps, r.purpose) && AllTimely(ps, r.purpose, env.wallClock)
                && FirstObjection(r, env).Some? ==>
                  Authorize(r, env) == Denied(FirstObjection(r, env).value))
  {
    var f := Steps(r, env);
    PurposeErrorIff(r.key.value.1, r.purpose);
    UntimelyIff(r.key.value.1, r.purpose, env.wallClock);
    ObjectionIs(r, env, f);
  }

  lemma FirstDateDecides(r: Request, env: Env, i: nat)
    requires r.key.Some? && PurposeFits(r.key.value.1, r.purpose) && i < |r.key.value.1|
    requires var ps := r.key.value.1;
             !Timely(ps[i], r.purpose, env.wallClock) && AllTimely(ps[..i], r.purpose, env.wallClock)
    ensures Authorize(r, env) == Denied(if r.key.value.1[i].ActiveDateTime? then KeyNotYetValid else KeyExpired)
  {
    var ps := r.key.value.1;
    PurposeErrorIff(ps, r.purpose);
    TimelyIff(ps[i], r.purpose, env.wallClock);
    forall j | 0 <= j < i
      ensures TimeViolation(ps[j], r.purpose, env.wallClock).None?
    {
      assert ps[..i][j] == ps[j];
      TimelyIff(ps[j], r.purpose, env.wallClock);
    }
    FirstIs(ps, r.purpose, env.wallClock, i);
  }

  /** A fit request is denied for want of a user, or because the age of the newest token cannot be told. */
  lemma DeniedForWantOfUser(r: Request, env: Env)
    requires SaneTimes(env) && r.key.Some? && Fit(r, env) && NeedsUser(r.key.value.1)
    requires !Authenticated(r.key.value.1, env)
    ensures var ps := r.key.value.1;
            Authorize(r, env) == Denied(if HasTimeout(ps) && exists e :: NewestFor(ps, env, e) && !AgeIsKnown(env, e)
                                        then System else KeyUserNotAuthenticated)
  {
    var ps := r.key.value.1;
    var f := Steps(r, env);
    AdmissibleIff(r, env);
    FoundIsNewest(f, ps, r.purpose, env);
    var found := FindToken(f, env);
    if found.Some? {
      NewestIsYoung(f, ps, r.purpose, env, found.value);
      YoungIff(f, ps, r.purpose, env, found.value);
    }
  }

  /** Without a key of the database there is nothing to enforce. */
  lemma KeylessIsGranted(r: Request, env: Env)
    requires r.key.None?
    ensures Authorize(r, env) == Granted(None, NoDeferredAuth, None, false)
  {
  }

  /** A key for an unlocked device, with the device locked. */
  lemma LockedDeviceIsRefused(env: Env)
    requires env.unlockedUsers == {}
    ensures var ps := [KeyPurpose(Sign), UserID(0), UnlockedDeviceRequired];
            Authorize(Request(Sign, Some((1, ps)), false, false), env) == Denied(DeviceLocked)
  {
    var ps := [KeyPurpose(Sign), UserID(0), UnlockedDeviceRequired];
    var r := Request(Sign, Some((1, ps)), false, false);
    assert ps[0] in ps && ps[2] in ps;
    assert PurposeFits(ps, Sign) && AllTimely(ps, Sign, env.wallClock);
    assert FirstObjection(r, env) == Some(DeviceLocked);
    DeniedInOrder(r, env);
  }
}
