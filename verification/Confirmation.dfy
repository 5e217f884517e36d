/**
 Protected confirmation prompts: one session at a time, a cool-down for clients whose prompts are declined,
 and a callback that travels through foreign code and must come back at most once.
 */
module Confirmation {
  import opened KeystoreTypes

  // ---------------------------------------------------------------- response codes

  datatype HalCode =
    | HalOk | HalCanceled | HalAborted | HalOperationPending | HalIgnored
    | HalSystemError | HalUnimplemented | HalUnexpected | HalUiError

  datatype ResponseCode = RcOk | RcCancelled | RcAborted | RcOperationPending | RcIgnored | RcSystemError

  /** The code of the service, through the compatibility layer, to the code reported to the client. */
  function Reported(rc: HalCode): ResponseCode {
    match rc
    case HalOk => RcOk
    case HalCanceled => RcCancelled
    case HalAborted => RcAborted
    case HalOperationPending => RcOperationPending
    case HalIgnored => RcIgnored
    case _ => RcSystemError
  }

  // ---------------------------------------------------------------- cooling down

  const SECOND := 1000
  const ONE_DAY := 60 * 60 * 24 * SECOND

  function Pow2(n: nat): nat {
    if n == 0 then 1 else 2 * Pow2(n - 1)
  }

  /** The time a client has to wait after its last penalised prompt, given how many it has had. */
  function BackOff(counter: nat): Option<nat> {
    if counter <= 2 then None
    else if counter <= 5 then Some(30 * SECOND)
    else if counter <= 16 then Some(60 * SECOND * Pow2(counter - 6))
    else Some(ONE_DAY)
  }

  function WaitAfter(counter: nat): nat {
    if BackOff(counter).Some? then BackOff(counter).value else 0
  }

  lemma {:induction false} Pow2Monotone(a: nat, b: nat)
    requires a <= b
    ensures Pow2(a) <= Pow2(b)
    decreases b - a
  {
    if a < b {
      Pow2Monotone(a, b - 1);
    }
  }

  lemma BackOffGrows(a: nat, b: nat)
    requires a <= b
    ensures WaitAfter(a) <= WaitAfter(b) <= ONE_DAY
    ensures a >= 3 ==> WaitAfter(a) >= 30 * SECOND
    ensures 6 <= a < 16 ==> WaitAfter(a + 1) == 2 * WaitAfter(a)
  {
    assert Pow2(10) == 1024 by {
      assert Pow2(5) == 32;
    }
    if 6 <= a <= 16 {
      Pow2Monotone(0, a - 6);
      Pow2Monotone(a - 6, 10);
      if b <= 16 {
        Pow2Monotone(a - 6, b - 6);
      }
    }
    if 6 <= b <= 16 {
      Pow2Monotone(0, b - 6);
      Pow2Monotone(b - 6, 10);
    }
  }

  datatype RateInfo = RateInfo(counter: nat, timestamp: nat)

  /** What remains of the back-off time; a remainder of zero still counts. */
  function RemainingBackOff(r: RateInfo, now: nat): Option<nat> {
    var b := BackOff(r.counter);
    if b.None? || r.timestamp + b.value < now then None
    else Some(r.timestamp + b.value - (if now < r.timestamp then r.timestamp else now))
  }

  /** The time that remains, counted from the start of the back-off at the earliest, is exactly the time to wait. */
  lemma RemainingIsExact(r: RateInfo, now: nat, wait: nat)
    requires RemainingBackOff(r, now).Some?
    ensures var from := if now < r.timestamp then r.timestamp else now;
            RemainingBackOff(r, from + wait).Some? <==> wait <= RemainingBackOff(r, now).value
  {
  }

  // ---------------------------------------------------------------- state

  datatype Session = Session(hal: nat, client: int, uid: int, start: nat, aborted: bool)

  /** One connection to the service per prompt, with the callback it holds and how often that was freed. */
  datatype Hal = Hal(callback: bool, frees: nat)

  datatype Delivery = Delivery(hal: nat, rc: HalCode, token: Option<Bytes>)

  datatype Completion = Completion(hal: nat, client: int, rc: ResponseCode)

  /**
   `running` holds callbacks that have been taken out of a connection but have not been called yet, and
   `aborts` the cancelled prompts whose abort is on its way to the service. The fields from `penalties` on
   record what has happened.
   */
  datatype State = State(
    now: nat,
    session: Option<Session>,
    rate: map<int, RateInfo>,
    hals: seq<Hal>,
    running: seq<Delivery>,
    aborts: seq<nat>,
    penalties: map<int, seq<nat>>,
    prompts: seq<Session>,
    completed: seq<Completion>,
    tokens: seq<Bytes>)

  function Initial(): State {
    State(0, None, map[], [], [], [], map[], [], [], [])
  }

  datatype Event =
    | Present(client: int, uid: int, supported: bool, rc: HalCode, took: nat)
    | Finalize(hal: nat, rc: HalCode, token: Option<Bytes>)
    | CallBack(i: nat)
    | Cancel(client: int)
    | Abort(i: nat)
    | CancelReturns(i: nat)
    | IsSupported(available: bool)
    | Tick(millis: nat)

  predicate Possible(s: State, e: Event) {
    match e
    case Finalize(h, _, _) => h < |s.hals|
    case CallBack(i) => i < |s.running| && s.running[i].hal < |s.hals|
    case Abort(i) => i < |s.aborts| && (s.session.Some? ==> s.session.value.hal < |s.hals|)
    case IsSupported(_) => s.session.Some? ==> s.session.value.hal < |s.hals|
    case CancelReturns(i) => i < |s.aborts|
    case _ => true
  }

  predicate CoolingDown(s: State, uid: int) {
    uid in s.rate && RemainingBackOff(s.rate[uid], s.now).Some?
  }

  function NewHal(rc: HalCode): Hal {
    if rc == HalOk then Hal(true, 0) else Hal(false, 1)
  }

  /** Showing a prompt, which may take a while; the callback is freed at once if the service refuses. */
  function DoPresent(s: State, client: int, uid: int, supported: bool, rc: HalCode, took: nat): State {
    if s.session.Some? || CoolingDown(s, uid) || !supported then s
    else if rc != HalOk then s.(hals := s.hals + [NewHal(rc)], now := s.now + took)
    else
      var session := Session(|s.hals|, client, uid, s.now + took, false);
      s.(hals := s.hals + [NewHal(rc)],
         session := Some(session),
         prompts := s.prompts + [session],
         now := s.now + took)
  }

  /** Only a confirmed prompt comes with a token, and an empty one counts for none. */
  function Confirmed(rc: HalCode, token: Option<Bytes>): Option<Bytes> {
    if rc == HalOk && token.Some? && token.value != [] then token else None
  }

  /** A result or the death of the service: whoever comes first takes the callback. */
  function DoFinalize(s: State, h: nat, rc: HalCode, token: Option<Bytes>): State
    requires h < |s.hals|
  {
    if !s.hals[h].callback then s
    else
      s.(hals := s.hals[h := s.hals[h].(callback := false)],
         running := s.running + [Delivery(h, rc, Confirmed(rc, token))])
  }

  function Penalize(s: State, uid: int, start: nat): State {
    s.(rate := s.rate[uid := RateInfo((if uid in s.rate then s.rate[uid].counter else 0) + 1, start)],
       penalties := s.penalties[uid := GetOr(s.penalties, uid, []) + [start]])
  }

  /** What the end of a session means for the client's account. */
  function Settle(s: State, session: Session, rc: ResponseCode, token: Option<Bytes>): State {
    if rc == RcOk && token.Some? then
      s.(rate := s.rate - {session.uid}, penalties := s.penalties - {session.uid}, tokens := s.tokens + [token.value])
    else if rc == RcCancelled || (rc == RcAborted && session.aborted) then Penalize(s, session.uid, session.start)
    else s
  }

  function DoResult(s: State, rc: HalCode, token: Option<Bytes>): State {
    if s.session.None? then s
    else
      var session := s.session.value;
      Settle(s.(session := None, completed := s.completed + [Completion(session.hal, session.client, Reported(rc))]),
             session, Reported(rc), token)
  }

  function DoCallBack(s: State, i: nat): State
    requires i < |s.running| && s.running[i].hal < |s.hals|
  {
    var d := s.running[i];
    DoResult(s.(running := s.running[..i] + s.running[i + 1..],
                hals := s.hals[d.hal := s.hals[d.hal].(frees := s.hals[d.hal].frees + 1)]),
             d.rc, d.token)
  }

  /** Marks the session and sends an abort on its way; the lock is given up in between. */
  function DoCancel(s: State, client: int): State {
    if s.session.Some? && s.session.value.client == client
    then s.(session := Some(s.session.value.(aborted := true)), aborts := s.aborts + [s.session.value.hal])
    else s
  }

  /**
   An abort ends whatever prompt the service is showing when it gets there. One is sent by a cancel, and by closing
   any connection, such as the one opened only to find out whether the service is there.
   */
  function DoAbort(s: State): State
    requires s.session.Some? ==> s.session.value.hal < |s.hals|
  {
    if s.session.Some? then DoFinalize(s, s.session.value.hal, HalAborted, None) else s
  }

  function Next(s: State, e: Event): State
    requires Possible(s, e)
  {
    match e
    case Present(client, uid, supported, rc, took) => DoPresent(s, client, uid, supported, rc, took)
    case Finalize(h, rc, token) => DoFinalize(s, h, rc, token)
    case CallBack(i) => DoCallBack(s, i)
    case Cancel(client) => DoCancel(s, client)
    case Abort(_) => DoAbort(s)
    case CancelReturns(i) => s.(aborts := s.aborts[..i] + s.aborts[i + 1..])
    case IsSupported(available) => if available then DoAbort(s) else s
    case Tick(millis) => s.(now := s.now + millis)
  }

  // ---------------------------------------------------------------- callbacks

  /** The session that is open owns the one callback that is still out; every other callback has been freed once. */
  ghost predicate CallbacksOk(s: State) {
    && |s.running| <= 1
    && (forall h :: 0 <= h < |s.hals| ==>
          if s.session.Some? && s.session.value.hal == h
          then s.hals[h].frees == 0 && (s.hals[h].callback <==> s.running == [])
          else s.hals[h] == Hal(false, 1))
    && (s.session.None? ==> s.running == [])
    && (s.session.Some? ==> s.session.value.hal < |s.hals|)
    && (s.running != [] ==> s.session.Some? && s.running[0].hal == s.session.value.hal)
  }

  /** Every prompt but the open one has been completed, in order, and reported to the client that asked for it. */
  ghost predicate CompletionsOk(s: State) {
    && |s.prompts| == |s.completed| + (if s.session.Some? then 1 else 0)
    && (forall i :: 0 <= i < |s.completed| ==>
          s.completed[i].hal == s.prompts[i].hal && s.completed[i].client == s.prompts[i].client)
    && (forall i, j :: 0 <= i < j < |s.prompts| ==> s.prompts[i].hal < s.prompts[j].hal)
    && (forall i :: 0 <= i < |s.prompts| ==> s.prompts[i].hal < |s.hals|)
    && (s.session.Some? ==> s.prompts[|s.prompts| - 1].(aborted := s.session.value.aborted) == s.session.value)
    && |s.tokens| <= |s.completed|
  }

  /** The starts of a client's penalised prompts: each waits for the back-off that the ones before it earned. */
  ghost predicate Spaced(starts: seq<nat>) {
    forall k :: 3 <= k < |starts| ==> starts[k] > starts[k - 1] + WaitAfter(k)
  }

  ghost predicate AccountOk(s: State, uid: int)
    requires uid in s.penalties
  {
    var starts := s.penalties[uid];
    && starts != [] && Spaced(starts)
    && uid in s.rate && s.rate[uid] == RateInfo(|starts|, starts[|starts| - 1])
  }

  ghost predicate RateRespected(r: RateInfo, start: nat) {
    r.counter >= 3 ==> start > r.timestamp + WaitAfter(r.counter)
  }

  ghost predicate AccountsOk(s: State) {
    && s.rate.Keys == s.penalties.Keys
    && (forall uid :: uid in s.penalties ==> AccountOk(s, uid))
    && (s.session.Some? && s.session.value.uid in s.rate ==>
          RateRespected(s.rate[s.session.value.uid], s.session.value.start))
  }

  ghost predicate WasPrompted(s: State, h: nat) {
    exists i :: 0 <= i < |s.prompts| && s.prompts[i].hal == h
  }

  /** Only prompts that were shown and whose clients cancelled them are aborted. */
  ghost predicate AbortsOk(s: State) {
    forall i :: 0 <= i < |s.aborts| ==>
      && WasPrompted(s, s.aborts[i])
      && (s.session.Some? && s.session.value.hal == s.aborts[i] ==> s.session.value.aborted)
  }

  ghost predicate Inv(s: State) {
    CallbacksOk(s) && CompletionsOk(s) && AccountsOk(s) && AbortsOk(s)
  }

  lemma PresentKeepsInv(s: State, client: int, uid: int, supported: bool, rc: HalCode, took: nat)
    requires Inv(s)
    ensures Inv(DoPresent(s, client, uid, supported, rc, took))
  {
    var t := DoPresent(s, client, uid, supported, rc, took);
    forall u | u in t.penalties
      ensures AccountOk(t, u)
    {
      assert AccountOk(s, u);
    }
  }

  lemma FinalizeKeepsInv(s: State, h: nat, rc: HalCode, token: Option<Bytes>)
    requires Inv(s) && h < |s.hals|
    ensures Inv(DoFinalize(s, h, rc, token))
  {
    var t := DoFinalize(s, h, rc, token);
    forall u | u in t.penalties
      ensures AccountOk(t, u)
    {
      assert AccountOk(s, u);
    }
  }

  lemma CallBackKeepsCallbacks(s: State, i: nat)
    requires CallbacksOk(s) && Possible(s, CallBack(i))
    ensures CallbacksOk(DoCallBack(s, i))
  {
    var t := DoCallBack(s, i);
    assert i == 0 && t.running == [] && t.session.None?;
  }

  lemma CallBackKeepsCompletions(s: State, i: nat)
    requires CallbacksOk(s) && CompletionsOk(s) && Possible(s, CallBack(i))
    ensures CompletionsOk(DoCallBack(s, i))
  {
    var t := DoCallBack(s, i);
    assert t.prompts == s.prompts && |t.hals| == |s.hals|;
    var session := s.session.value;
    assert t.completed == s.completed + [Completion(session.hal, session.client, Reported(s.running[i].rc))];
  }

  lemma PenaltyKeepsAccounts(s: State, uid: int, start: nat)
    requires AccountsOk(s) && s.session.None?
    requires uid in s.rate && s.rate[uid].counter >= 3 ==>
               start > s.rate[uid].timestamp + WaitAfter(s.rate[uid].counter)
    ensures AccountsOk(Penalize(s, uid, start))
  {
    var t := Penalize(s, uid, start);
    if uid in s.penalties {
      assert AccountOk(s, uid);
    }
    forall u | u in t.penalties
      ensures AccountOk(t, u)
    {
      if u != uid {
        assert AccountOk(s, u);
      }
    }
  }

  lemma ResetKeepsAccounts(s: State, uid: int)
    requires AccountsOk(s) && s.session.None?
    ensures AccountsOk(s.(rate := s.rate - {uid}, penalties := s.penalties - {uid}))
  {
    var t := s.(rate := s.rate - {uid}, penalties := s.penalties - {uid});
    forall u | u in t.penalties
      ensures AccountOk(t, u)
    {
      assert AccountOk(s, u);
    }
  }

  lemma CallBackKeepsAccounts(s: State, i: nat)
    requires CallbacksOk(s) && AccountsOk(s) && Possible(s, CallBack(i))
    ensures AccountsOk(DoCallBack(s, i))
  {
    var session := s.session.value;
    var closed := s.(session := None);
    forall u | u in closed.penalties
      ensures AccountOk(closed, u)
    {
      assert AccountOk(s, u);
    }
    PenaltyKeepsAccounts(closed, session.uid, session.start);
    ResetKeepsAccounts(closed, session.uid);
    AccountsFrame(closed, DoCallBack(s, i));
    AccountsFrame(Penalize(closed, session.uid, session.start), DoCallBack(s, i));
    AccountsFrame(closed.(rate := closed.rate - {session.uid}, penalties := closed.penalties - {session.uid}),
                  DoCallBack(s, i));
  }

  lemma AccountsFrame(s: State, t: State)
    requires AccountsOk(s)
    ensures t.rate == s.rate && t.penalties == s.penalties && t.session.None? ==> AccountsOk(t)
  {
    if t.rate == s.rate && t.penalties == s.penalties && t.session.None? {
      forall u | u in t.penalties
        ensures AccountOk(t, u)
      {
        assert AccountOk(s, u);
      }
    }
  }

  lemma QuietKeepsInv(s: State, t: State)
    requires Inv(s)
    requires t == s.(now := t.now, session := t.session, aborts := t.aborts) && AbortsOk(t)
    requires s.session.Some? <==> t.session.Some?
    requires s.session.Some? ==> t.session.value == s.session.value.(aborted := t.session.value.aborted)
    ensures Inv(t)
  {
    forall u | u in t.penalties
      ensures AccountOk(t, u)
    {
      assert AccountOk(s, u);
    }
  }

  /** The record of prompts only grows. */
  lemma PromptsStay(s: State, e: Event)
    requires Possible(s, e)
    ensures s.prompts <= Next(s, e).prompts
  {
  }

  lemma EventKeepsAborts(s: State, e: Event)
    requires Inv(s) && Possible(s, e)
    ensures AbortsOk(Next(s, e))
  {
    var t := Next(s, e);
    PromptsStay(s, e);
    forall i | 0 <= i < |t.aborts|
      ensures WasPrompted(t, t.aborts[i])
      ensures t.session.Some? && t.session.value.hal == t.aborts[i] ==> t.session.value.aborted
    {
      if e.Cancel? && i == |s.aborts| {
        assert t.prompts[|t.prompts| - 1].hal == t.aborts[i];
      } else {
        assert t.aborts[i] in s.aborts;
        var j :| 0 <= j < |s.prompts| && s.prompts[j].hal == t.aborts[i];
        assert t.prompts[j].hal == t.aborts[i];
      }
    }
  }

  lemma EventKeepsInv(s: State, e: Event)
    requires Inv(s) && Possible(s, e)
    ensures Inv(Next(s, e))
  {
    EventKeepsAborts(s, e);
    match e
    case Present(client, uid, supported, rc, took) => PresentKeepsInv(s, client, uid, supported, rc, took);
    case Finalize(h, rc, token) => FinalizeKeepsInv(s, h, rc, token);
    case CallBack(i) =>
      CallBackKeepsCallbacks(s, i);
      CallBackKeepsCompletions(s, i);
      CallBackKeepsAccounts(s, i);
    case Abort(_) =>
      if s.session.Some? {
        FinalizeKeepsInv(s, s.session.value.hal, HalAborted, None);
      }
    case IsSupported(_) =>
      if e.available && s.session.Some? {
        FinalizeKeepsInv(s, s.session.value.hal, HalAborted, None);
      }
    case Cancel(_) => QuietKeepsInv(s, Next(s, e));
    case CancelReturns(_) => QuietKeepsInv(s, Next(s, e));
    case Tick(_) => QuietKeepsInv(s, Next(s, e));
  }

  // ---------------------------------------------------------------- every run

  ghost predicate IsRun(s: State, es: seq<Event>)
    decreases |es|
  {
    es != [] ==> Possible(s, es[0]) && IsRun(Next(s, es[0]), es[1..])
  }

  ghost function EndOf(s: State, es: seq<Event>): State
    requires IsRun(s, es)
    decreases |es|
  {
    if es == [] then s else EndOf(Next(s, es[0]), es[1..])
  }

  lemma {:induction false} RunKeepsInv(s: State, es: seq<Event>)
    requires Inv(s) && IsRun(s, es)
    ensures Inv(EndOf(s, es))
    decreases |es|
  {
    if es != [] {
      EventKeepsInv(s, es[0]);
      RunKeepsInv(Next(s, es[0]), es[1..]);
    }
  }

  /**
   After any run: a callback has been freed at most once, and exactly once unless its session is open; the
   callback about to be called belongs to the open session; every other prompt was completed once, towards the
   client that had asked for it; and penalised prompts of one client keep their distance.
   */
  lemma EveryRun(es: seq<Event>)
    requires IsRun(Initial(), es)
    ensures var s := EndOf(Initial(), es);
            && (forall h :: 0 <= h < |s.hals| ==>
                  s.hals[h].frees == if s.session.Some? && s.session.value.hal == h then 0 else 1)
            && (forall i :: 0 <= i < |s.running| ==> s.session.Some? && s.running[i].hal == s.session.value.hal)
            && |s.running| <= 1
            && |s.prompts| == |s.completed| + (if s.session.Some? then 1 else 0)
            && (forall i :: 0 <= i < |s.completed| ==> s.completed[i].client == s.prompts[i].client)
            && (forall i, j :: 0 <= i < j < |s.completed| ==> s.completed[i].hal != s.completed[j].hal)
            && forall uid :: uid in s.penalties ==> Spaced(s.penalties[uid])
  {
    RunKeepsInv(Initial(), es);
    var s := EndOf(Initial(), es);
    forall uid | uid in s.penalties
      ensures Spaced(s.penalties[uid])
    {
      assert AccountOk(s, uid);
    }
  }

  /** From the seventeenth on, penalised prompts of one client are more than a day apart. */
  lemma AtMostOneADay(es: seq<Event>, uid: int, k: nat)
    requires IsRun(Initial(), es)
    requires var s := EndOf(Initial(), es); uid in s.penalties && 17 <= k < |s.penalties[uid]|
    ensures var starts := EndOf(Initial(), es).penalties[uid]; starts[k] > starts[k - 1] + ONE_DAY
  {
    RunKeepsInv(Initial(), es);
    assert AccountOk(EndOf(Initial(), es), uid);
  }

  // ---------------------------------------------------------------- what a prompt costs

  ghost predicate OthersUnchanged(s: State, t: State, uid: int) {
    forall u :: u != uid ==>
      && (u in t.rate <==> u in s.rate) && (u in s.rate ==> t.rate[u] == s.rate[u])
      && (u in t.penalties <==> u in s.penalties) && (u in s.penalties ==> t.penalties[u] == s.penalties[u])
  }

  /** The prompt was declined by the user, or aborted after its client had cancelled it. */
  predicate Declined(session: Session, rc: HalCode) {
    rc == HalCanceled || (rc == HalAborted && session.aborted)
  }

  /**
   Every callback closes the session, reports to its client and settles that client's account alone: a declined
   prompt adds one penalty with the start of the session, a confirmed one clears the account, any other changes nothing.
   */
  lemma CallBackSettles(s: State, i: nat)
    requires Inv(s) && Possible(s, CallBack(i))
    ensures s.session.Some?
    ensures var t := Next(s, CallBack(i));
            var session, d := s.session.value, s.running[i];
            var uid := session.uid;
            && t.session.None? && OthersUnchanged(s, t, uid)
            && (exists rc :: t.completed == s.completed + [Completion(session.hal, session.client, rc)]
                             && (rc == RcOk <==> d.rc == HalOk) && (rc == RcCancelled <==> d.rc == HalCanceled)
                             && (rc == RcAborted <==> d.rc == HalAborted))
            && if Declined(session, d.rc) then
                 && uid in t.penalties && uid in t.rate
                 && t.penalties[uid] == GetOr(s.penalties, uid, []) + [session.start]
                 && t.rate[uid] == RateInfo(|GetOr(s.penalties, uid, [])| + 1, session.start)
                 && t.tokens == s.tokens
               else if d.rc == HalOk && d.token.Some? then
                 uid !in t.penalties && uid !in t.rate && t.tokens == s.tokens + [d.token.value]
               else t.penalties == s.penalties && t.rate == s.rate && t.tokens == s.tokens
  {
    var t := Next(s, CallBack(i));
    assert t.completed
           == s.completed + [Completion(s.session.value.hal, s.session.value.client, Reported(s.running[i].rc))];
    if s.session.value.uid in s.penalties {
      assert AccountOk(s, s.session.value.uid);
    }
  }

  /** A result that is still to be had takes the callback, and only a confirmation brings its token along. */
  lemma FinalizeHands(s: State, h: nat, rc: HalCode, token: Option<Bytes>)
    requires Inv(s) && Possible(s, Finalize(h, rc, token))
    ensures var t := Next(s, Finalize(h, rc, token));
            if s.session.Some? && s.session.value.hal == h && s.running == [] then
              && |t.running| == 1 && t.running[0].hal == h && t.running[0].rc == rc
              && (t.running[0].token == if rc == HalOk && token != Some([]) then token else None)
            else t == s
  {
  }

  /** A prompt is shown exactly if none is, the service is there and accepts, and the client has waited long enough. */
  lemma ShownIff(s: State, client: int, uid: int, supported: bool, rc: HalCode, took: nat)
    requires Inv(s)
    ensures var t := Next(s, Present(client, uid, supported, rc, took));
            var n := |GetOr(s.penalties, uid, [])|;
            && (t.prompts != s.prompts <==>
                  && s.session.None? && supported && rc == HalOk
                  && (n >= 3 ==> s.now > s.penalties[uid][n - 1] + WaitAfter(n)))
            && (t.prompts != s.prompts ==>
                  && t.session == Some(Session(|s.hals|, client, uid, s.now + took, false))
                  && t.prompts == s.prompts + [t.session.value])
            && (t.prompts == s.prompts ==> t.session == s.session)
            && t.rate == s.rate && t.penalties == s.penalties && t.completed == s.completed
            && (s.session.None? && supported && (n >= 3 ==> s.now > s.penalties[uid][n - 1] + WaitAfter(n)) ==>
                  t.hals == s.hals + [Hal(rc == HalOk, if rc == HalOk then 0 else 1)] && t.now == s.now + took)
  {
    if uid in s.penalties {
      assert AccountOk(s, uid);
    }
    var t := Next(s, Present(client, uid, supported, rc, took));
    assert t.prompts != s.prompts ==> |t.prompts| == |s.prompts| + 1;
  }

  /** A cancel marks the prompt and sends one abort exactly if the prompt is the client's own. */
  lemma CancelReaches(s: State, client: int)
    requires Possible(s, Cancel(client))
    ensures var t := Next(s, Cancel(client));
            && t == s.(session := t.session, aborts := t.aborts)
            && (forall h, uid, start, aborted :: s.session == Some(Session(h, client, uid, start, aborted)) ==>
                  t.session == Some(Session(h, client, uid, start, true)) && t.aborts == s.aborts + [h])
            && ((s.session.None? || s.session.value.client != client) ==> t == s)
  {
  }

  /** One prompt that the user declines at once. */
  function DeclinedPrompt(hal: nat): seq<Event> {
    [Present(1, 1, true, HalOk, 0), Finalize(hal, HalCanceled, None), CallBack(0)]
  }

  /** The account of client 1, with no prompt open. */
  ghost predicate Settled(s: State, hals: nat, starts: seq<nat>, now: nat) {
    Inv(s) && s.session.None? && s.now == now && |s.hals| == hals && GetOr(s.penalties, 1, []) == starts
  }

  lemma OneShown(s: State, hals: nat, starts: seq<nat>, now: nat) returns (t: State)
    requires Settled(s, hals, starts, now) && |starts| <= 2
    ensures Possible(s, Present(1, 1, true, HalOk, 0)) && t == Next(s, Present(1, 1, true, HalOk, 0))
    ensures Inv(t) && t.session == Some(Session(hals, 1, 1, now, false)) && t.running == []
    ensures t.now == now && |t.hals| == hals + 1 && GetOr(t.penalties, 1, []) == starts
  {
    ShownIff(s, 1, 1, true, HalOk, 0);
    EventKeepsInv(s, Present(1, 1, true, HalOk, 0));
    t := Next(s, Present(1, 1, true, HalOk, 0));
  }

  lemma OneFinalized(s: State, hals: nat, starts: seq<nat>, now: nat) returns (t: State)
    requires Inv(s) && s.session == Some(Session(hals, 1, 1, now, false)) && s.running == []
    requires s.now == now && |s.hals| == hals + 1 && GetOr(s.penalties, 1, []) == starts
    ensures Possible(s, Finalize(hals, HalCanceled, None)) && t == Next(s, Finalize(hals, HalCanceled, None))
    ensures Inv(t) && t.session == s.session && |t.running| == 1 && t.running[0].rc == HalCanceled
    ensures t.now == now && |t.hals| == hals + 1 && GetOr(t.penalties, 1, []) == starts
  {
    FinalizeHands(s, hals, HalCanceled, None);
    EventKeepsInv(s, Finalize(hals, HalCanceled, None));
    t := Next(s, Finalize(hals, HalCanceled, None));
  }

  lemma OneSettled(s: State, hals: nat, starts: seq<nat>, now: nat) returns (t: State)
    requires Inv(s) && s.session == Some(Session(hals, 1, 1, now, false))
    requires |s.running| == 1 && s.running[0].rc == HalCanceled
    requires s.now == now && |s.hals| == hals + 1 && GetOr(s.penalties, 1, []) == starts
    ensures Possible(s, CallBack(0)) && t == Next(s, CallBack(0)) && Settled(t, hals + 1, starts + [now], now)
  {
    CallBackSettles(s, 0);
    EventKeepsInv(s, CallBack(0));
    t := Next(s, CallBack(0));
  }

  lemma OneDeclined(s: State, hals: nat, starts: seq<nat>, now: nat) returns (t: State)
    requires Settled(s, hals, starts, now) && |starts| <= 2
    ensures IsRun(s, DeclinedPrompt(hals)) && EndOf(s, DeclinedPrompt(hals)) == t
    ensures Settled(t, hals + 1, starts + [now], now)
  {
    var s1 := OneShown(s, hals, starts, now);
    var s2 := OneFinalized(s1, hals, starts, now);
    t := OneSettled(s2, hals, starts, now);
    ThreeSteps(s, s1, s2, t, Present(1, 1, true, HalOk, 0), Finalize(hals, HalCanceled, None), CallBack(0));
  }

  lemma ThreeSteps(s: State, s1: State, s2: State, t: State, e: Event, f: Event, g: Event)
    requires Possible(s, e) && s1 == Next(s, e) && Possible(s1, f) && s2 == Next(s1, f)
    requires Possible(s2, g) && t == Next(s2, g)
    ensures IsRun(s, [e, f, g]) && EndOf(s, [e, f, g]) == t
  {
    RunOf(s2, g, []);
    RunOf(s1, f, [g]);
    RunOf(s, e, [f, g]);
    assert [g] + [] == [g] && [f] + [g] == [f, g] && [e] + [f, g] == [e, f, g];
  }

  lemma {:induction false} RunThrough(s: State, es: seq<Event>, fs: seq<Event>)
    requires IsRun(s, es) && IsRun(EndOf(s, es), fs)
    ensures IsRun(s, es + fs) && EndOf(s, es + fs) == EndOf(EndOf(s, es), fs)
    decreases |es|
  {
    if es == [] {
      assert es + fs == fs;
    } else {
      RunThrough(Next(s, es[0]), es[1..], fs);
      assert (es + fs)[1..] == es[1..] + fs;
    }
  }

  /** After three declined prompts the client is refused for half a minute. */
  lemma DeclinedThriceWaits(millis: nat)
    ensures var es := DeclinedPrompt(0) + (DeclinedPrompt(1) + DeclinedPrompt(2));
            && IsRun(Initial(), es)
            && var s := Next(EndOf(Initial(), es), Tick(millis));
               Next(s, Present(1, 1, true, HalOk, 0)).prompts != s.prompts <==> millis > 30000
  {
    var c := ThreeDeclined();
    EventKeepsInv(c, Tick(millis));
    ShownIff(Next(c, Tick(millis)), 1, 1, true, HalOk, 0);
  }

  lemma ThreeDeclined() returns (c: State)
    ensures var es := DeclinedPrompt(0) + (DeclinedPrompt(1) + DeclinedPrompt(2));
            IsRun(Initial(), es) && EndOf(Initial(), es) == c
    ensures Settled(c, 3, [0, 0, 0], 0)
  {
    var a := OneDeclined(Initial(), 0, [], 0);
    var b := OneDeclined(a, 1, [0], 0);
    c := OneDeclined(b, 2, [0, 0], 0);
    RunThrough(a, DeclinedPrompt(1), DeclinedPrompt(2));
    RunThrough(Initial(), DeclinedPrompt(0), DeclinedPrompt(1) + DeclinedPrompt(2));
  }

  // ---------------------------------------------------------------- cancelling

  /** An abort, and not the service by itself, ends the prompt that is being shown. */
  ghost predicate EndsPrompt(s: State, e: Event)
    requires Possible(s, e)
  {
    s.running == [] && Next(s, e).running != [] && !e.Finalize?
  }

  ghost predicate WasCompleted(s: State, h: nat) {
    exists i :: 0 <= i < |s.completed| && s.completed[i].hal == h
  }

  predicate IsShown(s: State)
    requires s.session.Some? ==> s.session.value.hal < |s.hals|
  {
    s.session.Some? && s.hals[s.session.value.hal].callback
  }

  lemma CompletedIsNotOpen(s: State, i: nat)
    requires Inv(s) && i < |s.aborts|
    ensures WasCompleted(s, s.aborts[i]) <==> !(s.session.Some? && s.session.value.hal == s.aborts[i])
  {
    var j :| 0 <= j < |s.prompts| && s.prompts[j].hal == s.aborts[i];
    if j < |s.completed| {
      assert s.completed[j].hal == s.aborts[i];
    }
    if WasCompleted(s, s.aborts[i]) && s.session.Some? {
      var n :| 0 <= n < |s.completed| && s.completed[n].hal == s.aborts[i];
      assert s.prompts[n].hal < s.prompts[|s.prompts| - 1].hal;
    }
  }

  /**
   An abort ends a prompt that is not the one cancelled exactly when the cancelled one has already been
   completed and another one is being shown by the time the abort gets to the service.
   */
  lemma AbortEndsOtherIff(s: State, i: nat)
    requires Inv(s) && Possible(s, Abort(i))
    ensures EndsPrompt(s, Abort(i)) && s.session.value.hal != s.aborts[i] <==>
              WasCompleted(s, s.aborts[i]) && IsShown(s)
  {
    CompletedIsNotOpen(s, i);
  }

  /**
   Of all events, a prompt that its client has not cancelled is ended by an abort exactly in two cases: the abort
   of a completed prompt comes late, or anyone asks whether the service is there.
   */
  lemma UnaskedAbortIff(s: State, e: Event)
    requires Inv(s) && Possible(s, e)
    ensures EndsPrompt(s, e) && !s.session.value.aborted <==>
              && IsShown(s) && !s.session.value.aborted
              && ((e.Abort? && WasCompleted(s, s.aborts[e.i])) || (e.IsSupported? && e.available))
  {
    if e.Abort? {
      CompletedIsNotOpen(s, e.i);
    }
  }

  /** The client whose prompt was ended without its asking is told so but not penalised. */
  lemma OtherClientIsNotPenalised(s: State, e: Event)
    requires Inv(s) && Possible(s, e) && EndsPrompt(s, e) && !s.session.value.aborted
    ensures var t := Next(s, e);
            && Possible(t, CallBack(0))
            && var u := Next(t, CallBack(0));
               && u.session.None? && u.rate == s.rate && u.penalties == s.penalties
               && u.completed == s.completed + [Completion(s.session.value.hal, s.session.value.client, RcAborted)]
  {
  }

  /** Client 2 is prompted, anyone asks whether the service is there, and the prompt is gone. */
  lemma AskingEndsPrompt()
    ensures var es := [Present(2, 2, true, HalOk, 0), IsSupported(true), CallBack(0)];
            && IsRun(Initial(), es)
            && EndOf(Initial(), es).completed == [Completion(0, 2, RcAborted)]
  {
    var s1 := Next(Initial(), Present(2, 2, true, HalOk, 0));
    var s2 := Next(s1, IsSupported(true));
    RunOf(s2, CallBack(0), []);
    RunOf(s1, IsSupported(true), [CallBack(0)]);
    RunOf(Initial(), Present(2, 2, true, HalOk, 0), [IsSupported(true), CallBack(0)]);
    assert [Present(2, 2, true, HalOk, 0)] + [IsSupported(true), CallBack(0)]
        == [Present(2, 2, true, HalOk, 0), IsSupported(true), CallBack(0)];
    assert [IsSupported(true)] + [CallBack(0)] == [IsSupported(true), CallBack(0)];
    assert [CallBack(0)] + [] == [CallBack(0)];
  }

  /** Client 1 cancels, is answered, client 2 is prompted, and only then the abort arrives. */
  lemma CancelEndsAnotherPrompt()
    ensures var es := [Present(1, 1, true, HalOk, 0), Cancel(1), Finalize(0, HalCanceled, None), CallBack(0),
                       Present(2, 2, true, HalOk, 0), Abort(0), CallBack(0)];
            && IsRun(Initial(), es)
            && EndOf(Initial(), es).completed == [Completion(0, 1, RcCancelled), Completion(1, 2, RcAborted)]
  {
    var rest := [Present(2, 2, true, HalOk, 0), Abort(0), CallBack(0)];
    var s := CancelledFirst(rest);
    LateAbort(s);
    assert [Present(1, 1, true, HalOk, 0)] + ([Cancel(1)] + ([Finalize(0, HalCanceled, None)] + ([CallBack(0)] + rest)))
        == [Present(1, 1, true, HalOk, 0), Cancel(1), Finalize(0, HalCanceled, None), CallBack(0),
            Present(2, 2, true, HalOk, 0), Abort(0), CallBack(0)];
  }

  lemma CancelledFirst(rest: seq<Event>) returns (s: State)
    ensures s.session.None? && s.running == [] && s.aborts == [0] && |s.hals| == 1 && 2 !in s.rate
    ensures s.completed == [Completion(0, 1, RcCancelled)]
    ensures IsRun(s, rest) ==>
              var es := [Present(1, 1, true, HalOk, 0)]
                        + ([Cancel(1)] + ([Finalize(0, HalCanceled, None)] + ([CallBack(0)] + rest)));
              IsRun(Initial(), es) && EndOf(Initial(), es) == EndOf(s, rest)
  {
    var s1 := Next(Initial(), Present(1, 1, true, HalOk, 0));
    var s2 := Next(s1, Cancel(1));
    var s3 := Next(s2, Finalize(0, HalCanceled, None));
    s := Next(s3, CallBack(0));
    if IsRun(s, rest) {
      RunOf(s3, CallBack(0), rest);
      RunOf(s2, Finalize(0, HalCanceled, None), [CallBack(0)] + rest);
      RunOf(s1, Cancel(1), [Finalize(0, HalCanceled, None)] + ([CallBack(0)] + rest));
      RunOf(Initial(), Present(1, 1, true, HalOk, 0),
            [Cancel(1)] + ([Finalize(0, HalCanceled, None)] + ([CallBack(0)] + rest)));
    }
  }

  lemma LateAbort(s: State)
    requires s.session.None? && s.running == [] && s.aborts == [0] && |s.hals| == 1 && 2 !in s.rate
    ensures var es := [Present(2, 2, true, HalOk, 0), Abort(0), CallBack(0)];
            && IsRun(s, es)
            && EndOf(s, es).completed == s.completed + [Completion(1, 2, RcAborted)]
  {
    var s1 := Next(s, Present(2, 2, true, HalOk, 0));
    var s2 := Next(s1, Abort(0));
    RunOf(s2, CallBack(0), []);
    RunOf(s1, Abort(0), [CallBack(0)]);
    RunOf(s, Present(2, 2, true, HalOk, 0), [Abort(0), CallBack(0)]);
    assert [Present(2, 2, true, HalOk, 0)] + [Abort(0), CallBack(0)]
        == [Present(2, 2, true, HalOk, 0), Abort(0), CallBack(0)];
    assert [Abort(0)] + [CallBack(0)] == [Abort(0), CallBack(0)];
    assert [CallBack(0)] + [] == [CallBack(0)];
  }

  lemma RunOf(s: State, e: Event, es: seq<Event>)
    requires Possible(s, e) && IsRun(Next(s, e), es)
    ensures IsRun(s, [e] + es) && EndOf(s, [e] + es) == EndOf(Next(s, e), es)
  {
    assert ([e] + es)[1..] == es;
  }

  // ---------------------------------------------------------------- the objects

  /** The callback slot of a connection. */
  class CompatSession {
    var callback: Option<nat>

    ghost predicate Represents(h: Hal)
      reads this
    {
      h.callback == callback.Some?
    }

    constructor ()
      ensures callback.None?
    {
      callback := None;
    }

    method PromptUserConfirmation(cb: nat, rc: HalCode) returns (r: ResponseCode)
      modifies this
      ensures old(callback).Some? ==> r == RcOperationPending && callback == old(callback)
      ensures old(callback).None? ==>
                r == Reported(rc) && Represents(NewHal(rc)) && (callback.Some? ==> callback.value == cb)
    {
      if callback.Some? {
        return RcOperationPending;
      }
      if rc == HalOk {
        callback := Some(cb);
      }
      r := Reported(rc);
    }

    /** Takes the callback out; only the first of several callers gets it. */
    method Take(ghost s: State, ghost h: nat, ghost rc: HalCode, ghost token: Option<Bytes>)
      returns (taken: Option<nat>)
      requires h < |s.hals| && Represents(s.hals[h])
      modifies this
      ensures taken == old(callback) && callback.None?
      ensures var t := DoFinalize(s, h, rc, token);
              Represents(t.hals[h]) && |t.running| == |s.running| + (if taken.Some? then 1 else 0)
    {
      taken := callback;
      callback := None;
    }
  }

  /** The manager's state behind its mutex. */
  class ApcManager {
    var session: Option<Session>
    var rate: map<int, RateInfo>

    ghost predicate Represents(s: State)
      reads this
    {
      s.session == session && s.rate == rate
    }

    constructor ()
      ensures Represents(Initial())
    {
      session, rate := None, map[];
    }

    /** A prompt that may be shown: none is open and the client is not cooling down. */
    method Admit(uid: int, now: nat) returns (ok: bool)
      ensures ok <==> session.None? && (uid in rate && rate[uid].counter >= 3 ==>
                                          now > rate[uid].timestamp + WaitAfter(rate[uid].counter))
    {
      if session.Some? {
        return false;
      }
      if uid in rate {
        var remaining := RemainingBackOff(rate[uid], now);
        return remaining.None?;
      }
      ok := true;
    }

    /** Shows a prompt; `hal` is the number of the new connection and `took` the time the service needed. */
    method PresentPrompt(client: int, uid: int, supported: bool, rc: HalCode, now: nat, took: nat, hal: nat,
                         ghost s: State)
      returns (shown: bool)
      requires Represents(s) && now == s.now && hal == |s.hals|
      modifies this`session
      ensures Represents(DoPresent(s, client, uid, supported, rc, took))
      ensures shown <==> |DoPresent(s, client, uid, supported, rc, took).prompts| > |s.prompts|
    {
      var admitted := Admit(uid, now);
      if !admitted || !supported || rc != HalOk {
        return false;
      }
      session := Some(Session(hal, client, uid, now + took, false));
      shown := true;
    }

    /** The connection whose abort is to be sent, if the session is the caller's. */
    method CancelPrompt(client: int, ghost s: State) returns (hal: Option<nat>)
      requires Represents(s)
      modifies this`session
      ensures Represents(DoCancel(s, client))
      ensures DoCancel(s, client).aborts == s.aborts + if hal.Some? then [hal.value] else []
    {
      if session.None? || session.value.client != client {
        return None;
      }
      session := Some(session.value.(aborted := true));
      hal := Some(session.value.hal);
    }

    method Result(rc: HalCode, token: Option<Bytes>, ghost s: State) returns (report: Option<(int, ResponseCode)>)
      requires Represents(s)
      modifies this
      ensures Represents(DoResult(s, rc, token)) && session.None?
      ensures report.Some? <==> s.session.Some?
      ensures DoResult(s, rc, token).completed
              == if report.None? then s.completed
                 else s.completed + [Completion(s.session.value.hal, report.value.0, report.value.1)]
    {
      if session.None? {
        return None;
      }
      var closing := session.value;
      session := None;
      var code := Reported(rc);
      if code == RcOk && token.Some? {
        rate := rate - {closing.uid};
      } else if code == RcCancelled || (code == RcAborted && closing.aborted) {
        var counter := if closing.uid in rate then rate[closing.uid].counter else 0;
        rate := rate[closing.uid := RateInfo(counter + 1, closing.start)];
      }
      report := Some((closing.client, code));
    }
  }
}
