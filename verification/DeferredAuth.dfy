/**
 Operations that wait for an authentication token of their own. Tokens come in from outside at any time
 and find the operation through a map from challenges to receivers; a receiver only refers weakly to the
 request it serves.
 */
module DeferredAuth {
  import opened KeystoreTypes
  import opened Enforcements

  const CLEANUP_PERIOD := 25

  datatype Stamp = Stamp(challenge: int, millis: int)

  /** The channel on which a time stamp comes: at most one answer is ever sent, and it can be taken once. */
  datatype Channel = NotSent | Sent(answer: Result<Stamp>) | Drained

  /** A token together with its number in the order of arrival. */
  datatype Arrival = Arrival(token: AuthToken, serial: nat)

  /** `since` is the number of tokens that had arrived when the request was made. */
  datatype AuthRequest = AuthRequest(challenge: int, perOperation: bool, since: nat, stamp: Option<Channel>,
                                     hat: Option<Arrival>)

  datatype OpState =
    | Undecided(deferred: Deferred)
    | Waiting
    | HasTokens(hat: Arrival, stamp: Option<Stamp>)

  /** `origin` is what was decided when the operation was created; `request` names the request made for it, if any. */
  datatype Operation = Operation(origin: Deferred, request: Option<nat>, state: OpState)

  datatype Receivers = Receivers(waiting: map<int, nat>, counter: int)

  /** `arrivals` lists all tokens that ever came in and `matched` the request each one was handed to. */
  datatype State = State(
    ops: map<nat, Operation>,
    requests: seq<AuthRequest>,
    receivers: Receivers,
    inFlight: set<(nat, Arrival)>,
    arrivals: seq<AuthToken>,
    matched: seq<Option<nat>>)

  function Initial(): State {
    State(map[], [], Receivers(map[], CLEANUP_PERIOD + 1), {}, [], [])
  }

  // ---------------------------------------------------------------- the receiver map

  /** The request is still referred to by its operation. */
  predicate Alive(ops: map<nat, Operation>, r: nat) {
    exists o :: o in ops && ops[o].state.Waiting? && ops[o].request == Some(r)
  }

  function AddReceiver(m: Receivers, challenge: int, r: nat, ops: map<nat, Operation>): Receivers {
    var added := m.waiting[challenge := r];
    if m.counter - 1 == 0
    then Receivers(map c | c in added && Alive(ops, added[c]) :: added[c], CLEANUP_PERIOD + 1)
    else Receivers(added, m.counter - 1)
  }

  // ---------------------------------------------------------------- steps

  datatype Event =
    | Create(op: nat, deferred: Deferred)
    | Finalize(op: nat, challenge: int)
    | Arrive(token: AuthToken)
    | Deliver(request: nat, arrival: Arrival)
    | Answer(request: nat, answer: Result<Stamp>)
    | UseTokens(op: nat)
    | Drop(op: nat)

  /** The request an operation waits on. */
  predicate WaitsOn(s: State, o: nat, r: nat) {
    o in s.ops && s.ops[o].state.Waiting? && s.ops[o].request == Some(r) && r < |s.requests|
  }

  /** A call that waits for a time stamp is not over before the time stamp is there. */
  predicate CanUse(s: State, o: nat) {
    && o in s.ops
    && (s.ops[o].state.Waiting? ==>
          && s.ops[o].request.Some? && s.ops[o].request.value < |s.requests|
          && var r := s.requests[s.ops[o].request.value]; !(r.hat.Some? && r.stamp == Some(NotSent)))
  }

  predicate Possible(s: State, e: Event) {
    match e
    case Create(o, d) => o !in s.ops
    case Finalize(o, c) => o in s.ops && s.ops[o].state.Undecided?
    case Arrive(t) => true
    case Deliver(r, a) => (r, a) in s.inFlight && r < |s.requests|
    case Answer(r, _) => r < |s.requests| && s.requests[r].stamp == Some(NotSent)
    case UseTokens(o) => CanUse(s, o)
    case Drop(o) => o in s.ops
  }

  predicate PerOperation(d: Deferred) {
    d.OpAuthRequired? || d.TimeStampedOpAuthRequired?
  }

  function NewRequest(d: Deferred, challenge: int, since: nat): AuthRequest {
    AuthRequest(challenge, PerOperation(d), since,
                if d.OpAuthRequired? then None else Some(NotSent),
                if d.TimeStampRequired? then Some(Arrival(d.token, 0)) else None)
  }

  function DoFinalize(s: State, o: nat, challenge: int): State
    requires o in s.ops && s.ops[o].state.Undecided?
  {
    var d := s.ops[o].state.deferred;
    if d.NoDeferredAuth? then s
    else
      var r := |s.requests|;
      var ops := s.ops[o := s.ops[o].(request := Some(r), state := Waiting)];
      s.(ops := ops,
         requests := s.requests + [NewRequest(d, challenge, |s.arrivals|)],
         receivers := if PerOperation(d) then AddReceiver(s.receivers, challenge, r, ops) else s.receivers)
  }

  function DoArrive(s: State, t: AuthToken): State {
    if t.challenge in s.receivers.waiting then
      var r := s.receivers.waiting[t.challenge];
      s.(arrivals := s.arrivals + [t],
         matched := s.matched + [Some(r)],
         receivers := s.receivers.(waiting := s.receivers.waiting - {t.challenge}),
         inFlight := s.inFlight + {(r, Arrival(t, |s.arrivals|))})
    else s.(arrivals := s.arrivals + [t], matched := s.matched + [None])
  }

  function DoDeliver(s: State, r: nat, a: Arrival): State
    requires r < |s.requests|
  {
    var s1 := s.(inFlight := s.inFlight - {(r, a)});
    if Alive(s.ops, r) then s1.(requests := s.requests[r := s.requests[r].(hat := Some(a))]) else s1
  }

  datatype Tokens = Tokens(hat: Option<AuthToken>, stamp: Option<Stamp>)

  /** Takes the tokens out of a request; the authentication token is lost if the time stamp turns out bad. */
  function Collect(r: AuthRequest): (Result<(Arrival, Option<Stamp>)>, AuthRequest)
    requires !(r.hat.Some? && r.stamp == Some(NotSent))
  {
    if r.hat.None? then (Err(PermissionDenied), r)
    else
      var taken := r.(hat := None);
      match r.stamp
      case None => (Ok((r.hat.value, None)), taken)
      case Some(Sent(Ok(stamp))) => (Ok((r.hat.value, Some(stamp))), taken.(stamp := Some(Drained)))
      case Some(Sent(Err(e))) => (Err(e), taken.(stamp := Some(Drained)))
      case Some(_) => (Err(SystemError), taken)
  }

  /** What the hooks before update and finish return, and the state they leave. */
  function GetAuthTokens(s: State, o: nat): (Result<Tokens>, State)
    requires CanUse(s, o)
  {
    match s.ops[o].state
    case Undecided(d) =>
      (if d.NoDeferredAuth? then Ok(Tokens(None, None)) else Err(PermissionDenied), s)
    case HasTokens(hat, stamp) => (Ok(Tokens(Some(hat.token), stamp)), s)
    case Waiting =>
      var r := s.ops[o].request.value;
      var (result, request) := Collect(s.requests[r]);
      var s1 := s.(requests := s.requests[r := request]);
      match result
      case Err(e) => (Err(e), s1)
      case Ok((hat, stamp)) =>
        (Ok(Tokens(Some(hat.token), stamp)), s1.(ops := s.ops[o := s.ops[o].(state := HasTokens(hat, stamp))]))
  }

  function Next(s: State, e: Event): State
    requires Possible(s, e)
  {
    match e
    case Create(o, d) => s.(ops := s.ops[o := Operation(d, None, Undecided(d))])
    case Finalize(o, c) => DoFinalize(s, o, c)
    case Arrive(t) => DoArrive(s, t)
    case Deliver(r, a) => DoDeliver(s, r, a)
    case Answer(r, answer) => s.(requests := s.requests[r := s.requests[r].(stamp := Some(Sent(answer)))])
    case UseTokens(o) => GetAuthTokens(s, o).1
    case Drop(o) => s.(ops := s.ops - {o})
  }

  // ---------------------------------------------------------------- invariant

  /** The arrival was handed to the request: it came in later and carries the request's challenge. */
  ghost predicate Belongs(s: State, a: Arrival, r: nat) {
    && r < |s.requests|
    && s.requests[r].since <= a.serial < |s.arrivals| == |s.matched|
    && s.matched[a.serial] == Some(r)
    && s.arrivals[a.serial] == a.token
    && a.token.challenge == s.requests[r].challenge
  }

  ghost predicate RequestOk(s: State, r: nat)
    requires r < |s.requests|
  {
    && s.requests[r].since <= |s.arrivals|
    && (s.requests[r].perOperation && s.requests[r].hat.Some? ==> Belongs(s, s.requests[r].hat.value, r))
  }

  ghost predicate OpOk(s: State, o: nat)
    requires o in s.ops
  {
    var op := s.ops[o];
    && (op.request.Some? ==>
          op.request.value < |s.requests| && s.requests[op.request.value].perOperation == PerOperation(op.origin))
    && match op.state
       case Undecided(d) => op.origin == d && op.request.None?
       case Waiting => op.request.Some?
       case HasTokens(a, _) => op.request.Some? && (PerOperation(op.origin) ==> Belongs(s, a, op.request.value))
  }

  ghost predicate ReceiversOk(s: State) {
    && (forall c :: c in s.receivers.waiting ==>
          var r := s.receivers.waiting[c];
          r < |s.requests| && s.requests[r].challenge == c && s.requests[r].perOperation)
    && 1 <= s.receivers.counter <= CLEANUP_PERIOD + 1
  }

  ghost predicate InFlightOk(s: State) {
    forall r, a :: (r, a) in s.inFlight ==> Belongs(s, a, r) && s.requests[r].perOperation
  }

  ghost predicate OwnRequests(s: State) {
    forall o, p :: o in s.ops && p in s.ops && o != p && s.ops[o].request.Some? && s.ops[p].request.Some? ==>
      s.ops[o].request != s.ops[p].request
  }

  ghost predicate Inv(s: State) {
    && |s.matched| == |s.arrivals|
    && (forall r :: 0 <= r < |s.requests| ==> RequestOk(s, r))
    && (forall o :: o in s.ops ==> OpOk(s, o))
    && ReceiversOk(s)
    && InFlightOk(s)
    && OwnRequests(s)
  }

  /** Requests keep what identifies them and the record of arrivals only grows. */
  ghost predicate Extends(s: State, t: State) {
    && |s.requests| <= |t.requests|
    && s.arrivals <= t.arrivals
    && s.matched <= t.matched
    && (forall r :: 0 <= r < |s.requests| ==>
          && t.requests[r].challenge == s.requests[r].challenge
          && t.requests[r].perOperation == s.requests[r].perOperation
          && t.requests[r].since == s.requests[r].since)
  }

  lemma BelongsStays(s: State, t: State, a: Arrival, r: nat)
    requires Extends(s, t) && Belongs(s, a, r) && |t.matched| == |t.arrivals|
    ensures Belongs(t, a, r)
  {
  }

  /** The invariant follows for a step that extends the records once the new parts are accounted for. */
  lemma InvStays(s: State, t: State)
    requires Inv(s) && Extends(s, t) && |t.matched| == |t.arrivals|
    requires forall r :: 0 <= r < |t.requests| ==>
               || (r < |s.requests| && (t.requests[r].hat == s.requests[r].hat || t.requests[r].hat.None?))
               || RequestOk(t, r)
    requires forall o :: o in t.ops ==> (o in s.ops && t.ops[o] == s.ops[o]) || OpOk(t, o)
    requires forall r, a :: (r, a) in t.inFlight ==>
               (r, a) in s.inFlight || (Belongs(t, a, r) && t.requests[r].perOperation)
    requires ReceiversOk(t) && OwnRequests(t)
    ensures Inv(t)
  {
    forall r | 0 <= r < |t.requests|
      ensures RequestOk(t, r)
    {
      if r < |s.requests| && t.requests[r].hat == s.requests[r].hat {
        assert RequestOk(s, r);
        if s.requests[r].perOperation && s.requests[r].hat.Some? {
          BelongsStays(s, t, s.requests[r].hat.value, r);
        }
      } else if r < |s.requests| {
        assert RequestOk(s, r);
      }
    }
    forall o | o in t.ops
      ensures OpOk(t, o)
    {
      if o in s.ops && t.ops[o] == s.ops[o] {
        assert OpOk(s, o);
        if s.ops[o].state.HasTokens? && PerOperation(s.ops[o].origin) {
          BelongsStays(s, t, s.ops[o].state.hat, s.ops[o].request.value);
        }
      }
    }
    forall r, a | (r, a) in t.inFlight
      ensures Belongs(t, a, r) && t.requests[r].perOperation
    {
      if (r, a) in s.inFlight {
        BelongsStays(s, t, a, r);
      }
    }
  }

  lemma FinalizeKeepsInv(s: State, o: nat, c: int)
    requires Inv(s) && Possible(s, Finalize(o, c))
    ensures Inv(DoFinalize(s, o, c)) && Extends(s, DoFinalize(s, o, c))
  {
    var t := DoFinalize(s, o, c);
    assert OpOk(s, o);
    forall p | p in s.ops && s.ops[p].request.Some?
      ensures s.ops[p].request.value < |s.requests|
    {
      assert OpOk(s, p);
    }
    InvStays(s, t);
  }

  lemma ArriveKeepsInv(s: State, token: AuthToken)
    requires Inv(s)
    ensures Inv(DoArrive(s, token)) && Extends(s, DoArrive(s, token))
  {
    var t := DoArrive(s, token);
    if token.challenge in s.receivers.waiting {
      var r := s.receivers.waiting[token.challenge];
      assert RequestOk(s, r);
      assert Belongs(t, Arrival(token, |s.arrivals|), r);
    }
    InvStays(s, t);
  }

  lemma DeliverKeepsInv(s: State, r: nat, a: Arrival)
    requires Inv(s) && Possible(s, Deliver(r, a))
    ensures Inv(DoDeliver(s, r, a)) && Extends(s, DoDeliver(s, r, a))
  {
    var t := DoDeliver(s, r, a);
    assert RequestOk(s, r);
    BelongsStays(s, t, a, r);
    InvStays(s, t);
  }

  lemma UseKeepsInv(s: State, o: nat)
    requires Inv(s) && CanUse(s, o)
    ensures Inv(GetAuthTokens(s, o).1) && Extends(s, GetAuthTokens(s, o).1)
  {
    var t := GetAuthTokens(s, o).1;
    assert OpOk(s, o);
    if s.ops[o].state.Waiting? {
      var r := s.ops[o].request.value;
      assert RequestOk(s, r);
      if s.requests[r].perOperation && s.requests[r].hat.Some? {
        BelongsStays(s, t, s.requests[r].hat.value, r);
      }
    }
    InvStays(s, t);
  }

  lemma EventKeepsInv(s: State, e: Event)
    requires Inv(s) && Possible(s, e)
    ensures Inv(Next(s, e)) && Extends(s, Next(s, e))
  {
    match e
    case Finalize(o, c) => FinalizeKeepsInv(s, o, c);
    case Arrive(t) => ArriveKeepsInv(s, t);
    case Deliver(r, a) => DeliverKeepsInv(s, r, a);
    case UseTokens(o) => UseKeepsInv(s, o);
    case Answer(_, _) => InvStays(s, Next(s, e));
    case Create(_, _) => InvStays(s, Next(s, e));
    case Drop(_) => InvStays(s, Next(s, e));
  }

  // ---------------------------------------------------------------- every run

  ghost predicate IsRun(s: State, es: seq<Event>)
    decreases |es|
  {
    es != [] ==> Possible(s, es[0]) && IsRun(Next(s, es[0]), es[1..])
  }

  ghost function EndOf(s: State, es: seq<Event>): State
    requires IsRun(s, es)
    decreases |es|
  {
    if es == [] then s else EndOf(Next(s, es[0]), es[1..])
  }

  lemma {:induction false} RunKeepsInv(s: State, es: seq<Event>)
    requires Inv(s) && IsRun(s, es)
    ensures Inv(EndOf(s, es)) && Extends(s, EndOf(s, es))
    decreases |es|
  {
    if es != [] {
      EventKeepsInv(s, es[0]);
      RunKeepsInv(Next(s, es[0]), es[1..]);
    }
  }

  /**
   After any run, an operation that needs its own authorisation proceeds only with a token that carries the
   challenge given out for it and came in after the challenge was given out.
   */
  lemma AuthorizedByOwnToken(es: seq<Event>, o: nat)
    requires IsRun(Initial(), es)
    requires var s := EndOf(Initial(), es);
             CanUse(s, o) && PerOperation(s.ops[o].origin) && GetAuthTokens(s, o).0.Ok?
    ensures var s := EndOf(Initial(), es);
            var hat := GetAuthTokens(s, o).0.value.hat;
            && s.ops[o].request.Some? && s.ops[o].request.value < |s.requests|
            && var request := s.requests[s.ops[o].request.value];
               && hat.Some? && hat.value.challenge == request.challenge
               && exists n :: request.since <= n < |s.arrivals| && s.arrivals[n] == hat.value
  {
    RunKeepsInv(Initial(), es);
    var s := EndOf(Initial(), es);
    UseKeepsInv(s, o);
    var t := GetAuthTokens(s, o).1;
    assert OpOk(s, o) && OpOk(t, o);
    assert Belongs(t, t.ops[o].state.hat, s.ops[o].request.value);
    assert t.arrivals == s.arrivals;
  }

  /**
   From the key to the hooks: an operation on a key that is bound to users and has no timeout proceeds only with
   a token of its own, whatever else happens meanwhile.
   */
  lemma PerOperationKeysNeedOwnToken(r: Request, env: Env, es: seq<Event>, o: nat)
    requires r.key.Some? && Authorize(r, env).Granted?
    requires exists sid :: UserSecureID(sid) in r.key.value.1
    requires forall t :: AuthTimeout(t) !in r.key.value.1
    requires IsRun(Initial(), es)
    requires var s := EndOf(Initial(), es);
             CanUse(s, o) && s.ops[o].origin == Authorize(r, env).deferred && GetAuthTokens(s, o).0.Ok?
    ensures var s := EndOf(Initial(), es);
            var hat := GetAuthTokens(s, o).0.value.hat;
            && s.ops[o].request.Some? && s.ops[o].request.value < |s.requests|
            && hat.Some? && hat.value.challenge == s.requests[s.ops[o].request.value].challenge
  {
    PerOperationBound(r, env);
    AuthorizedByOwnToken(es, o);
  }

  /** Whoever has got tokens gets the same ones on every later call. */
  lemma {:induction false} TokensAreKept(s: State, es: seq<Event>, o: nat)
    requires IsRun(s, es)
    requires o in s.ops && s.ops[o].state.HasTokens?
    requires forall i :: 0 <= i < |es| ==> es[i] != Drop(o)
    ensures var t := EndOf(s, es);
            && CanUse(t, o) && t.ops[o] == s.ops[o]
            && GetAuthTokens(t, o) == (Ok(Tokens(Some(s.ops[o].state.hat.token), s.ops[o].state.stamp)), t)
    decreases |es|
  {
    if es != [] {
      var t := Next(s, es[0]);
      assert o in t.ops && t.ops[o] == s.ops[o];
      assert forall i :: 0 <= i < |es[1..]| ==> es[1..][i] == es[i + 1];
      TokensAreKept(t, es[1..], o);
    }
  }

  /** No token ever serves two operations, not even one after the other. */
  lemma OneTokenOneOperation(s: State, es: seq<Event>, o: nat, p: nat)
    requires Inv(s) && IsRun(s, es)
    requires o in s.ops && PerOperation(s.ops[o].origin) && s.ops[o].state.HasTokens?
    requires var t := EndOf(s, es);
             p in t.ops && PerOperation(t.ops[p].origin) && t.ops[p].state.HasTokens?
             && t.ops[p].state.hat.serial == s.ops[o].state.hat.serial
    ensures EndOf(s, es).ops[p].request == s.ops[o].request
    ensures es == [] ==> o == p
  {
    RunKeepsInv(s, es);
    var t := EndOf(s, es);
    assert OpOk(s, o) && OpOk(t, p);
    BelongsStays(s, t, s.ops[o].state.hat, s.ops[o].request.value);
  }

  // ---------------------------------------------------------------- time stamps

  predicate NeedsStamp(d: Deferred) {
    d.TimeStampRequired? || d.TimeStampedOpAuthRequired?
  }

  /** The time stamp was sent to the request in the course of the run. */
  predicate WasSent(es: seq<Event>, r: nat, stamp: Stamp) {
    Answer(r, Ok(stamp)) in es
  }

  /** A token that was found beforehand stays with the request. */
  ghost predicate KeepsToken(d: Deferred, hat: Option<Arrival>) {
    d.TimeStampRequired? && hat.Some? ==> hat.value.token == d.token
  }

  /** A request asks for a time stamp exactly if its operation needs one, and time stamps it holds were sent to it. */
  ghost predicate RequestStamped(s: State, es: seq<Event>, o: nat)
    requires o in s.ops
  {
    var op := s.ops[o];
    op.request.Some? && op.request.value < |s.requests| ==>
      var r := s.requests[op.request.value];
      && (r.stamp.Some? <==> NeedsStamp(op.origin))
      && (forall stamp :: r.stamp == Some(Sent(Ok(stamp))) ==> WasSent(es, op.request.value, stamp))
      && (op.state.Waiting? ==> KeepsToken(op.origin, r.hat))
  }

  ghost predicate OpStamped(s: State, es: seq<Event>, o: nat)
    requires o in s.ops
  {
    var op := s.ops[o];
    match op.state
    case Undecided(d) => d == op.origin
    case Waiting => !op.origin.NoDeferredAuth? && op.request.Some?
    case HasTokens(a, stamp) =>
      && op.request.Some? && !op.origin.NoDeferredAuth? && KeepsToken(op.origin, Some(a))
      && (stamp.Some? <==> NeedsStamp(op.origin))
      && (stamp.Some? ==> WasSent(es, op.request.value, stamp.value))
  }

  ghost predicate Stamped(s: State, es: seq<Event>) {
    && OwnRequests(s)
    && (forall o :: o in s.ops && s.ops[o].request.Some? ==> s.ops[o].request.value < |s.requests|)
    && (forall r, a :: (r, a) in s.inFlight ==> r < |s.requests| && s.requests[r].perOperation)
    && (forall c :: c in s.receivers.waiting ==>
          s.receivers.waiting[c] < |s.requests| && s.requests[s.receivers.waiting[c]].perOperation)
    && (forall o :: o in s.ops && s.ops[o].request.Some? ==>
          s.requests[s.ops[o].request.value].perOperation == PerOperation(s.ops[o].origin))
    && (forall o :: o in s.ops ==> RequestStamped(s, es, o) && OpStamped(s, es, o))
  }

  lemma SentStays(es: seq<Event>, e: Event, r: nat, stamp: Stamp)
    requires WasSent(es, r, stamp)
    ensures WasSent(es + [e], r, stamp)
  {
  }

  /** What is known of an operation that a step does not concern. */
  lemma StampedStays(s: State, t: State, es: seq<Event>, e: Event, o: nat)
    requires o in s.ops && o in t.ops && t.ops[o] == s.ops[o] && RequestStamped(s, es, o) && OpStamped(s, es, o)
    requires s.ops[o].request.Some? ==>
               && s.ops[o].request.value < |s.requests| <= |t.requests|
               && t.requests[s.ops[o].request.value] == s.requests[s.ops[o].request.value]
    ensures RequestStamped(t, es + [e], o) && OpStamped(t, es + [e], o)
  {
    var op := s.ops[o];
    if op.request.Some? {
      var r := s.requests[op.request.value];
      if r.stamp.Some? && r.stamp.value.Sent? && r.stamp.value.answer.Ok? {
        SentStays(es, e, op.request.value, r.stamp.value.answer.value);
      }
    }
    if op.state.HasTokens? && op.state.stamp.Some? {
      SentStays(es, e, op.request.value, op.state.stamp.value);
    }
  }

  lemma FinalizedStamps(s: State, es: seq<Event>, o: nat, c: int)
    requires Possible(s, Finalize(o, c)) && OpStamped(s, es, o) && !s.ops[o].state.deferred.NoDeferredAuth?
    ensures var t := DoFinalize(s, o, c);
            o in t.ops && RequestStamped(t, es + [Finalize(o, c)], o) && OpStamped(t, es + [Finalize(o, c)], o)
  {
  }

  lemma FinalizeStamps(s: State, es: seq<Event>, o: nat, c: int)
    requires Stamped(s, es) && Possible(s, Finalize(o, c))
    ensures Stamped(DoFinalize(s, o, c), es + [Finalize(o, c)])
  {
    var t := DoFinalize(s, o, c);
    forall p | p in t.ops
      ensures RequestStamped(t, es + [Finalize(o, c)], p) && OpStamped(t, es + [Finalize(o, c)], p)
    {
      assert OpStamped(s, es, p) && RequestStamped(s, es, p);
      if p == o && t != s {
        FinalizedStamps(s, es, o, c);
      } else {
        StampedStays(s, t, es, Finalize(o, c), p);
      }
    }
  }

  lemma DeliverStamps(s: State, es: seq<Event>, r: nat, a: Arrival)
    requires Stamped(s, es) && Possible(s, Deliver(r, a))
    ensures Stamped(DoDeliver(s, r, a), es + [Deliver(r, a)])
  {
    var t := DoDeliver(s, r, a);
    forall p | p in t.ops
      ensures RequestStamped(t, es + [Deliver(r, a)], p) && OpStamped(t, es + [Deliver(r, a)], p)
    {
      assert OpStamped(s, es, p) && RequestStamped(s, es, p);
      StampedStays(s, s, es, Deliver(r, a), p);
    }
  }

  lemma AnswerStamps(s: State, es: seq<Event>, r: nat, answer: Result<Stamp>)
    requires Stamped(s, es) && Possible(s, Answer(r, answer))
    ensures Stamped(Next(s, Answer(r, answer)), es + [Answer(r, answer)])
  {
    var e := Answer(r, answer);
    var t := Next(s, e);
    assert e in es + [e];
    forall p | p in t.ops
      ensures RequestStamped(t, es + [e], p) && OpStamped(t, es + [e], p)
    {
      assert OpStamped(s, es, p) && RequestStamped(s, es, p);
      StampedStays(s, s, es, e, p);
    }
  }

  lemma UserStamped(s: State, es: seq<Event>, o: nat)
    requires o in s.ops && RequestStamped(s, es, o) && OpStamped(s, es, o) && CanUse(s, o)
    ensures var t := GetAuthTokens(s, o).1;
            o in t.ops && RequestStamped(t, es, o) && OpStamped(t, es, o)
  {
  }

  lemma UseStamps(s: State, es: seq<Event>, o: nat)
    requires Stamped(s, es) && CanUse(s, o)
    ensures Stamped(GetAuthTokens(s, o).1, es + [UseTokens(o)])
  {
    var t := GetAuthTokens(s, o).1;
    var e := UseTokens(o);
    UseFrame(s, o);
    UserStamped(s, es, o);
    StampedStays(t, t, es, e, o);
    forall p | p in t.ops && p != o
      ensures RequestStamped(t, es + [e], p) && OpStamped(t, es + [e], p)
    {
      assert OpStamped(s, es, p) && RequestStamped(s, es, p);
      StampedStays(s, t, es, e, p);
    }
  }

  lemma UseFrame(s: State, o: nat)
    requires CanUse(s, o)
    ensures var t := GetAuthTokens(s, o).1;
            && t.ops.Keys == s.ops.Keys && t.inFlight == s.inFlight && t.receivers == s.receivers
            && |t.requests| == |s.requests|
            && (forall p :: p in s.ops ==> t.ops[p].request == s.ops[p].request && t.ops[p].origin == s.ops[p].origin)
            && (forall p :: p in s.ops && p != o ==> t.ops[p] == s.ops[p])
            && (forall r :: 0 <= r < |s.requests| ==> t.requests[r].perOperation == s.requests[r].perOperation)
            && (forall r :: 0 <= r < |s.requests| && s.ops[o].request != Some(r) ==> t.requests[r] == s.requests[r])
  {
  }

  lemma QuietStamps(s: State, es: seq<Event>, e: Event)
    requires Stamped(s, es) && Possible(s, e) && (e.Create? || e.Arrive? || e.Drop?)
    ensures Stamped(Next(s, e), es + [e])
  {
    var t := Next(s, e);
    forall p | p in t.ops
      ensures RequestStamped(t, es + [e], p) && OpStamped(t, es + [e], p)
    {
      if p in s.ops {
        assert OpStamped(s, es, p) && RequestStamped(s, es, p);
        StampedStays(s, t, es, e, p);
      }
    }
  }

  lemma EventStamps(s: State, es: seq<Event>, e: Event)
    requires Stamped(s, es) && Possible(s, e)
    ensures Stamped(Next(s, e), es + [e])
  {
    match e
    case Finalize(o, c) => FinalizeStamps(s, es, o, c);
    case Deliver(r, a) => DeliverStamps(s, es, r, a);
    case Answer(r, answer) => AnswerStamps(s, es, r, answer);
    case UseTokens(o) => UseStamps(s, es, o);
    case _ => QuietStamps(s, es, e);
  }

  lemma {:induction false} RunStamps(s: State, done: seq<Event>, es: seq<Event>)
    requires Stamped(s, done) && IsRun(s, es)
    ensures Stamped(EndOf(s, es), done + es)
    decreases |es|
  {
    if es == [] {
      assert done + es == done;
    } else {
      EventStamps(s, done, es[0]);
      RunStamps(Next(s, es[0]), done + [es[0]], es[1..]);
      assert done + [es[0]] + es[1..] == done + es;
    }
  }

  /**
   After any run, an operation that needs a time stamp proceeds only with one that was sent to its own request, one
   that does not gets none, and one for which a token had been found proceeds with that token.
   */
  lemma StampedByOwnAnswer(es: seq<Event>, o: nat)
    requires IsRun(Initial(), es)
    requires var s := EndOf(Initial(), es); CanUse(s, o) && GetAuthTokens(s, o).0.Ok?
    ensures var s := EndOf(Initial(), es);
            var origin, tokens := s.ops[o].origin, GetAuthTokens(s, o).0.value;
            && (tokens.stamp.Some? <==> NeedsStamp(origin))
            && (tokens.stamp.Some? ==>
                  s.ops[o].request.Some? && WasSent(es, s.ops[o].request.value, tokens.stamp.value))
            && (tokens.hat.Some? <==> !origin.NoDeferredAuth?)
            && (origin.TimeStampRequired? ==> tokens.hat == Some(origin.token))
  {
    var s := EndOf(Initial(), es);
    RunStamps(Initial(), [], es);
    assert [] + es == es;
    assert OpStamped(s, es, o) && RequestStamped(s, es, o);
  }

  /** And it does proceed, with token and time stamp, once both are there. */
  lemma StampLetsProceed(s: State, o: nat, r: nat, stamp: Stamp)
    requires WaitsOn(s, o, r) && s.requests[r].hat.Some? && s.requests[r].stamp == Some(NotSent)
    ensures !CanUse(s, o)
    ensures var t := Next(s, Answer(r, Ok(stamp)));
            CanUse(t, o) && GetAuthTokens(t, o).0 == Ok(Tokens(Some(s.requests[r].hat.value.token), Some(stamp)))
  {
  }

  /** An operation with a token that needs a time stamp waits for it. */
  lemma FinalizedWaits(s: State, o: nat, c: int)
    requires Possible(s, Finalize(o, c)) && s.ops[o].state.deferred.TimeStampRequired?
    ensures var t := Next(s, Finalize(o, c));
            var r := |s.requests|;
            && WaitsOn(t, o, r) && t.requests[r].stamp == Some(NotSent) && !CanUse(t, o)
            && t.requests[r].hat.Some? && t.requests[r].hat.value.token == s.ops[o].state.deferred.token
  {
  }

  // ---------------------------------------------------------------- nobody is forgotten

  /** Challenges are handed out by the secure element, which does not repeat one while it is in use. */
  ghost predicate FreshChallenge(s: State, e: Event) {
    e.Finalize? ==>
      forall o, r: nat :: WaitsOn(s, o, r) && s.requests[r].perOperation ==> s.requests[r].challenge != e.challenge
  }

  ghost predicate WasMatched(s: State, r: nat) {
    exists n :: 0 <= n < |s.matched| && s.matched[n] == Some(r)
  }

  ghost predicate Listed(s: State, r: nat)
    requires r < |s.requests|
  {
    s.requests[r].challenge in s.receivers.waiting && s.receivers.waiting[s.requests[r].challenge] == r
  }

  /** Every operation that waits for its token is listed until a token has been handed to it. */
  ghost predicate NoneForgotten(s: State) {
    forall o, r: nat :: WaitsOn(s, o, r) && s.requests[r].perOperation ==> Listed(s, r) || WasMatched(s, r)
  }

  lemma MatchedStays(s: State, t: State, r: nat)
    requires Extends(s, t) && WasMatched(s, r)
    ensures WasMatched(t, r)
  {
    var n :| 0 <= n < |s.matched| && s.matched[n] == Some(r);
    assert t.matched[n] == Some(r);
  }

  lemma FinalizeForgetsNone(s: State, o: nat, c: int)
    requires Inv(s) && NoneForgotten(s) && Possible(s, Finalize(o, c)) && FreshChallenge(s, Finalize(o, c))
    ensures NoneForgotten(DoFinalize(s, o, c))
  {
    var t := DoFinalize(s, o, c);
    FinalizeKeepsInv(s, o, c);
    forall p, r: nat | WaitsOn(t, p, r) && t.requests[r].perOperation
      ensures Listed(t, r) || WasMatched(t, r)
    {
      assert Alive(t.ops, r);
      if p != o {
        assert OpOk(s, p);
        assert WaitsOn(s, p, r);
        if WasMatched(s, r) {
          MatchedStays(s, t, r);
        }
      }
    }
  }

  lemma ArriveForgetsNone(s: State, token: AuthToken)
    requires Inv(s) && NoneForgotten(s)
    ensures NoneForgotten(DoArrive(s, token))
  {
    var t := DoArrive(s, token);
    ArriveKeepsInv(s, token);
    forall p, r: nat | WaitsOn(t, p, r) && t.requests[r].perOperation
      ensures Listed(t, r) || WasMatched(t, r)
    {
      assert WaitsOn(s, p, r);
      if WasMatched(s, r) {
        MatchedStays(s, t, r);
      } else if s.requests[r].challenge == token.challenge {
        assert t.matched[|s.matched|] == Some(r);
      }
    }
  }

  lemma EventForgetsNone(s: State, e: Event)
    requires Inv(s) && NoneForgotten(s) && Possible(s, e) && FreshChallenge(s, e)
    ensures NoneForgotten(Next(s, e))
  {
    if e.Finalize? {
      FinalizeForgetsNone(s, e.op, e.challenge);
    } else if e.Arrive? {
      ArriveForgetsNone(s, e.token);
    } else {
      var t := Next(s, e);
      EventKeepsInv(s, e);
      forall p, r: nat | WaitsOn(t, p, r) && t.requests[r].perOperation
        ensures Listed(t, r) || WasMatched(t, r)
      {
        assert WaitsOn(s, p, r);
        if WasMatched(s, r) {
          MatchedStays(s, t, r);
        }
      }
    }
  }

  ghost predicate ChallengesFresh(s: State, es: seq<Event>)
    requires IsRun(s, es)
    decreases |es|
  {
    es != [] ==> FreshChallenge(s, es[0]) && ChallengesFresh(Next(s, es[0]), es[1..])
  }

  /** The periodic cleanup never costs a waiting operation its token. */
  lemma {:induction false} RunForgetsNone(s: State, es: seq<Event>)
    requires Inv(s) && NoneForgotten(s) && IsRun(s, es) && ChallengesFresh(s, es)
    ensures NoneForgotten(EndOf(s, es))
    decreases |es|
  {
    if es != [] {
      EventKeepsInv(s, es[0]);
      EventForgetsNone(s, es[0]);
      RunForgetsNone(Next(s, es[0]), es[1..]);
    }
  }

  /** A token that carries the challenge of a waiting operation lets that operation proceed. */
  lemma TokenReachesItsOperation(s: State, o: nat, r: nat, token: AuthToken)
    requires Inv(s) && NoneForgotten(s) && WaitsOn(s, o, r) && s.requests[r].perOperation && !WasMatched(s, r)
    requires token.challenge == s.requests[r].challenge
    ensures var a := Arrival(token, |s.arrivals|);
            var t := DoArrive(s, token);
            && Possible(t, Deliver(r, a))
            && var u := DoDeliver(t, r, a);
               && WaitsOn(u, o, r) && u.requests[r].hat == Some(a)
               && (u.requests[r].stamp.None? ==> CanUse(u, o) && GetAuthTokens(u, o).0 == Ok(Tokens(Some(token), None)))
  {
    assert Listed(s, r);
    assert Alive(s.ops, r);
  }

  // ---------------------------------------------------------------- one request, one token

  /** No request is handed two tokens: one that is still listed has had none, and one in flight is the only one. */
  ghost predicate SingleUse(s: State) {
    && (forall m, n :: 0 <= m < n < |s.matched| && s.matched[m].Some? ==> s.matched[m] != s.matched[n])
    && (forall c :: c in s.receivers.waiting ==> !WasMatched(s, s.receivers.waiting[c]))
    && (forall r, a :: (r, a) in s.inFlight && r < |s.requests| ==> s.requests[r].hat.None?)
  }

  ghost predicate MatchesExist(s: State) {
    forall n :: 0 <= n < |s.matched| && s.matched[n].Some? ==> s.matched[n].value < |s.requests|
  }

  lemma FreshRequestUnmatched(s: State)
    requires MatchesExist(s)
    ensures !WasMatched(s, |s.requests|)
  {
  }

  lemma FinalizeKeepsSingleUse(s: State, o: nat, c: int)
    requires Inv(s) && SingleUse(s) && MatchesExist(s) && Possible(s, Finalize(o, c))
    ensures SingleUse(DoFinalize(s, o, c)) && MatchesExist(DoFinalize(s, o, c))
  {
    var t := DoFinalize(s, o, c);
    FreshRequestUnmatched(s);
    forall d | d in t.receivers.waiting
      ensures !WasMatched(t, t.receivers.waiting[d])
    {
      var r := t.receivers.waiting[d];
      assert r == |s.requests| || (d in s.receivers.waiting && r == s.receivers.waiting[d]);
      assert t.matched == s.matched;
    }
    forall r, a | (r, a) in t.inFlight && r < |t.requests|
      ensures t.requests[r].hat.None?
    {
      assert Belongs(s, a, r);
    }
  }

  lemma ArriveKeepsSingleUse(s: State, token: AuthToken)
    requires Inv(s) && SingleUse(s) && MatchesExist(s)
    ensures SingleUse(DoArrive(s, token)) && MatchesExist(DoArrive(s, token))
  {
    var t := DoArrive(s, token);
    if token.challenge in s.receivers.waiting {
      var r := s.receivers.waiting[token.challenge];
      assert RequestOk(s, r);
      forall c | c in t.receivers.waiting
        ensures !WasMatched(t, t.receivers.waiting[c])
      {
        assert s.requests[t.receivers.waiting[c]].challenge == c;
        assert !WasMatched(s, t.receivers.waiting[c]);
      }
    } else {
      forall c | c in t.receivers.waiting
        ensures !WasMatched(t, t.receivers.waiting[c])
      {
        assert !WasMatched(s, t.receivers.waiting[c]);
      }
    }
  }

  lemma DeliverKeepsSingleUse(s: State, r: nat, a: Arrival)
    requires Inv(s) && SingleUse(s) && MatchesExist(s) && Possible(s, Deliver(r, a))
    ensures SingleUse(DoDeliver(s, r, a)) && MatchesExist(DoDeliver(s, r, a))
  {
    var t := DoDeliver(s, r, a);
    forall q, b | (q, b) in t.inFlight && q < |t.requests|
      ensures t.requests[q].hat.None?
    {
      assert Belongs(s, b, q) && Belongs(s, a, r);
      assert q == r ==> b == a;
    }
    forall c | c in t.receivers.waiting
      ensures !WasMatched(t, t.receivers.waiting[c])
    {
      assert !WasMatched(s, t.receivers.waiting[c]);
    }
  }

  lemma EventKeepsSingleUse(s: State, e: Event)
    requires Inv(s) && SingleUse(s) && MatchesExist(s) && Possible(s, e)
    ensures SingleUse(Next(s, e)) && MatchesExist(Next(s, e))
  {
    match e
    case Finalize(o, c) => FinalizeKeepsSingleUse(s, o, c);
    case Arrive(t) => ArriveKeepsSingleUse(s, t);
    case Deliver(r, a) => DeliverKeepsSingleUse(s, r, a);
    case _ => OthersKeepSingleUse(s, Next(s, e));
  }

  lemma OthersKeepSingleUse(s: State, t: State)
    requires SingleUse(s) && MatchesExist(s)
    requires t.matched == s.matched && t.receivers == s.receivers && t.inFlight == s.inFlight
             && |t.requests| == |s.requests|
    requires forall r :: 0 <= r < |s.requests| ==> t.requests[r].hat == s.requests[r].hat || t.requests[r].hat.None?
    ensures SingleUse(t) && MatchesExist(t)
  {
    forall c | c in t.receivers.waiting
      ensures !WasMatched(t, t.receivers.waiting[c])
    {
      assert !WasMatched(s, t.receivers.waiting[c]);
    }
  }

  lemma {:induction false} RunKeepsSingleUse(s: State, es: seq<Event>)
    requires Inv(s) && SingleUse(s) && MatchesExist(s) && IsRun(s, es)
    ensures SingleUse(EndOf(s, es))
    decreases |es|
  {
    if es != [] {
      EventKeepsInv(s, es[0]);
      EventKeepsSingleUse(s, es[0]);
      RunKeepsSingleUse(Next(s, es[0]), es[1..]);
    }
  }

  /** Nothing will ever be handed to the request again. */
  ghost predicate Spent(s: State, r: nat) {
    && r < |s.requests| && s.requests[r].hat.None?
    && (forall c :: c in s.receivers.waiting ==> s.receivers.waiting[c] != r)
    && (forall a :: (r, a) !in s.inFlight)
  }

  lemma EventKeepsSpent(s: State, e: Event, r: nat)
    requires Possible(s, e) && Spent(s, r)
    ensures Spent(Next(s, e), r)
  {
  }

  lemma {:induction false} SpentForGood(s: State, es: seq<Event>, o: nat, r: nat)
    requires IsRun(s, es) && Spent(s, r) && WaitsOn(s, o, r)
    requires forall i :: 0 <= i < |es| ==> es[i] != Drop(o)
    ensures var t := EndOf(s, es);
            Spent(t, r) && WaitsOn(t, o, r) && CanUse(t, o) && GetAuthTokens(t, o).0.Err?
    decreases |es|
  {
    if es != [] {
      EventKeepsSpent(s, es[0], r);
      assert WaitsOn(Next(s, es[0]), o, r);
      assert forall i :: 0 <= i < |es[1..]| ==> es[1..][i] == es[i + 1];
      SpentForGood(Next(s, es[0]), es[1..], o, r);
    }
  }

  /**
   A bad time stamp costs an operation its one token, whether it had waited for the token or not: no later call, in
   any run, can succeed.
   */
  lemma BadStampIsFinal(s: State, o: nat, r: nat, es: seq<Event>)
    requires Inv(s) && SingleUse(s) && WaitsOn(s, o, r) && s.requests[r].hat.Some?
    requires s.requests[r].stamp.Some? && s.requests[r].stamp.value.Sent? && s.requests[r].stamp.value.answer.Err?
    requires IsRun(GetAuthTokens(s, o).1, es) && forall i :: 0 <= i < |es| ==> es[i] != Drop(o)
    ensures GetAuthTokens(s, o).0.Err?
    ensures var t := EndOf(GetAuthTokens(s, o).1, es);
            CanUse(t, o) && GetAuthTokens(t, o).0.Err?
  {
    var t := GetAuthTokens(s, o).1;
    assert RequestOk(s, r);
    assert s.requests[r].perOperation ==> WasMatched(s, r);
    assert Spent(t, r);
    SpentForGood(t, es, o, r);
  }

  // ---------------------------------------------------------------- repeated challenges

  /** A waiting operation drops off the list without a token exactly when its challenge is given out again. */
  lemma ForgottenIff(s: State, e: Event, o: nat, r: nat)
    requires Inv(s) && SingleUse(s) && MatchesExist(s) && Possible(s, e)
    requires WaitsOn(s, o, r) && s.requests[r].perOperation && Listed(s, r)
    ensures var t := Next(s, e);
            WaitsOn(t, o, r) && !Listed(t, r) && !WasMatched(t, r) <==>
              && e.Finalize? && PerOperation(s.ops[e.op].state.deferred)
              && e.challenge == s.requests[r].challenge
  {
    var t := Next(s, e);
    assert !WasMatched(s, r);
    assert OpOk(s, o);
    if e.Arrive? && e.token.challenge == s.requests[r].challenge {
      assert t.matched[|s.matched|] == Some(r);
    } else if e.Finalize? {
      assert WaitsOn(t, o, r) && t.matched == s.matched;
      assert Alive(t.ops, r);
    }
  }

  /** An operation that has dropped off the list never gets a token, in any run. */
  lemma ForgottenForGood(s: State, o: nat, r: nat, es: seq<Event>)
    requires Inv(s) && WaitsOn(s, o, r) && s.requests[r].perOperation && !Listed(s, r) && !WasMatched(s, r)
    requires IsRun(s, es) && forall i :: 0 <= i < |es| ==> es[i] != Drop(o)
    ensures var t := EndOf(s, es); CanUse(t, o) && GetAuthTokens(t, o).0.Err?
  {
    assert RequestOk(s, r);
    assert Spent(s, r);
    SpentForGood(s, es, o, r);
  }

  lemma RunOf(s: State, t: State, e: Event, es: seq<Event>)
    requires Possible(s, e) && t == Next(s, e) && IsRun(t, es)
    ensures IsRun(s, [e] + es) && EndOf(s, [e] + es) == EndOf(t, es)
  {
    assert ([e] + es)[1..] == es;
  }

  /** Two operations get the same challenge: the token for it goes to the second, and the first never gets one. */
  lemma RepeatedChallengeStarves(token: AuthToken) returns (es: seq<Event>)
    ensures es == [Create(1, OpAuthRequired)] + ([Finalize(1, token.challenge)] + ([Create(2, OpAuthRequired)]
                  + ([Finalize(2, token.challenge)] + ([Arrive(token)] + ([Deliver(1, Arrival(token, 0))] + [])))))
    ensures IsRun(Initial(), es)
    ensures var s := EndOf(Initial(), es);
            && WaitsOn(s, 1, 0) && CanUse(s, 1) && GetAuthTokens(s, 1).0.Err?
            && WaitsOn(s, 2, 1) && CanUse(s, 2) && GetAuthTokens(s, 2).0 == Ok(Tokens(Some(token), None))
  {
    var s1 := Next(Initial(), Create(1, OpAuthRequired));
    var s2 := Next(s1, Finalize(1, token.challenge));
    var s3 := Next(s2, Create(2, OpAuthRequired));
    var s4 := Next(s3, Finalize(2, token.challenge));
    var s5 := Next(s4, Arrive(token));
    var s6 := Next(s5, Deliver(1, Arrival(token, 0)));
    assert Alive(s5.ops, 1) by {
      assert s5.ops[2].state.Waiting? && s5.ops[2].request == Some(1);
    }
    var r6 := [Deliver(1, Arrival(token, 0))] + [];
    var r5 := [Arrive(token)] + r6;
    var r4 := [Finalize(2, token.challenge)] + r5;
    var r3 := [Create(2, OpAuthRequired)] + r4;
    var r2 := [Finalize(1, token.challenge)] + r3;
    RunOf(s5, s6, Deliver(1, Arrival(token, 0)), []);
    RunOf(s4, s5, Arrive(token), r6);
    RunOf(s3, s4, Finalize(2, token.challenge), r5);
    RunOf(s2, s3, Create(2, OpAuthRequired), r4);
    RunOf(s1, s2, Finalize(1, token.challenge), r3);
    RunOf(Initial(), s1, Create(1, OpAuthRequired), r2);
    es := [Create(1, OpAuthRequired)] + r2;
  }

  // ---------------------------------------------------------------- the objects

  /** The map from challenges to receivers with its cleanup counter. */
  class TokenReceiverMap {
    var waiting: map<int, nat>
    var counter: int

    function View(): Receivers
      reads this
    {
      Receivers(waiting, counter)
    }

    constructor ()
      ensures View() == Initial().receivers
    {
      waiting, counter := map[], CLEANUP_PERIOD + 1;
    }

    method Take(challenge: int) returns (r: Option<nat>)
      modifies this`waiting
      ensures r == if challenge in old(waiting) then Some(old(waiting)[challenge]) else None
      ensures waiting == old(waiting) - {challenge}
    {
      if challenge in waiting {
        r := Some(waiting[challenge]);
        waiting := waiting - {challenge};
      } else {
        r := None;
      }
    }

    /** Whether a receiver is obsolete is found out by following its weak reference. */
    method Add(challenge: int, r: nat, ops: map<nat, Operation>)
      requires 1 <= counter <= CLEANUP_PERIOD + 1
      modifies this
      ensures View() == AddReceiver(old(View()), challenge, r, ops)
      ensures 1 <= counter <= CLEANUP_PERIOD + 1
      ensures forall c :: c in old(waiting) && c != challenge && Alive(ops, old(waiting)[c]) ==>
                            c in waiting && waiting[c] == old(waiting)[c]
      ensures Alive(ops, r) ==> challenge in waiting && waiting[challenge] == r
    {
      waiting := waiting[challenge := r];
      counter := counter - 1;
      if counter == 0 {
        waiting := map c | c in waiting && Alive(ops, waiting[c]) :: waiting[c];
        counter := CLEANUP_PERIOD + 1;
      }
    }
  }

  /** What an operation and its receiver share. */
  class RequestCell {
    var hat: Option<Arrival>
    var stamp: Option<Channel>
    const challenge: int
    const perOperation: bool
    const since: nat

    function View(): AuthRequest
      reads this
    {
      AuthRequest(challenge, perOperation, since, stamp, hat)
    }

    constructor (r: AuthRequest)
      ensures View() == r
    {
      hat, stamp, challenge, perOperation, since := r.hat, r.stamp, r.challenge, r.perOperation, r.since;
    }

    method AddAuthToken(a: Arrival)
      modifies this`hat
      ensures View() == old(View()).(hat := Some(a))
    {
      hat := Some(a);
    }

    /** The token is taken first; only then is the time stamp looked at. */
    method GetAuthTokens() returns (r: Result<(Arrival, Option<Stamp>)>)
      requires !(hat.Some? && stamp == Some(NotSent))
      modifies this
      ensures (r, View()) == Collect(old(View()))
    {
      if hat.None? {
        return Err(PermissionDenied);
      }
      var token := hat.value;
      hat := None;
      match stamp
      case None => r := Ok((token, None));
      case Some(Sent(answer)) =>
        stamp := Some(Drained);
        r := if answer.Ok? then Ok((token, Some(answer.value))) else Err(answer.error);
      case Some(_) => r := Err(SystemError);
    }
  }
}
