/**
 A task queue with two priorities and one worker thread that is spawned on demand and goes
 away when there has been nothing to do for a while. Jobs share a shelf that outlives the worker.
 */
module AsyncTask {
  import opened KeystoreTypes

  type Job<!S> = S -> S

  datatype Action<!S> =
    | HiJob(job: Job<S>)
    | LoJob(job: Job<S>)
    | IdleFns(fns: seq<Job<S>>)

  /** What the mutex protects. */
  datatype Shared<!S> = Shared(
    running: bool,
    hi: seq<Job<S>>,
    lo: seq<Job<S>>,
    idle: seq<Job<S>>,
    shelf: Option<S>)

  predicate NothingQueued<S>(q: Shared<S>) {
    |q.hi| == 0 && |q.lo| == 0
  }

  // ---------------------------------------------------------------- critical sections

  function Push<S>(q: Shared<S>, job: Job<S>, hiPrio: bool): Shared<S> {
    if hiPrio then q.(hi := q.hi + [job], running := true) else q.(lo := q.lo + [job], running := true)
  }

  /** The worker's choice under the lock; it waits in the one case left out here. */
  function Choose<S>(q: Shared<S>, doneIdle: bool): Action<S>
    requires !(doneIdle && NothingQueued(q))
  {
    if NothingQueued(q) then IdleFns(q.idle)
    else if |q.hi| > 0 then HiJob(q.hi[0])
    else LoJob(q.lo[0])
  }

  function Popped<S>(q: Shared<S>): Shared<S> {
    if |q.hi| > 0 then q.(hi := q.hi[1..])
    else if |q.lo| > 0 then q.(lo := q.lo[1..])
    else q
  }

  // ---------------------------------------------------------------- the system

  /** Where a worker thread is between two critical sections. */
  datatype Worker<!S> =
    | Spawned
    | Polling(shelf: S, doneIdle: bool)
    | Acting(shelf: S, action: Action<S>)
    | Gone

  /** The shared state, every worker ever spawned, and the history of requests and completed actions. */
  datatype System<!S> = System(
    q: Shared<S>,
    workers: seq<Worker<S>>,
    hiAsked: seq<Job<S>>,
    loAsked: seq<Job<S>>,
    done: seq<Action<S>>)

  datatype Event<!S> =
    | Submit(job: Job<S>, hiPrio: bool)
    | AddIdle(fn: Job<S>)
    | Advance(worker: nat)

  function Initial<S>(): System<S> {
    System(Shared(false, [], [], [], None), [], [], [], [])
  }

  predicate Possible<S>(s: System<S>, e: Event<S>) {
    e.Advance? ==> e.worker < |s.workers| && !s.workers[e.worker].Gone?
  }

  function Next<S>(s: System<S>, e: Event<S>, empty: S): System<S>
    requires Possible(s, e)
  {
    match e
    case Submit(job, hiPrio) => SubmitJob(s, job, hiPrio)
    case AddIdle(fn) => s.(q := s.q.(idle := s.q.idle + [fn]))
    case Advance(i) => Step(s, i, empty)
  }

  function SubmitJob<S>(s: System<S>, job: Job<S>, hiPrio: bool): System<S> {
    s.(q := Push(s.q, job, hiPrio),
       workers := if s.q.running then s.workers else s.workers + [Spawned],
       hiAsked := if hiPrio then s.hiAsked + [job] else s.hiAsked,
       loAsked := if hiPrio then s.loAsked else s.loAsked + [job])
  }

  function Step<S>(s: System<S>, i: nat, empty: S): System<S>
    requires i < |s.workers| && !s.workers[i].Gone?
  {
    match s.workers[i]
    case Spawned =>
      var shelf := if s.q.shelf.Some? then s.q.shelf.value else empty;
      s.(q := s.q.(shelf := None), workers := s.workers[i := Polling(shelf, false)])
    case Polling(shelf, doneIdle) =>
      if doneIdle && NothingQueued(s.q) then
        // The wait timed out.
        s.(q := s.q.(shelf := Some(shelf), running := false), workers := s.workers[i := Gone])
      else
        s.(q := Popped(s.q), workers := s.workers[i := Acting(shelf, Choose(s.q, doneIdle))])
    case Acting(shelf, action) =>
      s.(workers := s.workers[i := Polling(Perform(action, shelf), action.IdleFns?)], done := s.done + [action])
  }

  // ---------------------------------------------------------------- what actions do

  function RunAll<S>(fns: seq<Job<S>>, shelf: S): S {
    if |fns| == 0 then shelf else RunAll(fns[1..], fns[0](shelf))
  }

  /** Idle functions run in the order they were added, each on what the one before left. */
  lemma {:induction false} RunAllInOrder<S>(fns: seq<Job<S>>, f: Job<S>, shelf: S)
    ensures RunAll([], shelf) == shelf && RunAll(fns + [f], shelf) == f(RunAll(fns, shelf))
  {
    if fns != [] {
      assert (fns + [f])[1..] == fns[1..] + [f];
      RunAllInOrder(fns[1..], f, fns[0](shelf));
    } else {
      assert [f][1..] == [];
    }
  }

  function Perform<S>(a: Action<S>, shelf: S): S {
    match a
    case HiJob(job) => job(shelf)
    case LoJob(job) => job(shelf)
    case IdleFns(fns) => RunAll(fns, shelf)
  }

  /** One after the other on a single shelf: the meaning of a history. */
  function Meaning<S>(done: seq<Action<S>>, empty: S): S {
    if |done| == 0 then empty else Perform(done[|done| - 1], Meaning(done[..|done| - 1], empty))
  }

  function HiOf<S>(actions: seq<Action<S>>): seq<Job<S>> {
    if |actions| == 0 then []
    else
      var last := actions[|actions| - 1];
      HiOf(actions[..|actions| - 1]) + if last.HiJob? then [last.job] else []
  }

  function LoOf<S>(actions: seq<Action<S>>): seq<Job<S>> {
    if |actions| == 0 then []
    else
      var last := actions[|actions| - 1];
      LoOf(actions[..|actions| - 1]) + if last.LoJob? then [last.job] else []
  }

  lemma Grown<S>(actions: seq<Action<S>>, a: Action<S>)
    ensures HiOf(actions + [a]) == HiOf(actions) + if a.HiJob? then [a.job] else []
    ensures LoOf(actions + [a]) == LoOf(actions) + if a.LoJob? then [a.job] else []
    ensures forall empty: S :: Meaning(actions + [a], empty) == Perform(a, Meaning(actions, empty))
  {
    assert (actions + [a])[..|actions|] == actions;
  }

  // ---------------------------------------------------------------- invariant

  function InFlight<S>(s: System<S>): seq<Action<S>> {
    if |s.workers| > 0 && s.workers[|s.workers| - 1].Acting? then [s.workers[|s.workers| - 1].action] else []
  }

  /** The actions that have been completed or begun. */
  function Begun<S>(s: System<S>): seq<Action<S>> {
    s.done + InFlight(s)
  }

  /** Every worker but the youngest has gone, and the youngest is there while the queue is marked running. */
  ghost predicate OneWorker<S>(s: System<S>) {
    && (forall i :: 0 <= i < |s.workers| - 1 ==> s.workers[i].Gone?)
    && (s.q.running <==> |s.workers| > 0 && !s.workers[|s.workers| - 1].Gone?)
  }

  /** Every job asked for has begun or is queued, once, in the order of the requests of its priority. */
  ghost predicate NothingLost<S>(s: System<S>) {
    && s.hiAsked == HiOf(Begun(s)) + s.q.hi
    && s.loAsked == LoOf(Begun(s)) + s.q.lo
  }

  /** Where the shelf is: with the worker that runs, else in the shared state. */
  ghost predicate ShelfIs<S>(s: System<S>, value: S, empty: S) {
    if |s.workers| == 0 then s.q.shelf.None? && value == empty
    else
      match s.workers[|s.workers| - 1]
      case Spawned => value == if s.q.shelf.Some? then s.q.shelf.value else empty
      case Polling(shelf, _) => s.q.shelf.None? && value == shelf
      case Acting(shelf, _) => s.q.shelf.None? && value == shelf
      case Gone => s.q.shelf == Some(value)
  }

  predicate LastWasIdle<S>(actions: seq<Action<S>>) {
    |actions| > 0 && actions[|actions| - 1].IdleFns?
  }

  /** Idle callbacks never run twice without a job in between. */
  ghost predicate IdleOncePerPause<S>(actions: seq<Action<S>>) {
    forall i :: 0 <= i < |actions| - 1 ==> !(actions[i].IdleFns? && actions[i + 1].IdleFns?)
  }

  ghost predicate IdleDiscipline<S>(s: System<S>) {
    && IdleOncePerPause(Begun(s))
    && (|s.workers| == 0 ==> NothingQueued(s.q) && s.done == [])
    && (|s.workers| > 0 ==>
        match s.workers[|s.workers| - 1]
        case Spawned => !NothingQueued(s.q)
        case Polling(_, doneIdle) =>
          if doneIdle then LastWasIdle(s.done) else !NothingQueued(s.q) || (|s.done| > 0 && !LastWasIdle(s.done))
        case Acting(_, _) => true
        case Gone => NothingQueued(s.q) && LastWasIdle(s.done))
  }

  ghost predicate Inv<S>(s: System<S>, empty: S) {
    && OneWorker(s)
    && NothingLost(s)
    && ShelfIs(s, Meaning(s.done, empty), empty)
    && IdleDiscipline(s)
  }

  lemma SubmitKeepsInv<S>(s: System<S>, job: Job<S>, hiPrio: bool, empty: S)
    requires Inv(s, empty)
    ensures Inv(SubmitJob(s, job, hiPrio), empty)
  {
    var t := SubmitJob(s, job, hiPrio);
    assert InFlight(t) == InFlight(s);
    if hiPrio {
      Regroup(HiOf(Begun(s)), s.q.hi, [job]);
    } else {
      Regroup(LoOf(Begun(s)), s.q.lo, [job]);
    }
  }

  lemma Regroup<T>(a: seq<T>, b: seq<T>, c: seq<T>)
    ensures a + (b + c) == (a + b) + c
  {
  }

  ghost predicate AboutToChoose<S>(s: System<S>, i: nat) {
    && i + 1 == |s.workers|
    && s.workers[i].Polling?
    && !(s.workers[i].doneIdle && NothingQueued(s.q))
  }

  lemma ChoiceBegins<S>(s: System<S>, i: nat, empty: S)
    requires AboutToChoose(s, i)
    ensures Begun(s) == s.done
    ensures Begun(Step(s, i, empty)) == s.done + [Choose(s.q, s.workers[i].doneIdle)]
  {
  }

  lemma ChoiceLosesNothing<S>(s: System<S>, i: nat, empty: S)
    requires NothingLost(s) && AboutToChoose(s, i)
    ensures NothingLost(Step(s, i, empty))
  {
    ChoiceBegins(s, i, empty);
    Grown(s.done, Choose(s.q, s.workers[i].doneIdle));
    assert |s.q.hi| > 0 ==> s.q.hi == [s.q.hi[0]] + s.q.hi[1..];
    assert |s.q.lo| > 0 ==> s.q.lo == [s.q.lo[0]] + s.q.lo[1..];
  }

  lemma ChoiceKeepsIdleDiscipline<S>(s: System<S>, i: nat, empty: S)
    requires IdleDiscipline(s) && AboutToChoose(s, i)
    ensures IdleDiscipline(Step(s, i, empty))
  {
    ChoiceBegins(s, i, empty);
    assert Choose(s.q, s.workers[i].doneIdle).IdleFns? ==> !LastWasIdle(s.done);
  }

  lemma PollKeepsInv<S>(s: System<S>, i: nat, empty: S)
    requires Inv(s, empty) && i < |s.workers| && s.workers[i].Polling?
    ensures Inv(Step(s, i, empty), empty)
  {
    assert i == |s.workers| - 1;
    if AboutToChoose(s, i) {
      ChoiceLosesNothing(s, i, empty);
      ChoiceKeepsIdleDiscipline(s, i, empty);
    } else {
      assert Begun(Step(s, i, empty)) == Begun(s);
    }
  }

  lemma ActKeepsInv<S>(s: System<S>, i: nat, empty: S)
    requires Inv(s, empty) && i < |s.workers| && s.workers[i].Acting?
    ensures Inv(Step(s, i, empty), empty)
  {
    var t := Step(s, i, empty);
    assert i == |s.workers| - 1;
    assert Begun(t) == Begun(s) == t.done;
    Grown(s.done, s.workers[i].action);
  }

  lemma StartKeepsInv<S>(s: System<S>, i: nat, empty: S)
    requires Inv(s, empty) && i < |s.workers| && s.workers[i].Spawned?
    ensures Inv(Step(s, i, empty), empty)
  {
    assert i == |s.workers| - 1;
    assert Begun(Step(s, i, empty)) == Begun(s);
  }

  lemma EventKeepsInv<S>(s: System<S>, e: Event<S>, empty: S)
    requires Inv(s, empty) && Possible(s, e)
    ensures Inv(Next(s, e, empty), empty)
  {
    match e
    case Submit(job, hiPrio) => SubmitKeepsInv(s, job, hiPrio, empty);
    case AddIdle(fn) => assert InFlight(Next(s, e, empty)) == InFlight(s);
    case Advance(i) =>
      match s.workers[i] {
        case Spawned => StartKeepsInv(s, i, empty);
        case Polling(_, _) => PollKeepsInv(s, i, empty);
        case Acting(_, _) => ActKeepsInv(s, i, empty);
      }
  }

  // ---------------------------------------------------------------- every run

  ghost predicate IsRun<S>(s: System<S>, es: seq<Event<S>>, empty: S)
    decreases |es|
  {
    |es| > 0 ==> Possible(s, es[0]) && IsRun(Next(s, es[0], empty), es[1..], empty)
  }

  ghost function EndOf<S>(s: System<S>, es: seq<Event<S>>, empty: S): System<S>
    requires IsRun(s, es, empty)
    decreases |es|
  {
    if |es| == 0 then s else EndOf(Next(s, es[0], empty), es[1..], empty)
  }

  lemma {:induction false} RunKeepsInv<S>(s: System<S>, es: seq<Event<S>>, empty: S)
    requires Inv(s, empty) && IsRun(s, es, empty)
    ensures Inv(EndOf(s, es, empty), empty)
    decreases |es|
  {
    if |es| > 0 {
      EventKeepsInv(s, es[0], empty);
      RunKeepsInv(Next(s, es[0], empty), es[1..], empty);
    }
  }

  /**
   What holds after any run from the start: actions are serialised, jobs begin once and in the order of
   their requests, the shelf is what the completed actions make of an empty one, idle callbacks do not
   repeat, and there is a worker whenever there is work.
   */
  lemma EveryRun<S>(es: seq<Event<S>>, empty: S)
    requires IsRun(Initial(), es, empty)
    ensures var s := EndOf(Initial(), es, empty);
            && OneWorker(s) && NothingLost(s) && IdleOncePerPause(Begun(s))
            && ShelfIs(s, Meaning(s.done, empty), empty)
            && (!NothingQueued(s.q) ==> |s.workers| > 0 && !s.workers[|s.workers| - 1].Gone?)
  {
    assert Inv(Initial(), empty);
    RunKeepsInv(Initial(), es, empty);
  }

  // ---------------------------------------------------------------- priorities

  lemma EventGrowsHistory<S>(s: System<S>, e: Event<S>, empty: S)
    requires Inv(s, empty) && Possible(s, e)
    ensures var t := Next(s, e, empty);
            && |HiOf(Begun(s))| <= |HiOf(Begun(t))| && |s.hiAsked| <= |t.hiAsked|
            && (|HiOf(Begun(s))| < |s.hiAsked| ==> LoOf(Begun(t)) == LoOf(Begun(s)))
  {
    var t := Next(s, e, empty);
    if e.Advance? && AboutToChoose(s, e.worker) {
      ChoiceBegins(s, e.worker, empty);
      Grown(s.done, Choose(s.q, s.workers[e.worker].doneIdle));
    } else {
      assert Begun(t) == Begun(s);
    }
  }

  /** As long as a high priority job asked for by now has not begun, no further low priority job begins. */
  lemma {:induction false} HighBeforeLow<S>(s: System<S>, es: seq<Event<S>>, empty: S)
    requires Inv(s, empty) && IsRun(s, es, empty)
    ensures var t := EndOf(s, es, empty);
            && |HiOf(Begun(s))| <= |HiOf(Begun(t))|
            && (|HiOf(Begun(t))| < |s.hiAsked| ==> LoOf(Begun(t)) == LoOf(Begun(s)))
    decreases |es|
  {
    if |es| > 0 {
      EventKeepsInv(s, es[0], empty);
      EventGrowsHistory(s, es[0], empty);
      HighBeforeLow(Next(s, es[0], empty), es[1..], empty);
    }
  }

  // ---------------------------------------------------------------- progress

  /** The worker on its own, for a number of steps or until it has gone. */
  function Alone<S>(s: System<S>, n: nat, empty: S): System<S>
    decreases n
  {
    if n == 0 || |s.workers| == 0 || s.workers[|s.workers| - 1].Gone? then s
    else Alone(Step(s, |s.workers| - 1, empty), n - 1, empty)
  }

  /** Steps until everything queued has been performed. */
  function StepsLeft<S>(s: System<S>): nat
    requires |s.workers| > 0
  {
    2 * (|s.q.hi| + |s.q.lo|) + match s.workers[|s.workers| - 1]
    case Spawned => 1
    case Polling(_, _) => 0
    case Acting(_, _) => 1
    case Gone => 0
  }

  lemma StepCountsDown<S>(s: System<S>, empty: S)
    requires Inv(s, empty) && s.q.running && StepsLeft(s) > 0
    ensures var t := Step(s, |s.workers| - 1, empty);
            && t.q.running && |t.workers| == |s.workers| && StepsLeft(t) == StepsLeft(s) - 1
            && t.hiAsked == s.hiAsked && t.loAsked == s.loAsked
  {
  }

  /**
   Left to itself the worker performs everything that was asked for, in exactly as many steps as there
   are jobs to pick up and to perform.
   */
  lemma {:induction false} WorkerDrains<S>(s: System<S>, empty: S)
    requires Inv(s, empty) && s.q.running
    ensures var t := Alone(s, StepsLeft(s), empty);
            && NothingQueued(t.q) && InFlight(t) == [] && t.q.running
            && HiOf(t.done) == t.hiAsked == s.hiAsked
            && LoOf(t.done) == t.loAsked == s.loAsked
    decreases StepsLeft(s)
  {
    if StepsLeft(s) == 0 {
      assert Begun(s) == s.done;
    } else {
      var t := Step(s, |s.workers| - 1, empty);
      EventKeepsInv(s, Advance(|s.workers| - 1), empty);
      StepCountsDown(s, empty);
      WorkerDrains(t, empty);
    }
  }

  /** With nothing more to do it calls the idle callbacks once and leaves the shelf behind. */
  lemma WorkerRetires<S>(s: System<S>, empty: S)
    requires Inv(s, empty) && s.q.running && StepsLeft(s) == 0
    ensures var n := if s.workers[|s.workers| - 1].doneIdle then 1 else 3;
            var t := Alone(s, n, empty);
            && !t.q.running && LastWasIdle(t.done)
            && t.q.shelf == Some(Meaning(t.done, empty))
  {
    var i := |s.workers| - 1;
    var t1 := Step(s, i, empty);
    EventKeepsInv(s, Advance(i), empty);
    if !s.workers[i].doneIdle {
      var t2 := Step(t1, i, empty);
      EventKeepsInv(t1, Advance(i), empty);
      TimesOut(t2, empty);
      assert Alone(s, 3, empty) == Alone(t1, 2, empty) == Alone(t2, 1, empty);
    } else {
      TimesOut(s, empty);
    }
  }

  lemma TimesOut<S>(s: System<S>, empty: S)
    requires Inv(s, empty) && |s.workers| > 0 && s.workers[|s.workers| - 1].Polling?
    requires s.workers[|s.workers| - 1].doneIdle && NothingQueued(s.q)
    ensures var t := Alone(s, 1, empty);
            !t.q.running && LastWasIdle(t.done) && t.q.shelf == Some(Meaning(t.done, empty))
  {
    assert Alone(s, 1, empty) == Step(s, |s.workers| - 1, empty);
  }

  // ---------------------------------------------------------------- the shared object

  /** The state behind the mutex; each method is one critical section. */
  class TaskState<!S> {
    var running: bool
    var hi: seq<Job<S>>
    var lo: seq<Job<S>>
    var idle: seq<Job<S>>
    var shelf: Option<S>

    function View(): Shared<S>
      reads this
    {
      Shared(running, hi, lo, idle, shelf)
    }

    constructor ()
      ensures View() == Initial<S>().q
    {
      running, hi, lo, idle, shelf := false, [], [], [], None;
    }

    method Queue(job: Job<S>, hiPrio: bool) returns (spawn: bool)
      modifies this
      ensures View() == Push(old(View()), job, hiPrio)
      ensures spawn <==> !old(running)
    {
      if hiPrio {
        hi := hi + [job];
      } else {
        lo := lo + [job];
      }
      spawn := !running;
      if spawn {
        running := true;
      }
    }

    method AddIdleFn(fn: Job<S>)
      modifies this
      ensures View() == old(View()).(idle := old(idle) + [fn])
    {
      idle := idle + [fn];
    }

    method TakeShelf(empty: S) returns (value: S)
      modifies this`shelf
      ensures value == if old(shelf).Some? then old(shelf).value else empty
      ensures shelf == None
    {
      value := if shelf.Some? then shelf.value else empty;
      shelf := None;
    }

    /** One pass of the worker under the lock; the wait ends with a queued job or with a time-out. */
    method Poll(mine: S, doneIdle: bool) returns (action: Option<Action<S>>)
      modifies this
      ensures action.None? <==> doneIdle && NothingQueued(old(View()))
      ensures action.None? ==> View() == old(View()).(shelf := Some(mine), running := false)
      ensures action.Some? ==> action.value == Choose(old(View()), doneIdle) && View() == Popped(old(View()))
    {
      if !doneIdle && |hi| == 0 && |lo| == 0 {
        return Some(IdleFns(idle));
      }
      if |hi| > 0 {
        action := Some(HiJob(hi[0]));
        hi := hi[1..];
      } else if |lo| > 0 {
        action := Some(LoJob(lo[0]));
        lo := lo[1..];
      } else {
        shelf := Some(mine);
        running := false;
        action := None;
      }
    }
  }

  /** Performs an action on the worker's shelf. */
  method Execute<S>(action: Action<S>, mine: S) returns (r: S)
    ensures r == Perform(action, mine)
  {
    match action
    case HiJob(job) => r := job(mine);
    case LoJob(job) => r := job(mine);
    case IdleFns(fns) =>
      r := mine;
      var i := 0;
      while i < |fns|
        invariant 0 <= i <= |fns|
        invariant RunAll(fns, mine) == RunAll(fns[i..], r)
      {
        r := fns[i](r);
        assert fns[i..][1..] == fns[i + 1..];
        i := i + 1;
      }
  }
}
