/**
 The thread pool as a machine: the bounded global ring guarded by the pool mutex, one deque per worker
 with its own lock, stealing, and the shutdown drain.

 Each lock region is one event; the scans over the local deques take one event per deque, so other
 workers push and steal between two looks of the same scan. Tasks are numbers.
 */
module ThreadPool {
  import opened Basics

  type Task = nat
  datatype RejectPolicy = Abort | CallerRuns | Discard

  datatype Worker =
    | AtTop                     // about to pop its own deque
    | Running(task: Task)
    | AtGlobal                  // own deque was empty
    | Stealing(offset: nat)
    | AtWait                    // about to lock the pool mutex for the wait
    | Probing(offset: nat)      // holds the mutex, evaluating the wait predicate
    | Parked
    | Scanning(index: nat)      // holds the mutex, checking that all deques are empty
    | Exited

  /** How a thread outside the pool submits. */
  datatype Submission = TryPost | PostWait | PostFor(expired: bool) | Post

  /** `accepted`, `executed`, `ranByCaller` are histories. */
  datatype State = State(
    capacity: nat,
    policy: RejectPolicy,
    ring: seq<Task>,
    locals: seq<seq<Task>>,
    workers: seq<Worker>,
    stopping: bool,
    accepted: multiset<Task>,
    executed: multiset<Task>,
    ranByCaller: multiset<Task>)

  datatype Event =
    | PopOwn(w: nat)
    | PushLocal(w: nat, task: Task)
    | FinishTask(w: nat)
    | TakeGlobal(w: nat)
    | StealNext(w: nat)
    | LockForWait(w: nat)
    | ProbeNext(w: nat)
    | ScanNext(w: nat)
    | Submit(how: Submission, task: Task)
    | Stop

  predicate WellFormed(s: State) {
    |s.workers| > 0 && |s.locals| == |s.workers|
  }

  predicate HoldsMutex(w: Worker) { w.Probing? || w.Scanning? }

  predicate MutexFree(s: State) {
    forall w :: 0 <= w < |s.workers| ==> !HoldsMutex(s.workers[w])
  }

  predicate Enabled(s: State, e: Event) {
    match e
    case PopOwn(w) => w < |s.workers| && s.workers[w].AtTop?
    case PushLocal(w, _) => w < |s.workers| && s.workers[w].Running?
    case FinishTask(w) => w < |s.workers| && s.workers[w].Running?
    case TakeGlobal(w) => w < |s.workers| && s.workers[w].AtGlobal? && MutexFree(s)
    case StealNext(w) => w < |s.workers| && s.workers[w].Stealing?
    case LockForWait(w) => w < |s.workers| && (s.workers[w].AtWait? || s.workers[w].Parked?) && MutexFree(s)
    case ProbeNext(w) => w < |s.workers| && s.workers[w].Probing?
    case ScanNext(w) => w < |s.workers| && s.workers[w].Scanning?
    case Submit(how, _) => MutexFree(s) && (how.PostWait? ==> s.stopping || |s.ring| < s.capacity)
    case Stop => MutexFree(s)
  }

  function At(s: State, w: nat, pc: Worker): State
    requires w < |s.workers|
  {
    s.(workers := s.workers[w := pc])
  }

  function Do(s: State, e: Event): State
    requires WellFormed(s) && Enabled(s, e)
  {
    match e
    case PopOwn(w) =>
      if s.locals[w] == [] then At(s, w, AtGlobal)
      else At(s, w, Running(s.locals[w][0])).(locals := s.locals[w := s.locals[w][1..]])
    case PushLocal(w, task) =>
      s.(locals := s.locals[w := [task] + s.locals[w]], accepted := s.accepted + multiset{task})
    case FinishTask(w) =>
      At(s, w, AtTop).(executed := s.executed + multiset{s.workers[w].task})
    case TakeGlobal(w) =>
      if s.ring == [] then At(s, w, Stealing(1))
      else At(s, w, Running(s.ring[0])).(ring := s.ring[1..])
    case StealNext(w) =>
      var offset := s.workers[w].offset;
      if offset >= |s.workers| then At(s, w, AtWait)
      else
        var victim := (w + offset) % |s.workers|;
        var queue := s.locals[victim];
        if queue == [] then At(s, w, Stealing(offset + 1))
        else At(s, w, Running(queue[|queue| - 1])).(locals := s.locals[victim := queue[..|queue| - 1]])
    case LockForWait(w) =>
      if s.stopping then (if s.ring != [] then At(s, w, AtTop) else At(s, w, Scanning(0)))
      else if s.ring != [] then At(s, w, AtTop)
      else At(s, w, Probing(0))
    case ProbeNext(w) =>
      var offset := s.workers[w].offset;
      if offset >= |s.workers| then At(s, w, Parked)
      else if s.locals[(w + offset) % |s.workers|] != [] then At(s, w, AtTop)
      else At(s, w, Probing(offset + 1))
    case ScanNext(w) =>
      var index := s.workers[w].index;
      if index >= |s.workers| then At(s, w, Exited)
      else if s.locals[index] != [] then At(s, w, AtTop)
      else At(s, w, Scanning(index + 1))
    case Submit(how, task) =>
      if s.stopping then s
      else if |s.ring| < s.capacity then
        s.(ring := s.ring + [task], accepted := s.accepted + multiset{task})
      else if how.Post? && s.policy.CallerRuns? then
        s.(ranByCaller := s.ranByCaller + multiset{task})
      else s
    case Stop => s.(stopping := true)
  }

  function Init(workers: nat, capacity: nat, policy: RejectPolicy): State
    requires workers > 0 && capacity > 0
  {
    State(capacity, policy, [], seq(workers, _ => []), seq(workers, _ => AtTop), false,
          multiset{}, multiset{}, multiset{})
  }

  function Exec(s: State, events: seq<Event>): (o: Outcome<State>)
    requires WellFormed(s)
    ensures o.After? ==> WellFormed(o.state)
    decreases |events|
  {
    if events == [] then After(s)
    else if !Enabled(s, events[0]) then Stuck
    else Exec(Do(s, events[0]), events[1..])
  }

  // ---------------------------------------------------------------- where the tasks are

  function Count(queue: seq<Task>, task: Task): nat {
    if queue == [] then 0 else (if queue[0] == task then 1 else 0) + Count(queue[1..], task)
  }

  lemma {:induction false} CountConcat(a: seq<Task>, b: seq<Task>, task: Task)
    ensures Count(a + b, task) == Count(a, task) + Count(b, task)
  {
    if a == [] {
      assert a + b == b;
    } else {
      assert (a + b)[1..] == a[1..] + b;
      CountConcat(a[1..], b, task);
    }
  }

  function InLocals(locals: seq<seq<Task>>, task: Task): nat {
    if locals == [] then 0 else Count(locals[0], task) + InLocals(locals[1..], task)
  }

  function HeldBy(w: Worker, task: Task): nat {
    if w == Running(task) then 1 else 0
  }

  function InHands(workers: seq<Worker>, task: Task): nat {
    if workers == [] then 0 else HeldBy(workers[0], task) + InHands(workers[1..], task)
  }

  lemma {:induction false} LocalsUpdate(locals: seq<seq<Task>>, i: nat, queue: seq<Task>, task: Task)
    requires i < |locals|
    ensures InLocals(locals[i := queue], task) + Count(locals[i], task) == InLocals(locals, task) + Count(queue, task)
  {
    if i == 0 {
      assert locals[0 := queue][1..] == locals[1..];
    } else {
      assert locals[i := queue][1..] == locals[1..][i - 1 := queue];
      LocalsUpdate(locals[1..], i - 1, queue, task);
    }
  }

  lemma {:induction false} HandsUpdate(workers: seq<Worker>, i: nat, pc: Worker, task: Task)
    requires i < |workers|
    ensures InHands(workers[i := pc], task) + HeldBy(workers[i], task) == InHands(workers, task) + HeldBy(pc, task)
  {
    if i == 0 {
      assert workers[0 := pc][1..] == workers[1..];
    } else {
      assert workers[i := pc][1..] == workers[1..][i - 1 := pc];
      HandsUpdate(workers[1..], i - 1, pc, task);
    }
  }

  /** Each acceptance of the task is in exactly one place: queued, in a worker's hands, or executed. */
  predicate ConservedFor(s: State, task: Task) {
    s.accepted[task] ==
      Count(s.ring, task) + InLocals(s.locals, task) + InHands(s.workers, task) + s.executed[task]
  }

  // ---------------------------------------------------------------- the invariant

  /** Past its own empty pop a worker's deque stays empty: only the worker itself pushes to it. */
  predicate QuietInv(s: State, w: nat) {
    w < |s.workers| && w < |s.locals| ==>
      && (!s.workers[w].AtTop? && !s.workers[w].Running? ==> s.locals[w] == [])
      && (s.workers[w].Exited? || s.workers[w].Scanning? ==> s.stopping && s.ring == [])
      && (s.workers[w].Probing? ==> !s.stopping)
  }

  predicate OneHolder(s: State) {
    forall v, w :: 0 <= v < w < |s.workers| ==> !(HoldsMutex(s.workers[v]) && HoldsMutex(s.workers[w]))
  }

  ghost predicate Inv(s: State) {
    && WellFormed(s)
    && |s.ring| <= s.capacity
    && (forall task: Task {:trigger ConservedFor(s, task)} :: ConservedFor(s, task))
    && OneHolder(s)
    && (forall w: nat {:trigger QuietInv(s, w)} :: QuietInv(s, w))
  }

  /** A worker moves on without touching a queue or a task. */
  lemma MovingConserves(s: State, w: nat, pc: Worker, task: Task)
    requires WellFormed(s) && ConservedFor(s, task)
    requires w < |s.workers| && HeldBy(pc, task) == HeldBy(s.workers[w], task)
    ensures ConservedFor(At(s, w, pc), task)
  {
    HandsUpdate(s.workers, w, pc, task);
  }

  /** A worker with free hands takes the task of a deque that then has `rest` left. */
  lemma TakingConserves(s: State, w: nat, from: nat, taken: Task, rest: seq<Task>, task: Task)
    requires WellFormed(s) && ConservedFor(s, task)
    requires w < |s.workers| && from < |s.locals| && !s.workers[w].Running?
    requires Count(s.locals[from], task) == HeldBy(Running(taken), task) + Count(rest, task)
    ensures ConservedFor(At(s, w, Running(taken)).(locals := s.locals[from := rest]), task)
  {
    HandsUpdate(s.workers, w, Running(taken), task);
    LocalsUpdate(s.locals, from, rest, task);
  }

  lemma StealConserves(s: State, e: Event, task: Task)
    requires WellFormed(s) && ConservedFor(s, task) && Enabled(s, e) && e.StealNext?
    ensures ConservedFor(Do(s, e), task)
  {
    var offset := s.workers[e.w].offset;
    if offset >= |s.workers| {
      MovingConserves(s, e.w, AtWait, task);
    } else {
      var victim := (e.w + offset) % |s.workers|;
      var queue := s.locals[victim];
      if queue == [] {
        MovingConserves(s, e.w, Stealing(offset + 1), task);
      } else {
        var last := |queue| - 1;
        assert queue == queue[..last] + [queue[last]];
        CountConcat(queue[..last], [queue[last]], task);
        TakingConserves(s, e.w, victim, queue[last], queue[..last], task);
      }
    }
  }

  lemma GlobalConserves(s: State, e: Event, task: Task)
    requires WellFormed(s) && ConservedFor(s, task) && Enabled(s, e) && (e.TakeGlobal? || e.Submit? || e.Stop?)
    ensures ConservedFor(Do(s, e), task)
  {
    if e.TakeGlobal? {
      HandsUpdate(s.workers, e.w, Do(s, e).workers[e.w], task);
    } else if e.Submit? {
      CountConcat(s.ring, [e.task], task);
    }
  }

  lemma OwnerConserves(s: State, e: Event, task: Task)
    requires WellFormed(s) && ConservedFor(s, task) && Enabled(s, e) && (e.PopOwn? || e.PushLocal? || e.FinishTask?)
    ensures ConservedFor(Do(s, e), task)
  {
    if e.PopOwn? {
      if s.locals[e.w] == [] {
        MovingConserves(s, e.w, AtGlobal, task);
      } else {
        TakingConserves(s, e.w, e.w, s.locals[e.w][0], s.locals[e.w][1..], task);
      }
    } else if e.PushLocal? {
      LocalsUpdate(s.locals, e.w, [e.task] + s.locals[e.w], task);
    } else {
      HandsUpdate(s.workers, e.w, AtTop, task);
    }
  }

  lemma EventConserves(s: State, e: Event, task: Task)
    requires WellFormed(s) && ConservedFor(s, task) && Enabled(s, e)
    ensures ConservedFor(Do(s, e), task)
  {
    if e.PopOwn? || e.PushLocal? || e.FinishTask? {
      OwnerConserves(s, e, task);
    } else if e.TakeGlobal? || e.Submit? || e.Stop? {
      GlobalConserves(s, e, task);
    } else if e.StealNext? {
      StealConserves(s, e, task);
    } else {
      MovingConserves(s, e.w, Do(s, e).workers[e.w], task);
    }
  }

  lemma OthersStayQuiet(s: State, e: Event, w: nat)
    requires Inv(s) && Enabled(s, e)
    requires e.TakeGlobal? || e.LockForWait? || e.Submit? || e.Stop?
    ensures QuietInv(Do(s, e), w)
  {
    assert QuietInv(s, w);
    if w < |s.workers| {
      assert !HoldsMutex(s.workers[w]);
    }
  }

  /** A step of one worker keeps the others quiet: it pushes to no deque but its own. */
  lemma OwnStepKeepsQuiet(s: State, e: Event, w: nat)
    requires Inv(s) && Enabled(s, e) && (e.PopOwn? || e.PushLocal? || e.FinishTask?)
    ensures QuietInv(Do(s, e), w)
  {
    assert QuietInv(s, w) && QuietInv(s, e.w);
    hide Inv;
  }

  lemma ScanKeepsQuiet(s: State, e: Event, w: nat)
    requires Inv(s) && Enabled(s, e) && (e.StealNext? || e.ProbeNext? || e.ScanNext?)
    ensures QuietInv(Do(s, e), w)
  {
    assert QuietInv(s, w) && QuietInv(s, e.w);
    hide Inv;
  }

  lemma EventKeepsQuiet(s: State, e: Event, w: nat)
    requires Inv(s) && Enabled(s, e)
    ensures QuietInv(Do(s, e), w)
  {
    if e.TakeGlobal? || e.LockForWait? || e.Submit? || e.Stop? {
      OthersStayQuiet(s, e, w);
    } else if e.PopOwn? || e.PushLocal? || e.FinishTask? {
      OwnStepKeepsQuiet(s, e, w);
    } else {
      ScanKeepsQuiet(s, e, w);
    }
    hide Inv, Do, QuietInv;
  }

  /** A step that takes the mutex finds it free; other steps make nobody a holder. */
  lemma LockingKeepsOneHolder(s: State, e: Event)
    requires WellFormed(s) && OneHolder(s) && Enabled(s, e)
    requires e.TakeGlobal? || e.LockForWait? || e.Submit? || e.Stop?
    ensures OneHolder(Do(s, e))
  {
    assert forall w :: 0 <= w < |s.workers| ==> !HoldsMutex(s.workers[w]);
  }

  lemma EventKeepsOneHolder(s: State, e: Event)
    requires WellFormed(s) && OneHolder(s) && Enabled(s, e)
    ensures OneHolder(Do(s, e))
  {
    if e.TakeGlobal? || e.LockForWait? || e.Submit? || e.Stop? {
      LockingKeepsOneHolder(s, e);
      hide Do, OneHolder;
    } else {
      assert HoldsMutex(Do(s, e).workers[e.w]) ==> HoldsMutex(s.workers[e.w]);
    }
  }

  lemma EventKeepsInv(s: State, e: Event)
    requires Inv(s) && Enabled(s, e)
    ensures Inv(Do(s, e))
  {
    var s' := Do(s, e);
    EventKeepsOneHolder(s, e);
    forall task: Task ensures ConservedFor(s', task) { EventConserves(s, e, task); }
    forall w: nat ensures QuietInv(s', w) { EventKeepsQuiet(s, e, w); }
  }

  lemma {:induction false} NoLocals(locals: seq<seq<Task>>, task: Task)
    requires forall i :: 0 <= i < |locals| ==> locals[i] == []
    ensures InLocals(locals, task) == 0
  {
    if locals != [] {
      NoLocals(locals[1..], task);
    }
  }

  lemma {:induction false} NoHands(workers: seq<Worker>, task: Task)
    requires forall i :: 0 <= i < |workers| ==> !workers[i].Running?
    ensures InHands(workers, task) == 0
  {
    if workers != [] {
      NoHands(workers[1..], task);
    }
  }

  lemma InitKeepsInv(workers: nat, capacity: nat, policy: RejectPolicy)
    requires workers > 0 && capacity > 0
    ensures Inv(Init(workers, capacity, policy))
  {
    var s := Init(workers, capacity, policy);
    forall task: Task ensures ConservedFor(s, task) {
      NoLocals(s.locals, task);
      NoHands(s.workers, task);
    }
  }

  lemma {:induction false} RunKeepsInv(s: State, events: seq<Event>)
    requires Inv(s)
    ensures Exec(s, events).After? ==> Inv(Exec(s, events).state)
    decreases |events|
  {
    if events != [] && Enabled(s, events[0]) {
      EventKeepsInv(s, events[0]);
      RunKeepsInv(Do(s, events[0]), events[1..]);
    }
  }

  // ---------------------------------------------------------------- what users rely on

  predicate AllExited(s: State) {
    forall w :: 0 <= w < |s.workers| ==> s.workers[w].Exited?
  }

  /** Main result: in every interleaving no task runs more often than it was accepted, and every
      acceptance not yet executed is in a queue or in a worker's hands. */
  lemma EveryRunConserves(workers: nat, capacity: nat, policy: RejectPolicy, events: seq<Event>, task: Task)
    requires workers > 0 && capacity > 0
    requires Exec(Init(workers, capacity, policy), events).After?
    ensures var s := Exec(Init(workers, capacity, policy), events).state;
            && s.executed[task] <= s.accepted[task]
            && s.accepted[task] - s.executed[task] ==
                 Count(s.ring, task) + InLocals(s.locals, task) + InHands(s.workers, task)
            && |s.ring| <= s.capacity
  {
    InitKeepsInv(workers, capacity, policy);
    RunKeepsInv(Init(workers, capacity, policy), events);
    assert ConservedFor(Exec(Init(workers, capacity, policy), events).state, task);
  }

  lemma ExitedMeansDrained(s: State)
    requires Inv(s) && AllExited(s)
    ensures s.ring == [] && s.executed == s.accepted
    ensures forall w :: 0 <= w < |s.locals| ==> s.locals[w] == []
  {
    assert s.workers[0].Exited? && QuietInv(s, 0);
    forall w | 0 <= w < |s.locals| ensures s.locals[w] == [] {
      assert s.workers[w].Exited? && QuietInv(s, w);
    }
    forall task: Task ensures s.executed[task] == s.accepted[task] {
      NoLocals(s.locals, task);
      NoHands(s.workers, task);
      assert ConservedFor(s, task);
    }
  }

  /** Main result: when all workers have exited, every queue is empty and every accepted task has run
      exactly as often as it was accepted, although local pushes bypass the pool mutex and the check
      that all deques are empty is not atomic. */
  lemma DrainIsComplete(workers: nat, capacity: nat, policy: RejectPolicy, events: seq<Event>)
    requires workers > 0 && capacity > 0
    requires Exec(Init(workers, capacity, policy), events).After?
    requires AllExited(Exec(Init(workers, capacity, policy), events).state)
    ensures var s := Exec(Init(workers, capacity, policy), events).state;
            && s.ring == []
            && (forall w :: 0 <= w < |s.locals| ==> s.locals[w] == [])
            && s.executed == s.accepted
  {
    InitKeepsInv(workers, capacity, policy);
    RunKeepsInv(Init(workers, capacity, policy), events);
    ExitedMeansDrained(Exec(Init(workers, capacity, policy), events).state);
  }

  /** Local work never strands behind its owner: a worker that is parked, waiting, scanning or gone
      has an empty deque, so whatever a deque holds its owner will pop unless it is stolen. */
  lemma OwnerOfWorkIsAwake(workers: nat, capacity: nat, policy: RejectPolicy, events: seq<Event>, w: nat)
    requires workers > 0 && capacity > 0
    requires Exec(Init(workers, capacity, policy), events).After?
    requires w < |Exec(Init(workers, capacity, policy), events).state.locals|
    ensures var s := Exec(Init(workers, capacity, policy), events).state;
            s.locals[w] != [] ==> s.workers[w].AtTop? || s.workers[w].Running?
  {
    InitKeepsInv(workers, capacity, policy);
    RunKeepsInv(Init(workers, capacity, policy), events);
    assert QuietInv(Exec(Init(workers, capacity, policy), events).state, w);
  }

  /** An exit is final for the global ring: no worker leaves before stopping, and after that nothing
      enters the ring. */
  lemma {:induction false} RingClosedAfterExit(s: State, events: seq<Event>, w: nat)
    requires Inv(s) && w < |s.workers| && s.workers[w].Exited?
    ensures Exec(s, events).After? ==> Exec(s, events).state.ring == [] && Exec(s, events).state.stopping
    decreases |events|
  {
    assert QuietInv(s, w);
    if events != [] && Enabled(s, events[0]) {
      EventKeepsInv(s, events[0]);
      RingClosedAfterExit(Do(s, events[0]), events[1..], w);
    }
  }
}
