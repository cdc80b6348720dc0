/**
 The reactor's event loop: functors queued by any thread, the wake-up counter that ends a poll, and
 the loop that runs what was queued.

 Functors are numbers. Every lock region, atomic access and system call is one event. What a functor
 or a channel does when it runs is any sequence of the loop thread's own events.
 */
module EventLoop {
  import opened Basics

  type Functor = nat

  /** Where the loop thread is. `Between` stands for the loop thread outside loop(). */
  datatype Place =
    | Between
    | Top                            // about to test quit
    | Polling
    | Handling                       // running channel callbacks
    | Swapping                       // callingPendingFunctors is set, the swap is next
    | Running(batch: seq<Functor>)
    | Ended

  /** `owing` counts other threads between their push (or their quit) and their wake-up; `loopOwes` is
      the same for the loop thread. `queued` and `executed` are histories. */
  datatype State = State(
    place: Place,
    pending: seq<Functor>,
    calling: bool,
    quit: bool,
    counter: nat,
    owing: nat,
    loopOwes: bool,
    queued: seq<Functor>,
    executed: seq<Functor>)

  datatype Event =
    | Queue(f: Functor)              // queueInLoop() of another thread: the push
    | Wake                           // ... and its wake-up
    | QueueInside(f: Functor)        // queueInLoop() of the loop thread
    | WakeInside
    | Quit                           // quit() of another thread
    | QuitInside
    | StartLoop
    | TestQuit
    | PollReturns
    | ReadWakeup                     // a channel callback reads the counter
    | ChannelsDone
    | Swap
    | RunFunctor
    | BatchDone

  /** The loop thread is running a callback or the caller of loop(). */
  predicate InCallback(s: State) {
    s.place.Between? || s.place.Handling? || (s.place.Running? && s.place.batch != [])
  }

  predicate Enabled(s: State, e: Event) {
    match e
    case Queue(_) => true
    case Wake => s.owing > 0
    case QueueInside(_) => !s.loopOwes && InCallback(s)
    case WakeInside => s.loopOwes
    case Quit => true
    case QuitInside => !s.loopOwes && InCallback(s)
    case StartLoop => !s.loopOwes && s.place.Between?
    case TestQuit => !s.loopOwes && s.place.Top?
    case PollReturns => !s.loopOwes && s.place.Polling?
    case ReadWakeup => !s.loopOwes && s.place.Handling?
    case ChannelsDone => !s.loopOwes && s.place.Handling?
    case Swap => !s.loopOwes && s.place.Swapping?
    case RunFunctor => !s.loopOwes && s.place.Running? && s.place.batch != []
    case BatchDone => !s.loopOwes && s.place == Running([])
  }

  function Do(s: State, e: Event): State
    requires Enabled(s, e)
  {
    match e
    case Queue(f) => s.(pending := s.pending + [f], queued := s.queued + [f], owing := s.owing + 1)
    case Wake => s.(owing := s.owing - 1, counter := s.counter + 1)
    case QueueInside(f) =>
      s.(pending := s.pending + [f], queued := s.queued + [f], loopOwes := s.calling)
    case WakeInside => s.(loopOwes := false, counter := s.counter + 1)
    case Quit => s.(quit := true, owing := s.owing + 1)
    case QuitInside => s.(quit := true)
    case StartLoop => s.(place := Top)
    case TestQuit => s.(place := if s.quit then Ended else Polling)
    case PollReturns => s.(place := Handling)
    case ReadWakeup => s.(counter := 0)
    case ChannelsDone => s.(place := Swapping, calling := true)
    case Swap => s.(place := Running(s.pending), pending := [])
    case RunFunctor =>
      s.(place := Running(s.place.batch[1..]), executed := s.executed + [s.place.batch[0]])
    case BatchDone => s.(place := Top, calling := false)
  }

  function Init(): State {
    State(Between, [], false, false, 0, 0, false, [], [])
  }

  function Exec(s: State, events: seq<Event>): Outcome<State>
    decreases |events|
  {
    if events == [] then After(s)
    else if !Enabled(s, events[0]) then Stuck
    else Exec(Do(s, events[0]), events[1..])
  }

  // ---------------------------------------------------------------- order and exactly once

  function Batch(s: State): seq<Functor> {
    if s.place.Running? then s.place.batch else []
  }

  /** Everything queued was executed, is in the batch or is pending, in queue order. */
  predicate Ordered(s: State) {
    s.queued == s.executed + Batch(s) + s.pending
  }

  lemma EventKeepsOrdered(s: State, e: Event)
    requires Ordered(s) && Enabled(s, e)
    ensures Ordered(Do(s, e))
  {
    if e.RunFunctor? {
      assert s.place.batch == [s.place.batch[0]] + s.place.batch[1..];
    }
  }

  lemma {:induction false} RunKeepsOrdered(s: State, events: seq<Event>)
    requires Ordered(s)
    ensures Exec(s, events).After? ==> Ordered(Exec(s, events).state)
    decreases |events|
  {
    if events != [] && Enabled(s, events[0]) {
      EventKeepsOrdered(s, events[0]);
      hide Do, Ordered;
      RunKeepsOrdered(Do(s, events[0]), events[1..]);
    }
  }

  /** Main result: in every run functors are executed in the order they were queued, each once, and
      those not executed yet are exactly the rest of the batch and the pending ones. */
  lemma ExecutesInQueueOrder(events: seq<Event>)
    requires Exec(Init(), events).After?
    ensures var s := Exec(Init(), events).state;
      && s.executed <= s.queued
      && s.queued[|s.executed|..] == Batch(s) + s.pending
  {
    RunKeepsOrdered(Init(), events);
    var s := Exec(Init(), events).state;
    hide Exec;
    assert s.queued == s.executed + (Batch(s) + s.pending);
  }

  // ---------------------------------------------------------------- no lost wake-up

  /** Something will end the poll. */
  predicate Woken(s: State) {
    s.counter > 0 || s.owing > 0 || s.loopOwes
  }

  /** The loop is blocked, or about to block, with work to do and nobody to wake it. */
  predicate Stranded(s: State) {
    s.place.Polling? && (s.pending != [] || s.quit) && !Woken(s)
  }

  /** `calling` is on exactly while the functors run. Where the loop may go on to poll without another
      swap, pending functors mean a wake-up; so does quit once the test was passed. */
  predicate WakeInv(s: State) {
    && (s.calling <==> s.place.Swapping? || s.place.Running?)
    && (s.loopOwes ==> s.place.Running?)
    && (s.place.Top? || s.place.Polling? || s.place.Running? ==> s.pending != [] ==> Woken(s))
    && (s.place.Polling? ==> s.quit ==> Woken(s))
  }

  lemma EventKeepsWakeInv(s: State, e: Event)
    requires WakeInv(s) && Enabled(s, e)
    requires e.StartLoop? ==> s.pending == [] || Woken(s)
    ensures WakeInv(Do(s, e))
  {
  }

  /** Once loop() was entered. */
  lemma {:induction false} RunKeepsWakeInv(s: State, events: seq<Event>)
    requires WakeInv(s) && !s.place.Between?
    ensures Exec(s, events).After? ==> WakeInv(Exec(s, events).state) && !Exec(s, events).state.place.Between?
    decreases |events|
  {
    if events != [] && Enabled(s, events[0]) {
      EventKeepsWakeInv(s, events[0]);
      assert !Do(s, events[0]).place.Between?;
      hide Do, WakeInv;
      RunKeepsWakeInv(Do(s, events[0]), events[1..]);
    }
  }

  /** Before loop() was entered. */
  lemma {:induction false} BeforeLoopKeepsWakeInv(s: State, events: seq<Event>)
    requires WakeInv(s) && s.place.Between?
    requires Exec(s, events).After? && Exec(s, events).state.place.Between?
    ensures WakeInv(Exec(s, events).state)
    decreases |events|
  {
    if events != [] {
      if events[0].StartLoop? {
        NeverBackOut(Do(s, events[0]), events[1..]);
      } else {
        EventKeepsWakeInv(s, events[0]);
        BeforeLoopKeepsWakeInv(Do(s, events[0]), events[1..]);
      }
    }
  }

  lemma {:induction false} NeverBackOut(s: State, events: seq<Event>)
    requires !s.place.Between?
    ensures Exec(s, events).After? ==> !Exec(s, events).state.place.Between?
    decreases |events|
  {
    if events != [] && Enabled(s, events[0]) {
      NeverBackOut(Do(s, events[0]), events[1..]);
    }
  }

  /** What the loop may be entered with. */
  predicate MayEnter(s: State) {
    s.quit || s.pending == [] || Woken(s)
  }

  lemma {:induction false} QuitNeverPolls(s: State, events: seq<Event>)
    requires s.quit && (s.place.Top? || s.place.Ended?)
    ensures Exec(s, events).After? ==> !Exec(s, events).state.place.Polling?
    decreases |events|
  {
    if events != [] && Enabled(s, events[0]) {
      QuitNeverPolls(Do(s, events[0]), events[1..]);
    }
  }

  /** Main result: entering loop() with the queue empty (or a wake-up on its way, or quit set), no run
      ever polls with functors pending or quit requested and nobody to wake it. */
  lemma NoLostWakeup(s: State, events: seq<Event>)
    requires WakeInv(s) && s.place.Between? && MayEnter(s)
    requires Exec(Do(s, StartLoop), events).After?
    ensures !Stranded(Exec(Do(s, StartLoop), events).state)
  {
    if s.pending == [] || Woken(s) {
      EventKeepsWakeInv(s, StartLoop);
      RunKeepsWakeInv(Do(s, StartLoop), events);
    } else {
      QuitNeverPolls(Do(s, StartLoop), events);
    }
  }

  /** Main result: the condition is exact. A functor queued by the loop thread before loop() is not
      announced, and an entry with such a functor alone leads to a poll that nobody ends. */
  lemma NoLostWakeupExactly(before: seq<Event>)
    requires Exec(Init(), before).After? && Exec(Init(), before).state.place.Between?
    ensures var s := Exec(Init(), before).state;
      && Enabled(s, StartLoop)
      && (MayEnter(s) <==>
            forall events :: Exec(Do(s, StartLoop), events).After? ==>
              !Stranded(Exec(Do(s, StartLoop), events).state))
  {
    BeforeLoopKeepsWakeInv(Init(), before);
    var s := Exec(Init(), before).state;
    if MayEnter(s) {
      forall events | Exec(Do(s, StartLoop), events).After?
        ensures !Stranded(Exec(Do(s, StartLoop), events).state)
      {
        NoLostWakeup(s, events);
      }
    } else {
      BadEntryStrands(s);
      var events := [TestQuit];
      assert Exec(Do(s, StartLoop), events).After? && Stranded(Exec(Do(s, StartLoop), events).state);
    }
  }

  lemma BadEntryStrands(s: State)
    requires s.place.Between? && !MayEnter(s)
    ensures Enabled(s, StartLoop) && Exec(Do(s, StartLoop), [TestQuit]).After?
    ensures Stranded(Exec(Do(s, StartLoop), [TestQuit]).state)
  {
    var entered := Do(s, StartLoop);
    assert Exec(Do(entered, TestQuit), [TestQuit][1..]) == After(Do(entered, TestQuit));
  }

  /** The case the source leaves open: queueInLoop() on the loop thread before loop(). */
  lemma EarlyFunctorStrands(f: Functor)
    ensures Exec(Init(), [QueueInside(f)]).After? && !MayEnter(Exec(Init(), [QueueInside(f)]).state)
  {
    assert Exec(Do(Init(), QueueInside(f)), [QueueInside(f)][1..]) == After(Do(Init(), QueueInside(f)));
  }

  // ---------------------------------------------------------------- one round runs the backlog

  /** Everything in `backlog` was executed, or still is in the running batch. */
  predicate Serving(s: State, backlog: seq<Functor>) {
    backlog <= s.executed + Batch(s) && (!s.place.Running? ==> backlog <= s.executed)
  }

  lemma EventKeepsServing(s: State, e: Event, backlog: seq<Functor>)
    requires Serving(s, backlog) && Enabled(s, e) && !e.Swap?
    ensures Serving(Do(s, e), backlog)
  {
    if e.RunFunctor? {
      assert s.executed + s.place.batch == s.executed + [s.place.batch[0]] + s.place.batch[1..];
    } else if e.BatchDone? {
      assert s.executed + [] == s.executed;
    }
  }

  lemma SwapKeepsServing(s: State, backlog: seq<Functor>)
    requires Serving(s, backlog) && Enabled(s, Swap)
    ensures Serving(Do(s, Swap), backlog)
  {
    assert backlog <= s.executed;
    assert s.executed <= s.executed + s.pending;
  }

  lemma {:induction false} RunKeepsServing(s: State, events: seq<Event>, backlog: seq<Functor>)
    requires Serving(s, backlog)
    ensures Exec(s, events).After? ==> Serving(Exec(s, events).state, backlog)
    decreases |events|
  {
    if events != [] && Enabled(s, events[0]) {
      if events[0].Swap? {
        SwapKeepsServing(s, backlog);
      } else {
        EventKeepsServing(s, events[0], backlog);
      }
      hide Do, Serving;
      RunKeepsServing(Do(s, events[0]), events[1..], backlog);
    }
  }

  /** Main result: one round is enough. Whatever was queued before a swap of a reachable state was
      executed, in every continuation that is not still running that batch. */
  lemma BacklogRunsInOneRound(before: seq<Event>, later: seq<Event>)
    requires Exec(Init(), before).After? && Enabled(Exec(Init(), before).state, Swap)
    requires Exec(Do(Exec(Init(), before).state, Swap), later).After?
    ensures var s := Exec(Init(), before).state; var s' := Exec(Do(s, Swap), later).state;
            !s'.place.Running? ==> s.queued <= s'.executed
  {
    RunKeepsOrdered(Init(), before);
    var s := Exec(Init(), before).state;
    assert s.executed + [] + s.pending == s.executed + s.pending;
    RunKeepsServing(Do(s, Swap), later, s.queued);
  }

  // ---------------------------------------------------------------- what is queued, and the end

  /** The functors queued by a run, by any thread, in order. */
  function QueuedIn(events: seq<Event>): seq<Functor> {
    if events == [] then []
    else QueuedIn(events[..|events| - 1]) + QueuedNow(events[|events| - 1])
  }

  lemma {:induction false} ExecLast(s: State, events: seq<Event>)
    requires events != [] && Exec(s, events).After?
    ensures var before := events[..|events| - 1];
      && Exec(s, before).After? && Enabled(Exec(s, before).state, events[|events| - 1])
      && Exec(s, events).state == Do(Exec(s, before).state, events[|events| - 1])
    decreases |events|
  {
    if |events| > 1 {
      assert events[..|events| - 1][1..] == events[1..][..|events| - 2];
      ExecLast(Do(s, events[0]), events[1..]);
    }
  }

  /** Main result: in every run exactly the functors that were queued, in their order, are executed, in the
      batch or pending, each once. */
  lemma {:induction false} RunsWhatWasQueued(events: seq<Event>)
    requires Exec(Init(), events).After?
    ensures var s := Exec(Init(), events).state; All(s) == QueuedIn(events)
    decreases |events|
  {
    if events != [] {
      ExecLast(Init(), events);
      var before, e := events[..|events| - 1], events[|events| - 1];
      RunsWhatWasQueued(before);
      QueuesExactly(Exec(Init(), before).state, e);
      hide Do, Exec, All;
    }
  }

  /** All functors known to the loop, in queue order. */
  function All(s: State): seq<Functor> { s.executed + Batch(s) + s.pending }

  function QueuedNow(e: Event): seq<Functor> {
    match e case Queue(f) => [f] case QueueInside(f) => [f] case _ => []
  }

  /** One event queues its functor behind everything, or moves nothing. */
  lemma QueuesExactly(s: State, e: Event)
    requires Enabled(s, e)
    ensures All(Do(s, e)) == All(s) + QueuedNow(e)
  {
    if e.Queue? || e.QueueInside? {
      assert s.executed + Batch(s) + (s.pending + [e.f]) == All(s) + [e.f];
    } else {
      MovesNothing(s, e);
      hide Do;
      assert All(s) + [] == All(s);
    }
  }

  lemma MovesNothing(s: State, e: Event)
    requires Enabled(s, e) && !e.Queue? && !e.QueueInside?
    ensures All(Do(s, e)) == All(s)
  {
    if e.RunFunctor? {
      RunsFirst(s.executed, s.place.batch, s.pending);
    } else if e.Swap? {
      assert s.executed + [] + s.pending == s.executed + s.pending + [];
    }
  }

  lemma RunsFirst(executed: seq<Functor>, batch: seq<Functor>, pending: seq<Functor>)
    requires batch != []
    ensures executed + [batch[0]] + batch[1..] + pending == executed + batch + pending
  {
    assert batch == [batch[0]] + batch[1..];
    assert executed + [batch[0]] + batch[1..] == executed + batch;
  }

  predicate QuitAsked(events: seq<Event>) {
    exists i :: 0 <= i < |events| && (events[i].Quit? || events[i].QuitInside?)
  }

  lemma {:induction false} QuitMeansAsked(events: seq<Event>)
    requires Exec(Init(), events).After?
    ensures Exec(Init(), events).state.quit <==> QuitAsked(events)
    ensures Exec(Init(), events).state.place.Ended? ==> QuitAsked(events)
    decreases |events|
  {
    if events != [] {
      ExecLast(Init(), events);
      var n := |events| - 1;
      QuitMeansAsked(events[..n]);
      var s := Exec(Init(), events[..n]).state;
      assert Do(s, events[n]).quit == (s.quit || events[n].Quit? || events[n].QuitInside?);
      if QuitAsked(events[..n]) {
        var i :| 0 <= i < n && (events[..n][i].Quit? || events[..n][i].QuitInside?);
        assert events[i] == events[..n][i];
      }
      if QuitAsked(events) {
        var i :| 0 <= i < |events| && (events[i].Quit? || events[i].QuitInside?);
        assert i < n ==> events[..n][i] == events[i];
      }
      hide Exec;
    }
  }

  /** Main result: the loop ends only when somebody asked for it, and it ends at the first test after that:
      in a run in which nobody asked it goes on to poll, and when somebody did it does not. */
  lemma EndsExactlyOnQuit(events: seq<Event>)
    requires Exec(Init(), events).After?
    ensures var s := Exec(Init(), events).state;
      && (s.place.Ended? ==> QuitAsked(events))
      && (Enabled(s, TestQuit) ==>
            && (Do(s, TestQuit).place.Ended? <==> QuitAsked(events))
            && (Do(s, TestQuit).place.Polling? <==> !QuitAsked(events)))
  {
    QuitMeansAsked(events);
    hide QuitAsked, Exec;
  }

  // ---------------------------------------------------------------- wake-ups and rounds

  function One(b: bool): nat { if b then 1 else 0 }

  /** What has to be announced: a functor or a quit from outside, and a functor queued while functors run. */
  function Announced(s: State, e: Event): nat {
    One(e.Queue? || e.Quit? || (e.QueueInside? && s.calling))
  }

  function Announcements(s: State, events: seq<Event>): nat
    decreases |events|
  {
    if events == [] || !Enabled(s, events[0]) then 0
    else Announced(s, events[0]) + Announcements(Do(s, events[0]), events[1..])
  }

  function Wakes(events: seq<Event>): nat {
    if events == [] then 0 else One(events[0].Wake? || events[0].WakeInside?) + Wakes(events[1..])
  }

  /** Main result: over every run each announcement is made exactly once: those made and those still owed are
      those due. */
  lemma {:induction false} AnnouncedOnce(s: State, events: seq<Event>)
    requires Exec(s, events).After?
    ensures var s' := Exec(s, events).state;
            Wakes(events) + s'.owing + One(s'.loopOwes) == s.owing + One(s.loopOwes) + Announcements(s, events)
    decreases |events|
  {
    if events != [] {
      OwesExactly(s, events[0]);
      hide Do, Enabled;
      AnnouncedOnce(Do(s, events[0]), events[1..]);
    }
  }

  lemma OwesExactly(s: State, e: Event)
    requires Enabled(s, e)
    ensures var s' := Do(s, e);
      && s'.owing + One(s'.loopOwes) + One(e.Wake? || e.WakeInside?) == s.owing + One(s.loopOwes) + Announced(s, e)
      && s'.counter == if e.ReadWakeup? then 0 else s.counter + One(e.Wake? || e.WakeInside?)
  {
  }

  /** A round of the loop: test, poll, channels, swap, functors, test. */
  lemma RoundsExactly(s: State, e: Event)
    requires Enabled(s, e)
    ensures var p := Do(s, e).place;
      match e
      case StartLoop => p == Top
      case TestQuit => p == if s.quit then Ended else Polling
      case PollReturns => p == Handling
      case ChannelsDone => p == Swapping
      case Swap => p == Running(s.pending)
      case RunFunctor => p == Running(s.place.batch[1..])
      case BatchDone => p == Top
      case _ => p == s.place
  {
  }

  // ---------------------------------------------------------------- the object, on the loop thread

  /** A functor together with what it queues when it runs. */
  datatype Task = Task(id: Functor, queues: seq<Task>)

  function QueuedBy(tasks: seq<Task>): seq<Task>
    decreases |tasks|
  {
    if tasks == [] then [] else QueuedBy(tasks[..|tasks| - 1]) + tasks[|tasks| - 1].queues
  }

  class Loop {
    var pendingFunctors: seq<Task>
    var callingPendingFunctors: bool
    var wakeups: nat
    var executed: seq<Task>

    constructor ()
      ensures pendingFunctors == [] && !callingPendingFunctors && wakeups == 0 && executed == []
    {
      pendingFunctors, callingPendingFunctors, wakeups, executed := [], false, 0, [];
    }

    method Wakeup()
      modifies this`wakeups
      ensures wakeups == old(wakeups) + 1
    {
      wakeups := wakeups + 1;
    }

    method QueueInLoop(task: Task, inLoopThread: bool)
      modifies this`pendingFunctors, this`wakeups
      ensures pendingFunctors == old(pendingFunctors) + [task]
      ensures wakeups == old(wakeups) + (if !inLoopThread || callingPendingFunctors then 1 else 0)
    {
      pendingFunctors := pendingFunctors + [task];
      if !inLoopThread || callingPendingFunctors {
        Wakeup();
      }
    }

    /** Runs one functor: it queues what it queues. */
    method RunTask(task: Task)
      modifies this`pendingFunctors, this`wakeups, this`executed
      ensures executed == old(executed) + [task]
      ensures pendingFunctors == old(pendingFunctors) + task.queues
      ensures wakeups == old(wakeups) + (if callingPendingFunctors then |task.queues| else 0)
    {
      executed := executed + [task];
      for i := 0 to |task.queues|
        invariant pendingFunctors == old(pendingFunctors) + task.queues[..i]
        invariant wakeups == old(wakeups) + (if callingPendingFunctors then i else 0)
        invariant executed == old(executed) + [task]
      {
        QueueInLoop(task.queues[i], true);
      }
    }

    /** Runs what was pending, once and in order. What the functors queue meanwhile stays pending, and
        each such functor is announced by a wake-up, so the next poll does not block on it. */
    method DoPendingFunctors()
      modifies this
      ensures executed == old(executed) + old(pendingFunctors)
      ensures pendingFunctors == QueuedBy(old(pendingFunctors))
      ensures wakeups == old(wakeups) + |pendingFunctors|
      ensures !callingPendingFunctors
    {
      callingPendingFunctors := true;
      var functors := pendingFunctors;
      pendingFunctors := [];
      for i := 0 to |functors|
        invariant callingPendingFunctors
        invariant executed == old(executed) + functors[..i]
        invariant pendingFunctors == QueuedBy(functors[..i])
        invariant wakeups == old(wakeups) + |pendingFunctors|
      {
        assert functors[..i + 1][..i] == functors[..i];
        RunTask(functors[i]);
      }
      assert functors[..|functors|] == functors;
      callingPendingFunctors := false;
    }
  }
}
