/**
 The pool machine with its condition variables: who still has to notify, which parked workers were
 woken, and the threads outside the pool that wait for a free slot.

 Wake-ups may be spurious. A notification is made after the mutex was released, so other steps come
 between a push and its notification.
 */
module PoolNotify {
  import opened Basics
  import Pool = ThreadPool

  /** `notEmpty` and `notFull` count notify_one calls still to come, `stopAll` is the destructor between
      setting `stopping` and its two notify_all calls. `woken` are parked workers that were notified;
      `blocked` and `resumed` are the posters asleep in a wait for a slot and those woken from it. */
  datatype State = State(
    pool: Pool.State,
    notEmpty: nat,
    notFull: nat,
    stopAll: bool,
    woken: set<nat>,
    blocked: set<nat>,
    resumed: set<nat>)

  datatype Event =
    | Step(e: Pool.Event)
    | NotifyWorker(target: Option<nat>)
    | NotifyPoster(target: Option<nat>)
    | NotifyAll
    | Block(p: nat)                                    // a poster finds the ring full
    | WakePoster(p: nat)                               // spuriously or by a timeout
    | Resume(p: nat, task: Pool.Task, expired: bool)   // a woken poster has the mutex again

  predicate IsParked(s: State, w: nat) {
    w < |s.pool.workers| && s.pool.workers[w].Parked?
  }

  predicate Enabled(s: State, e: Event) {
    Pool.WellFormed(s.pool) &&
    match e
    case Step(e) => Pool.Enabled(s.pool, e)
    case NotifyWorker(target) =>
      && s.notEmpty > 0
      && if target.Some? then IsParked(s, target.value) && target.value !in s.woken
         else forall w :: 0 <= w < |s.pool.workers| && IsParked(s, w) ==> w in s.woken
    case NotifyPoster(target) =>
      s.notFull > 0 && if target.Some? then target.value in s.blocked else s.blocked == {}
    case NotifyAll => s.stopAll
    case Block(p) =>
      && Pool.MutexFree(s.pool) && !s.pool.stopping && |s.pool.ring| >= s.pool.capacity
      && p !in s.blocked && p !in s.resumed
    case WakePoster(p) => p in s.blocked
    case Resume(p, _, _) => p in s.resumed && Pool.MutexFree(s.pool)
  }

  predicate Accepts(s: Pool.State) { !s.stopping && |s.ring| < s.capacity }

  /** The notifications a step of the pool owes. */
  function Owe(s: State, e: Pool.Event): State
    requires Pool.WellFormed(s.pool) && Pool.Enabled(s.pool, e)
  {
    if e.PushLocal? || (e.Submit? && Accepts(s.pool)) then s.(notEmpty := s.notEmpty + 1)
    else if e.TakeGlobal? && s.pool.ring != [] then s.(notFull := s.notFull + 1)
    else if e.Stop? then s.(stopAll := true)
    else if e.LockForWait? then s.(woken := s.woken - {e.w})
    else s
  }

  function Do(s: State, e: Event): State
    requires Enabled(s, e)
  {
    match e
    case Step(e) => Owe(s, e).(pool := Pool.Do(s.pool, e))
    case NotifyWorker(target) =>
      s.(notEmpty := s.notEmpty - 1, woken := if target.Some? then s.woken + {target.value} else s.woken)
    case NotifyPoster(target) =>
      if target.None? then s.(notFull := s.notFull - 1)
      else s.(notFull := s.notFull - 1, blocked := s.blocked - {target.value}, resumed := s.resumed + {target.value})
    case NotifyAll =>
      s.(stopAll := false, blocked := {}, resumed := s.resumed + s.blocked,
         woken := s.woken + set w | 0 <= w < |s.pool.workers| && s.pool.workers[w].Parked?)
    case Block(p) => s.(blocked := s.blocked + {p})
    case WakePoster(p) => s.(blocked := s.blocked - {p}, resumed := s.resumed + {p})
    case Resume(p, task, expired) =>
      var left := s.(resumed := s.resumed - {p});
      if Accepts(s.pool) then
        left.(pool := Pool.Do(s.pool, Pool.Submit(Pool.PostWait, task)), notEmpty := s.notEmpty + 1)
      else if s.pool.stopping || expired then left
      else left.(blocked := s.blocked + {p})
  }

  function Init(workers: nat, capacity: nat, policy: Pool.RejectPolicy): State
    requires workers > 0 && capacity > 0
  {
    State(Pool.Init(workers, capacity, policy), 0, 0, false, {}, {}, {})
  }

  function Exec(s: State, events: seq<Event>): Outcome<State>
    decreases |events|
  {
    if events == [] then After(s)
    else if !Enabled(s, events[0]) then Stuck
    else Exec(Do(s, events[0]), events[1..])
  }

  // ---------------------------------------------------------------- every run is a run of the pool

  /** The pool's step in an event, if any. */
  function PoolStep(s: State, e: Event): Option<Pool.Event>
    requires Enabled(s, e)
  {
    if e.Step? then Some(e.e)
    else if e.Resume? && Accepts(s.pool) then Some(Pool.Submit(Pool.PostWait, e.task))
    else None
  }

  lemma StepsOfThePool(s: State, e: Event)
    requires Enabled(s, e)
    ensures var m := PoolStep(s, e);
      && (m.Some? ==> Pool.Enabled(s.pool, m.value))
      && Do(s, e).pool == if m.Some? then Pool.Do(s.pool, m.value) else s.pool
  {
    hide Pool.Do;
  }

  // ---------------------------------------------------------------- the invariants

  /** A worker that will look at the queues again without being notified. */
  predicate IsAwake(s: State, w: nat) {
    && w < |s.pool.workers|
    && !s.pool.workers[w].Exited?
    && (s.pool.workers[w].Parked? ==> w in s.woken)
  }

  /** Tasks in the ring have somebody awake, or a notification still to come. */
  ghost predicate RingCovered(s: State) {
    s.pool.ring != [] ==> s.notEmpty > 0 || exists w :: IsAwake(s, w)
  }

  /** Nobody evaluates the wait predicate over a ring with tasks: the mutex keeps it empty. */
  predicate ProbesEmpty(s: State) {
    forall w :: 0 <= w < |s.pool.workers| && s.pool.workers[w].Probing? ==> s.pool.ring == []
  }

  /** Free slots have a woken poster or a notification still to come each, while anybody sleeps. */
  predicate SlotsCovered(s: State) {
    s.blocked != {} ==>
      if s.pool.stopping then s.stopAll
      else s.pool.capacity - |s.pool.ring| <= |s.resumed| + s.notFull
  }

  predicate Apart(s: State) { s.blocked !! s.resumed }

  /** After a stop no worker sleeps on: it was woken, or the notify_all is still to come. */
  predicate ParkedCovered(s: State) {
    s.pool.stopping && !s.stopAll ==>
      forall w :: 0 <= w < |s.pool.workers| && s.pool.workers[w].Parked? ==> w in s.woken
  }

  ghost predicate Inv(s: State) {
    Pool.Inv(s.pool) && RingCovered(s) && ProbesEmpty(s) && SlotsCovered(s) && Apart(s)
    && ParkedCovered(s)
  }

  // ---------------------------------------------------------------- somebody is awake

  lemma ProbesStayEmpty(s: State, e: Event)
    requires Pool.Inv(s.pool) && ProbesEmpty(s) && Enabled(s, e)
    ensures ProbesEmpty(Do(s, e))
  {
    var m := PoolStep(s, e);
    StepsOfThePool(s, e);
    if m.Some? {
      PoolKeepsProbes(s.pool, m.value);
    }
    hide Pool.Inv, Pool.Do, Do;
  }

  lemma PoolKeepsProbes(p: Pool.State, e: Pool.Event)
    requires Pool.Inv(p) && Pool.Enabled(p, e)
    requires forall w :: 0 <= w < |p.workers| && p.workers[w].Probing? ==> p.ring == []
    ensures var p' := Pool.Do(p, e);
            forall w :: 0 <= w < |p'.workers| && p'.workers[w].Probing? ==> p'.ring == []
  {
    hide Pool.Inv;
  }

  /** An awake worker stays awake, or the ring is empty. */
  lemma AwakeStays(s: State, e: Event, w: nat)
    requires Pool.Inv(s.pool) && ProbesEmpty(s) && Enabled(s, e) && IsAwake(s, w)
    ensures IsAwake(Do(s, e), w) || Do(s, e).pool.ring == []
  {
    assert Pool.QuietInv(s.pool, w);
    StepsOfThePool(s, e);
    var m := PoolStep(s, e);
    if m.Some? {
      WorkerStays(s.pool, m.value, w);
    }
    hide Pool.Inv, Pool.Do;
  }

  /** What a step of the pool does to a worker that has not exited. */
  lemma WorkerStays(p: Pool.State, e: Pool.Event, w: nat)
    requires Pool.Inv(p) && Pool.Enabled(p, e) && w < |p.workers| && !p.workers[w].Exited?
    requires p.workers[w].Probing? ==> p.ring == []
    ensures var p' := Pool.Do(p, e);
      && |p'.workers| == |p.workers|
      && (p'.workers[w].Exited? ==> p'.ring == [])
      && (p'.workers[w].Parked? ==> p'.ring == [] || (p.workers[w].Parked? && (e.LockForWait? ==> e.w != w)))
  {
    assert Pool.QuietInv(p, w);
    hide Pool.Inv;
  }

  lemma EventKeepsRingCovered(s: State, e: Event)
    requires Inv(s) && Enabled(s, e)
    ensures RingCovered(Do(s, e))
  {
    var s' := Do(s, e);
    if s'.pool.ring != [] && s'.notEmpty == 0 {
      var w := FindAwake(s, e);
      if IsAwake(s, w) {
        AwakeStays(s, e, w);
      }
    }
    hide Do, Pool.Inv, IsAwake, ProbesEmpty, SlotsCovered;
  }

  /** With no notification left, somebody was awake before the event or is woken by it. */
  lemma FindAwake(s: State, e: Event) returns (w: nat)
    requires Inv(s) && Enabled(s, e) && Do(s, e).pool.ring != [] && Do(s, e).notEmpty == 0
    ensures IsAwake(Do(s, e), w) || IsAwake(s, w)
  {
    if s.pool.ring == [] {
      RingGrowsWithNotice(s, e);
    }
    if v :| IsAwake(s, v) {
      w := v;
    } else {
      assert s.notEmpty > 0;
      LastNotice(s, e);
      if e.target.Some? {
        w := e.target.value;
        assert Pool.QuietInv(s.pool, w);
      } else {
        w := 0;
        assert Pool.QuietInv(s.pool, 0);
      }
      hide Pool.Inv;
    }
  }

  lemma RingGrowsWithNotice(s: State, e: Event)
    requires Pool.Inv(s.pool) && Enabled(s, e) && s.pool.ring == []
    ensures Do(s, e).pool.ring == [] || Do(s, e).notEmpty > 0
  {
    hide Pool.Inv;
  }

  lemma LastNotice(s: State, e: Event)
    requires Enabled(s, e) && s.notEmpty > 0 && Do(s, e).notEmpty == 0
    ensures e.NotifyWorker?
  {
    hide Pool.Do;
  }

  // ---------------------------------------------------------------- free slots

  lemma PosterMoves(resumed: set<nat>, p: nat)
    requires p !in resumed
    ensures |resumed + {p}| == |resumed| + 1
  {
  }

  lemma PosterLeaves(resumed: set<nat>, p: nat)
    requires p in resumed
    ensures |resumed - {p}| == |resumed| - 1
  {
  }

  lemma ResumeKeepsSlots(s: State, e: Event)
    requires SlotsCovered(s) && Apart(s) && Enabled(s, e) && e.Resume?
    ensures SlotsCovered(Do(s, e)) && Apart(Do(s, e))
  {
    PosterLeaves(s.resumed, e.p);
  }

  lemma EventKeepsSlotsCovered(s: State, e: Event)
    requires Inv(s) && Enabled(s, e)
    ensures SlotsCovered(Do(s, e)) && Apart(Do(s, e))
  {
    hide Pool.Inv, RingCovered, ProbesEmpty;
    if e.Step? {
      StepKeepsSlots(s, e);
      hide Do;
    } else if e.Resume? {
      ResumeKeepsSlots(s, e);
      hide Do;
    } else {
      if e.WakePoster? || (e.NotifyPoster? && e.target.Some?) {
        PosterMoves(s.resumed, if e.WakePoster? then e.p else e.target.value);
      }
      hide Pool.Do;
    }
  }

  lemma StepKeepsSlots(s: State, e: Event)
    requires SlotsCovered(s) && Apart(s) && Enabled(s, e) && e.Step?
    ensures SlotsCovered(Do(s, e)) && Apart(Do(s, e))
  {
  }

  // ---------------------------------------------------------------- after a stop

  /** While the pool is stopping no step parks a worker or ends the stopping. */
  lemma StoppingParksNobody(p: Pool.State, e: Pool.Event, w: nat)
    requires Pool.Inv(p) && Pool.Enabled(p, e) && p.stopping && w < |p.workers|
    ensures var p' := Pool.Do(p, e);
      && p'.stopping && |p'.workers| == |p.workers|
      && (p'.workers[w].Parked? ==> p.workers[w].Parked? && (e.LockForWait? ==> e.w != w))
  {
    assert Pool.QuietInv(p, w);
    hide Pool.Inv;
  }

  lemma StepKeepsParkedCovered(s: State, e: Pool.Event)
    requires Pool.Inv(s.pool) && ParkedCovered(s) && Pool.Enabled(s.pool, e) && s.pool.stopping && !s.stopAll
    ensures ParkedCovered(Owe(s, e).(pool := Pool.Do(s.pool, e)))
  {
    forall w: nat | w < |s.pool.workers| ensures var p' := Pool.Do(s.pool, e);
      && p'.stopping && |p'.workers| == |s.pool.workers|
      && (p'.workers[w].Parked? ==> s.pool.workers[w].Parked? && (e.LockForWait? ==> e.w != w))
    {
      StoppingParksNobody(s.pool, e, w);
    }
    hide Pool.Inv, Pool.Do;
  }

  lemma EventKeepsParkedCovered(s: State, e: Event)
    requires Pool.Inv(s.pool) && ParkedCovered(s) && Enabled(s, e)
    ensures ParkedCovered(Do(s, e))
  {
    if e.Step? && s.pool.stopping && !s.stopAll {
      StepKeepsParkedCovered(s, e.e);
      hide Pool.Inv, Pool.Do, Owe;
    } else if e.Step? {
      OnlyStopStops(s, e.e);
      hide Pool.Inv, Pool.Do, Owe;
    } else {
      hide Pool.Inv;
    }
  }

  lemma OnlyStopStops(s: State, e: Pool.Event)
    requires Pool.WellFormed(s.pool) && Pool.Enabled(s.pool, e) && (s.pool.stopping ==> s.stopAll)
    ensures Pool.Do(s.pool, e).stopping ==> Owe(s, e).stopAll
  {
  }

  lemma EventKeepsInv(s: State, e: Event)
    requires Inv(s) && Enabled(s, e)
    ensures Inv(Do(s, e))
  {
    StepsOfThePool(s, e);
    var m := PoolStep(s, e);
    if m.Some? {
      Pool.EventKeepsInv(s.pool, m.value);
    }
    EventKeepsRingCovered(s, e);
    ProbesStayEmpty(s, e);
    EventKeepsSlotsCovered(s, e);
    EventKeepsParkedCovered(s, e);
    hide Pool.Inv, Pool.Do, Do, RingCovered, ProbesEmpty, SlotsCovered, ParkedCovered;
  }

  lemma {:induction false} RunKeepsInv(s: State, events: seq<Event>)
    requires Inv(s)
    ensures Exec(s, events).After? ==> Inv(Exec(s, events).state)
    decreases |events|
  {
    hide Inv, Do;
    if events != [] && Enabled(s, events[0]) {
      EventKeepsInv(s, events[0]);
      RunKeepsInv(Do(s, events[0]), events[1..]);
    }
  }

  /** Main result: in every run, with spurious wake-ups and timeouts, a task in the global ring has a
      worker awake or a notification still to come, and while a poster sleeps every free slot has a
      woken poster or a notification still to come; after a stop, while a poster or a worker that was
      not woken sleeps, a notify_all is still to come. */
  lemma NobodyIsStranded(workers: nat, capacity: nat, policy: Pool.RejectPolicy, events: seq<Event>)
    requires workers > 0 && capacity > 0
    requires Exec(Init(workers, capacity, policy), events).After?
    ensures var s := Exec(Init(workers, capacity, policy), events).state;
      && (s.pool.ring != [] ==> s.notEmpty > 0 || exists w :: IsAwake(s, w))
      && (s.blocked != {} && !s.pool.stopping ==> s.pool.capacity - |s.pool.ring| <= |s.resumed| + s.notFull)
      && (s.blocked != {} && s.pool.stopping ==> s.stopAll)
      && (s.pool.stopping && (exists w :: IsParked(s, w) && w !in s.woken) ==> s.stopAll)
  {
    Pool.InitKeepsInv(workers, capacity, policy);
    RunKeepsInv(Init(workers, capacity, policy), events);
    hide Exec, Pool.Inv;
  }
}
