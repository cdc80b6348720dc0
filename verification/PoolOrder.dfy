/**
 The order in which the pool machine serves tasks, and that a worker left alone does what the pool object's
 worker does: its own deque from the front, then the ring's head, then another deque's back.
 */
module PoolOrder {
  import opened Basics
  import opened Modular
  import opened ThreadPool
  import opened PoolObject

  // ---------------------------------------------------------------- submitting

  /** A submission from outside is accepted behind the ring exactly when the pool is not stopping and the ring
      has room; a full ring makes only post() with the caller-runs policy run the task, and nothing else
      happens. */
  lemma SubmitsExactly(s: State, how: Submission, task: Task)
    requires WellFormed(s) && Enabled(s, Submit(how, task))
    ensures var s' := Do(s, Submit(how, task));
      if !s.stopping && |s.ring| < s.capacity then
        s' == s.(ring := s.ring + [task], accepted := s.accepted + multiset{task})
      else if !s.stopping && how.Post? && s.policy.CallerRuns? then
        s' == s.(ranByCaller := s.ranByCaller + multiset{task})
      else s' == s
  {
  }

  /** A worker's own task goes to the front of its deque, whatever the pool's phase. */
  lemma PushesExactly(s: State, w: nat, task: Task)
    requires WellFormed(s) && Enabled(s, PushLocal(w, task))
    ensures var s' := Do(s, PushLocal(w, task));
            s' == s.(locals := s.locals[w := [task] + s.locals[w]], accepted := s.accepted + multiset{task})
  {
  }

  // ---------------------------------------------------------------- the ring is first in, first out

  /** The task an event puts into the ring, and the one it takes out of it. */
  function EntersNow(s: State, e: Event): seq<Task> {
    if e.Submit? && !s.stopping && |s.ring| < s.capacity then [e.task] else []
  }

  function LeavesNow(s: State, e: Event): seq<Task>
    requires WellFormed(s) && Enabled(s, e)
  {
    if e.TakeGlobal? && Do(s, e).workers[e.w].Running? then [Do(s, e).workers[e.w].task] else []
  }

  /** The same for a run, in order. */
  function Entered(s: State, events: seq<Event>): seq<Task>
    requires WellFormed(s)
    decreases |events|
  {
    if events == [] || !Enabled(s, events[0]) then []
    else EntersNow(s, events[0]) + Entered(Do(s, events[0]), events[1..])
  }

  function Left(s: State, events: seq<Event>): seq<Task>
    requires WellFormed(s)
    decreases |events|
  {
    if events == [] || !Enabled(s, events[0]) then []
    else LeavesNow(s, events[0]) + Left(Do(s, events[0]), events[1..])
  }

  lemma OthersKeepRing(s: State, e: Event)
    requires WellFormed(s) && Enabled(s, e) && !e.TakeGlobal? && !e.Submit?
    ensures Do(s, e).ring == s.ring
  {
  }

  lemma TakingMovesRing(s: State, e: Event)
    requires WellFormed(s) && Enabled(s, e) && e.TakeGlobal?
    ensures s.ring == LeavesNow(s, e) + Do(s, e).ring
  {
    if s.ring != [] {
      assert s.ring == [s.ring[0]] + s.ring[1..];
    }
  }

  lemma RingMoves(s: State, e: Event)
    requires WellFormed(s) && Enabled(s, e)
    ensures s.ring + EntersNow(s, e) == LeavesNow(s, e) + Do(s, e).ring
  {
    if e.TakeGlobal? {
      TakingMovesRing(s, e);
      hide Do;
      assert s.ring + [] == s.ring;
    } else if e.Submit? {
      SubmitsExactly(s, e.how, e.task);
      hide Do;
      assert s.ring + [] == s.ring;
    } else {
      OthersKeepRing(s, e);
      hide Do;
      assert s.ring + [] == s.ring;
    }
  }

  /** Main result: in every interleaving the tasks leave the ring in the order they entered it. */
  lemma {:induction false} RingIsFifo(s: State, events: seq<Event>)
    requires WellFormed(s) && Exec(s, events).After?
    ensures s.ring + Entered(s, events) == Left(s, events) + Exec(s, events).state.ring
    decreases |events|
  {
    if events == [] {
      assert s.ring + [] == s.ring && [] + s.ring == s.ring;
    } else {
      RingMoves(s, events[0]);
      RingIsFifo(Do(s, events[0]), events[1..]);
      var added, removed := EntersNow(s, events[0]), LeavesNow(s, events[0]);
      var next, rest := Do(s, events[0]), events[1..];
      Joined(s.ring, added, Entered(next, rest), removed, next.ring, Left(next, rest), Exec(s, events).state.ring);
      hide Do, EntersNow, LeavesNow, Enabled;
    }
  }

  lemma Joined(ring: seq<Task>, added: seq<Task>, more: seq<Task>, removed: seq<Task>, next: seq<Task>,
               later: seq<Task>, last: seq<Task>)
    requires ring + added == removed + next && next + more == later + last
    ensures ring + (added + more) == (removed + later) + last
  {
    assert ring + (added + more) == (ring + added) + more;
    assert (removed + next) + more == removed + (next + more);
    assert removed + (later + last) == (removed + later) + last;
  }

  // ---------------------------------------------------------------- a worker left alone

  lemma ExecFirst(s: State, e: Event, events: seq<Event>)
    requires WellFormed(s) && Enabled(s, e)
    ensures Exec(s, [e] + events) == Exec(Do(s, e), events)
  {
    assert ([e] + events)[1..] == events;
    hide Do;
  }

  /** Some deque other than the worker's holds a task. */
  predicate OthersHaveWork(s: State, w: nat) {
    exists v :: 0 <= v < |s.locals| && v != w && s.locals[v] != []
  }

  /** The worker took the last task of this deque. */
  predicate Steals(s: State, w: nat, s': State, victim: nat)
    requires w < |s.workers|
  {
    && victim < |s.locals| && victim != w && s.locals[victim] != []
    && var queue := s.locals[victim];
       s' == At(s, w, Running(queue[|queue| - 1])).(locals := s.locals[victim := queue[..|queue| - 1]])
  }

  /** A look at one deque: empty, or it loses its last task. */
  lemma LooksOnce(s: State, w: nat, offset: nat)
    requires WellFormed(s) && w < |s.workers| && s.workers[w] == Stealing(offset) && 1 <= offset < |s.workers|
    ensures var victim := Victim(|s.workers|, w, offset); var next := Do(s, StealNext(w));
      if s.locals[victim] == [] then next == At(s, w, Stealing(offset + 1)) else Steals(s, w, next, victim)
  {
    VictimIsOther(|s.workers|, w, offset);
  }

  /** The steal scan from an offset on: it takes the last task of the first other deque that has one, or goes to
      wait when there is none. */
  lemma {:induction false} ScanAlone(s: State, w: nat, offset: nat) returns (events: seq<Event>, victim: nat)
    requires WellFormed(s) && w < |s.workers| && s.workers[w] == Stealing(offset) && 1 <= offset
    requires forall o :: 1 <= o < offset && o < |s.workers| ==> s.locals[Victim(|s.workers|, w, o)] == []
    ensures Exec(s, events).After?
    ensures if OthersHaveWork(s, w) then Steals(s, w, Exec(s, events).state, victim)
            else Exec(s, events).state == At(s, w, AtWait)
    decreases |s.workers| - offset
  {
    var n := |s.workers|;
    events, victim := [], 0;
    if offset >= n {
      NobodyHasWork(s, w);
      assert Do(s, StealNext(w)) == At(s, w, AtWait);
    } else {
      LooksOnce(s, w, offset);
      victim := Victim(n, w, offset);
      if s.locals[victim] == [] {
        var next := At(s, w, Stealing(offset + 1));
        hide Do, Exec, Steals, Victim;
        events, victim := ScanAlone(next, w, offset + 1);
        ScanFrom(s, w, Stealing(offset + 1), Exec(next, events).state, victim);
      }
    }
    ExecFirst(s, StealNext(w), events);
    events := [StealNext(w)] + events;
  }

  lemma NobodyHasWork(s: State, w: nat)
    requires WellFormed(s) && w < |s.workers|
    requires forall o :: 1 <= o < |s.workers| ==> s.locals[Victim(|s.workers|, w, o)] == []
    ensures !OthersHaveWork(s, w)
  {
    forall v | 0 <= v < |s.locals| && v != w ensures s.locals[v] == [] {
      var o := VictimReaches(|s.workers|, w, v);
    }
  }

  /** Where the worker stood before does not matter for what it took. */
  lemma ScanFrom(s: State, w: nat, pc: Worker, s': State, victim: nat)
    requires WellFormed(s) && w < |s.workers|
    ensures OthersHaveWork(At(s, w, pc), w) == OthersHaveWork(s, w)
    ensures Steals(At(s, w, pc), w, s', victim) == Steals(s, w, s', victim)
    ensures At(At(s, w, pc), w, AtWait) == At(s, w, AtWait)
  {
    SetTwice(s, w, pc);
  }

  lemma SetTwice(s: State, w: nat, pc: Worker)
    requires w < |s.workers|
    ensures forall last :: At(At(s, w, pc), w, last) == At(s, w, last)
  {
  }

  /** The wait predicate over empty deques: the worker goes to sleep. */
  lemma {:induction false} ProbeAlone(s: State, w: nat, offset: nat) returns (events: seq<Event>)
    requires WellFormed(s) && w < |s.workers| && s.workers[w] == Probing(offset)
    requires forall v :: 0 <= v < |s.locals| ==> s.locals[v] == []
    ensures Exec(s, events) == After(At(s, w, Parked))
    decreases |s.workers| - offset
  {
    var next := Do(s, ProbeNext(w));
    if offset >= |s.workers| {
      events := [];
    } else {
      assert s.locals[(w + offset) % |s.workers|] == [];
      events := ProbeAlone(next, w, offset + 1);
      SetTwice(s, w, Probing(offset + 1));
    }
    ExecFirst(s, ProbeNext(w), events);
    events := [ProbeNext(w)] + events;
  }

  /** The check that every deque is empty: the worker leaves. */
  lemma {:induction false} LeaveAlone(s: State, w: nat, index: nat) returns (events: seq<Event>)
    requires WellFormed(s) && w < |s.workers| && s.workers[w] == Scanning(index)
    requires forall v :: 0 <= v < |s.locals| ==> s.locals[v] == []
    ensures Exec(s, events) == After(At(s, w, Exited))
    decreases |s.workers| - index
  {
    var next := Do(s, ScanNext(w));
    if index >= |s.workers| {
      events := [];
    } else {
      assert s.locals[index] == [];
      events := LeaveAlone(next, w, index + 1);
      SetTwice(s, w, Scanning(index + 1));
    }
    ExecFirst(s, ScanNext(w), events);
    events := [ScanNext(w)] + events;
  }

  lemma {:induction false} ExecInTwo(s: State, first: seq<Event>, second: seq<Event>)
    requires WellFormed(s) && Exec(s, first).After?
    ensures Exec(s, first + second) == Exec(Exec(s, first).state, second)
    decreases |first|
  {
    if first == [] {
      assert first + second == second;
    } else {
      hide Do, Enabled, MutexFree;
      assert (first + second)[1..] == first[1..] + second && (first + second)[0] == first[0];
      ExecInTwo(Do(s, first[0]), first[1..], second);
    }
  }

  /** A worker that found nothing anywhere sleeps, or leaves a stopping pool. */
  lemma SettleAlone(s: State, w: nat) returns (events: seq<Event>)
    requires WellFormed(s) && w < |s.workers| && s.workers[w] == AtWait && MutexFree(s) && s.ring == []
    requires forall v :: 0 <= v < |s.locals| ==> s.locals[v] == []
    ensures Exec(s, events) == After(At(s, w, if s.stopping then Exited else Parked))
  {
    var next := Do(s, LockForWait(w));
    if s.stopping {
      events := LeaveAlone(next, w, 0);
      SetTwice(s, w, Scanning(0));
    } else {
      events := ProbeAlone(next, w, 0);
      SetTwice(s, w, Probing(0));
    }
    ExecFirst(s, LockForWait(w), events);
    events := [LockForWait(w)] + events;
  }

  /** Where a worker's turn ends when nobody intervenes. */
  predicate TurnEnds(s: State, w: nat, s': State, victim: nat)
    requires WellFormed(s) && w < |s.workers|
  {
    if s.locals[w] != [] then
      s' == At(s, w, Running(s.locals[w][0])).(locals := s.locals[w := s.locals[w][1..]])
    else if s.ring != [] then s' == At(s, w, Running(s.ring[0])).(ring := s.ring[1..])
    else if OthersHaveWork(s, w) then Steals(s, w, s', victim)
    else s' == At(s, w, if s.stopping then Exited else Parked)
  }

  /** Main result: a worker whose steps nobody interrupts takes the front of its own deque, else the head of the
      ring, else the back of another deque, else sleeps, or leaves when the pool is stopping: the turn of the
      pool object's worker. */
  lemma TurnAlone(s: State, w: nat) returns (events: seq<Event>, victim: nat)
    requires WellFormed(s) && w < |s.workers| && s.workers[w].AtTop? && MutexFree(s)
    ensures Exec(s, events).After? && TurnEnds(s, w, Exec(s, events).state, victim)
  {
    victim := 0;
    var s1 := Do(s, PopOwn(w));
    if s.locals[w] != [] {
      events := [];
    } else {
      SetTwice(s, w, AtGlobal);
      assert MutexFree(s1);
      var s2 := Do(s1, TakeGlobal(w));
      if s.ring != [] {
        events := [];
      } else {
        SetTwice(s, w, Stealing(1));
        events, victim := ScanAlone(s2, w, 1);
        var s3 := Exec(s2, events).state;
        if s3.workers[w] == AtWait {
          assert MutexFree(s3);
          var last := SettleAlone(s3, w);
          ExecInTwo(s2, events, last);
          events := events + last;
          SetTwice(s, w, AtWait);
        }
      }
      ExecFirst(s1, TakeGlobal(w), events);
      events := [TakeGlobal(w)] + events;
    }
    ExecFirst(s, PopOwn(w), events);
    events := [PopOwn(w)] + events;
  }

  // ---------------------------------------------------------------- waiting and leaving

  /** A worker goes to sleep only when, with the pool's mutex held, it has seen the ring and then every deque
      empty; work seen on the way sends it back, and so does a stop with work in the ring. */
  lemma WaitsExactly(s: State, w: nat)
    requires WellFormed(s) && w < |s.workers|
    ensures Enabled(s, LockForWait(w)) ==>
              Do(s, LockForWait(w)) ==
                At(s, w, if s.ring != [] then AtTop else if s.stopping then Scanning(0) else Probing(0))
    ensures s.workers[w].Probing? ==>
              var offset := s.workers[w].offset;
              Do(s, ProbeNext(w)) ==
                At(s, w, if offset >= |s.workers| then Parked
                         else if s.locals[(w + offset) % |s.workers|] != [] then AtTop else Probing(offset + 1))
  {
  }

  /** A worker leaves only after, in a stopping pool, it has seen every deque empty. */
  lemma LeavesExactly(s: State, w: nat)
    requires WellFormed(s) && w < |s.workers| && s.workers[w].Scanning?
    ensures var index := s.workers[w].index;
      Do(s, ScanNext(w)) ==
        At(s, w, if index >= |s.workers| then Exited else if s.locals[index] != [] then AtTop else Scanning(index + 1))
  {
  }

  /** The pool stops when told to, for good. */
  lemma {:induction false} StopsForGood(s: State, events: seq<Event>)
    requires WellFormed(s) && Enabled(s, Stop) && Exec(Do(s, Stop), events).After?
    ensures Exec(Do(s, Stop), events).state.stopping
  {
    StaysStopping(Do(s, Stop), events);
  }

  lemma {:induction false} StaysStopping(s: State, events: seq<Event>)
    requires WellFormed(s) && s.stopping && Exec(s, events).After?
    ensures Exec(s, events).state.stopping
    decreases |events|
  {
    if events != [] {
      assert Do(s, events[0]).stopping;
      hide Do, Enabled;
      StaysStopping(Do(s, events[0]), events[1..]);
    }
  }
}
