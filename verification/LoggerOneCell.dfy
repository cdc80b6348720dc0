/**
 What else a queue of one cell breaks: a stop() with no log() under way loses an accepted record, a
 flush() returns over a record it should cover, and the logger leaves the accounting machine's states. From
 two cells on none of this happens.
 */
module LoggerOneCell {
  import opened Basics
  import opened LoggerOnRing
  import opened LoggerRealised
  import Log = AsyncLogger
  import Mpsc = MpscRing
  import Stop = LoggerStop
  import Flush = LoggerFlush
  import Modular

  predicate Leads(c: State, events: seq<Event>, c': State) { Exec(c, events) == After(c') }

  lemma LeadsThen(c: State, first: seq<Event>, middle: State, second: seq<Event>, c': State)
    requires Leads(c, first, middle) && Leads(middle, second, c')
    ensures Leads(c, first + second, c')
  {
    ExecInTwo(c, first, second);
  }

  // ---------------------------------------------------------------- the worker at a single cell

  /** The cell carries the number the idle worker looks for, and this value. */
  predicate Offers(ring: Ring, v: Record) {
    && ring.capacity == 1 && ring.consumer.Idle?
    && ring.cells == [Mpsc.Cell(ring.dequeuePosition + 1, v)]
  }

  function TakeSteps(leftover: Record): seq<Event> {
    [RingStep(Mpsc.BeginDequeue), RingStep(Mpsc.CheckHead), RingStep(Mpsc.MoveOut(leftover)),
     RingStep(Mpsc.ReleaseCell), RingStep(Mpsc.AdvanceHead)]
  }

  function PutSteps(): seq<Event> { [LoggerStep(Log.UncountPending), LoggerStep(Log.AppendRecord(false))] }

  /** What was moved out, and the leftover in the cell, which now looks free for the next round. */
  function Taken(ring: Ring, v: Record, leftover: Record): Ring {
    ring.(cells := [Mpsc.Cell(ring.dequeuePosition + 1, leftover)], dequeuePosition := ring.dequeuePosition + 1,
          taken := ring.taken + [v])
  }

  lemma RingTakes(ring: Ring, v: Record, leftover: Record)
    requires Offers(ring, v)
    ensures var p := ring.dequeuePosition;
      var r1, r2 := ring.(consumer := Mpsc.AtHead(p)), ring.(consumer := Mpsc.Holding(p));
      var r3 := ring.(cells := [Mpsc.Cell(p + 1, leftover)], consumer := Mpsc.Moved(p, v), taken := ring.taken + [v]);
      var r4 := r3.(consumer := Mpsc.Released(p, v));
      && Mpsc.Do(ring, Mpsc.BeginDequeue) == r1
      && Mpsc.Do(r1, Mpsc.CheckHead) == r2
      && Mpsc.Do(r2, Mpsc.MoveOut(leftover)) == r3
      && Mpsc.Do(r3, Mpsc.ReleaseCell) == r4
      && Mpsc.Do(r4, Mpsc.AdvanceHead) == Taken(ring, v, leftover)
  {
    Modular.Remainder(1, ring.dequeuePosition, ring.dequeuePosition, 0);
  }

  /** Moves of the consumer that mean nothing to the worker. */
  lemma ConsumerStep(c: State, r: Mpsc.Event<Record>, ring: Ring)
    requires Mpsc.WellFormed(c.ring) && Mpsc.Enabled(c.ring, r) && MayStep(c.logger, r) && Mpsc.Do(c.ring, r) == ring
    requires r.BeginDequeue? || r.MoveOut? || r.AdvanceHead? || (r.CheckHead? && !ring.consumer.Idle?)
    ensures Step(c, RingStep(r), c.(ring := ring))
  {
    hide Mpsc.Do;
  }

  lemma ReleaseStep(c: State, ring: Ring)
    requires Mpsc.WellFormed(c.ring) && c.ring.consumer.Moved? && c.logger.worker.Draining?
    requires Mpsc.Do(c.ring, Mpsc.ReleaseCell) == ring
    ensures Step(c, RingStep(Mpsc.ReleaseCell),
                 State(c.logger.(worker := Log.Dequeued(c.ring.consumer.item)), ring))
  {
    hide Mpsc.Do;
  }

  lemma TakeRuns(c: State, v: Record, leftover: Record)
    requires Offers(c.ring, v) && c.logger.worker.Draining?
    ensures Leads(c, TakeSteps(leftover),
                  State(c.logger.(worker := Log.Dequeued(v)), Taken(c.ring, v, leftover)))
  {
    var ring, p := c.ring, c.ring.dequeuePosition;
    var r1, r2 := ring.(consumer := Mpsc.AtHead(p)), ring.(consumer := Mpsc.Holding(p));
    var r3 := ring.(cells := [Mpsc.Cell(p + 1, leftover)], consumer := Mpsc.Moved(p, v), taken := ring.taken + [v]);
    var s := c.logger.(worker := Log.Dequeued(v));
    var c4, c5 := State(s, r3.(consumer := Mpsc.Released(p, v))), State(s, Taken(ring, v, leftover));
    RingTakes(ring, v, leftover);
    hide Mpsc.Do;
    ConsumerStep(c, Mpsc.BeginDequeue, r1);
    ConsumerStep(c.(ring := r1), Mpsc.CheckHead, r2);
    ConsumerStep(c.(ring := r2), Mpsc.MoveOut(leftover), r3);
    ReleaseStep(c.(ring := r3), c4.ring);
    ConsumerStep(c4, Mpsc.AdvanceHead, c5.ring);
    hide Step, Do, Exec, Enabled;
    Chain([c, c.(ring := r1), c.(ring := r2), c.(ring := r3), c4, c5], TakeSteps(leftover));
  }

  lemma PutRuns(c: State, v: Record)
    requires c.logger.worker == Log.Dequeued(v) && c.ring.consumer.Idle?
    ensures Leads(c, PutSteps(), c.(logger := c.logger.(worker := Log.Draining, pending := c.logger.pending - 1,
                                                        activeRecords := c.logger.activeRecords + [v])))
  {
    var c1 := c.(logger := c.logger.(worker := Log.Appending(v), pending := c.logger.pending - 1));
    var c2 := c1.(logger := c1.logger.(worker := Log.Draining, activeRecords := c1.logger.activeRecords + [v]));
    assert Step(c, LoggerStep(Log.UncountPending), c1) && Step(c1, LoggerStep(Log.AppendRecord(false)), c2);
    hide Step, Do, Exec, Enabled;
    Chain([c, c1, c2], PutSteps());
  }

  /** The worker takes whatever value the cell holds into its buffer. */
  function TakeCall(leftover: Record): seq<Event> { TakeSteps(leftover) + PutSteps() }

  function AfterTake(c: State, v: Record, leftover: Record): State {
    State(c.logger.(pending := c.logger.pending - 1, activeRecords := c.logger.activeRecords + [v]),
          Taken(c.ring, v, leftover))
  }

  lemma TakeCallRuns(c: State, v: Record, leftover: Record)
    requires Offers(c.ring, v) && c.logger.worker.Draining?
    ensures Leads(c, TakeCall(leftover), AfterTake(c, v, leftover))
  {
    hide Exec, TakeSteps, PutSteps;
    var c1 := State(c.logger.(worker := Log.Dequeued(v)), Taken(c.ring, v, leftover));
    TakeRuns(c, v, leftover);
    PutRuns(c1, v);
    LeadsThen(c, TakeSteps(leftover), c1, PutSteps(), AfterTake(c, v, leftover));
  }

  function LookSteps(): seq<Event> { [RingStep(Mpsc.BeginDequeue), RingStep(Mpsc.CheckHead)] }

  /** The worker looks for a number the cell does not carry. */
  lemma LookRuns(c: State)
    requires c.ring.capacity == 1 && |c.ring.cells| == 1 && c.ring.consumer.Idle? && c.logger.worker.Draining?
    requires c.ring.cells[0].sequence != c.ring.dequeuePosition + 1
    ensures Leads(c, LookSteps(), c.(logger := c.logger.(worker := Log.LoadingState)))
  {
    Modular.Remainder(1, c.ring.dequeuePosition, c.ring.dequeuePosition, 0);
    var c1 := c.(ring := c.ring.(consumer := Mpsc.AtHead(c.ring.dequeuePosition)));
    var c2 := c.(logger := c.logger.(worker := Log.LoadingState));
    assert Step(c, RingStep(Mpsc.BeginDequeue), c1) && Step(c1, RingStep(Mpsc.CheckHead), c2);
    hide Step, Do, Exec, Enabled;
    Chain([c, c1, c2], LookSteps());
  }

  // ---------------------------------------------------------------- one record overtakes another

  /** Thread 0 has logged a; thread 1 has claimed and written b over it and not published. */
  function Claim(b: Record): seq<Event> { LogIn(1, b) + LogClaim(1, b) }

  function OneLogged(policy: Log.OverflowPolicy, a: Record): State {
    State(Log.Init(1, policy).(pending := 1, accepted := 1, enqueued := [a], sinceLook := [a]),
          Mpsc.State(1, [Mpsc.Cell(1, a)], 1, 0, map[], Mpsc.Idle, [a], [0], []))
  }

  function BothClaimed(policy: Log.OverflowPolicy, a: Record, b: Record): State {
    State(Log.Init(1, policy).(producers := map[1 := Log.Publishing], active := 1, pending := 2, accepted := 1,
                               enqueued := [a, b], sinceLook := [a, b]),
          Mpsc.State(1, [Mpsc.Cell(1, b)], 2, 0, map[1 := Mpsc.Written(1)], Mpsc.Idle, [a, b], [0, 1], []))
  }

  lemma OneLogRuns(policy: Log.OverflowPolicy, a: Record)
    ensures Leads(Init(1, policy), LogCall(0, a), OneLogged(policy, a))
  {
    LogRuns(Init(1, policy), 0, a);
    hide Exec, LogCall;
    assert [] + [a] == [a] && [] + [0] == [0];
  }

  lemma ClaimRuns(policy: Log.OverflowPolicy, a: Record, b: Record)
    ensures Leads(OneLogged(policy, a), Claim(b), BothClaimed(policy, a, b))
  {
    hide Exec, LogIn, LogClaim;
    var c := OneLogged(policy, a);
    LogInRuns(c, 1, b);
    var c1 := Exec(c, LogIn(1, b)).state;
    LogClaimRuns(c1, 1, b);
    assert AfterClaim(c1, 1, b) == BothClaimed(policy, a, b) by {
      assert [a] + [b] == [a, b] && [0] + [1] == [0, 1];
      assert map[1 := Log.Attempting(b)][1 := Log.Publishing] == map[1 := Log.Publishing];
    }
    LeadsThen(c, LogIn(1, b), c1, LogClaim(1, b), BothClaimed(policy, a, b));
  }

  /** The worker takes b where it looks for a, and finds no record at the next position. */
  function OvertakenFlush(b: Record, x: Record): seq<Event> {
    Claim(b) + (TakeCall(x) + (LookSteps() + [LoggerStep(Log.LoadState), LoggerStep(Log.Decide(true))]))
  }

  lemma FlushStepsRun(c: State)
    requires c.logger.worker == Log.LoadingState && c.logger.phase == Log.Running
    ensures var o := Exec(c, [LoggerStep(Log.LoadState), LoggerStep(Log.Decide(true))]);
      && o.After?
      && o.state.logger.written == c.logger.written + c.logger.activeRecords
      && o.state.logger.lastFlushed == |c.logger.written + c.logger.activeRecords|
  {
    var c1 := c.(logger := c.logger.(worker := Log.Deciding(false)));
    var c2 := c.(logger := Log.WriteOut(c.logger).(lastFlushed := |c.logger.written + c.logger.activeRecords|,
                                                   worker := Log.Draining));
    assert Step(c, LoggerStep(Log.LoadState), c1) && Step(c1, LoggerStep(Log.Decide(true)), c2);
    Chain([c, c1, c2], [LoggerStep(Log.LoadState), LoggerStep(Log.Decide(true))]);
    hide Exec, Step, Do, Enabled;
  }

  /** Main result: with one cell, a flush() that begins when a was logged returns with b in its place. */
  lemma OneCellFlushLies(policy: Log.OverflowPolicy, a: Record, b: Record, x: Record)
    ensures var o := Exec(Init(1, policy), LogCall(0, a));
      && o.After? && o.state.logger.phase == Log.Running && o.state.logger.enqueued == [a]
      && o.state.logger.accepted == 1
      && var o' := Exec(o.state, OvertakenFlush(b, x));
         o'.After? && o'.state.logger.lastFlushed == 1 && o'.state.logger.written == [b]
  {
    hide Exec, Claim, TakeCall, LookSteps, LogCall;
    var c, c1 := OneLogged(policy, a), BothClaimed(policy, a, b);
    var c2 := AfterTake(c1, b, x);
    var c3 := c2.(logger := c2.logger.(worker := Log.LoadingState));
    OneLogRuns(policy, a);
    ClaimRuns(policy, a, b);
    TakeCallRuns(c1, b, x);
    LookRuns(c2);
    FlushStepsRun(c3);
    var last := [LoggerStep(Log.LoadState), LoggerStep(Log.Decide(true))];
    LeadsThen(c2, LookSteps(), c3, last, Exec(c3, last).state);
    LeadsThen(c1, TakeCall(x), c2, LookSteps() + last, Exec(c3, last).state);
    LeadsThen(c, Claim(b), c1, TakeCall(x) + (LookSteps() + last), Exec(c3, last).state);
    assert [] + ([] + [b]) == [b];
  }

  // ---------------------------------------------------------------- a quiet stop

  /** b was taken for a; then b is published, and nobody is inside log() any more. */
  function Overtaken(a: Record, b: Record, x: Record): seq<Event> {
    LogCall(0, a) + (Claim(b) + (TakeCall(x) + LeaveAndStop()))
  }

  /** Thread 1 publishes and leaves log(), and stop() looks at the phase. */
  function LeaveAndStop(): seq<Event> {
    [RingStep(Mpsc.Event.Publish(1))] + (LogOut(1) + [LoggerStep(Log.LookForStop)])
  }

  /** The cell holds the leftover of b as if it were the second record. */
  function AllQuiet(policy: Log.OverflowPolicy, a: Record, b: Record, x: Record): State {
    State(Log.Init(1, policy).(stopSeen := true, pending := 1, accepted := 2, enqueued := [a, b],
                               sinceLook := [a, b], activeRecords := [b]),
          Mpsc.State(1, [Mpsc.Cell(2, x)], 2, 1, map[], Mpsc.Idle, [a, b], [0, 1], [b]))
  }

  lemma OutRuns(policy: Log.OverflowPolicy, a: Record, b: Record, x: Record)
    ensures Leads(AfterTake(BothClaimed(policy, a, b), b, x), LeaveAndStop(), AllQuiet(policy, a, b, x))
  {
    var c, publish := AfterTake(BothClaimed(policy, a, b), b, x), [RingStep(Mpsc.Event.Publish(1))];
    var ring := AllQuiet(policy, a, b, x).ring;
    assert Mpsc.Do(c.ring, Mpsc.Event.Publish(1)) == ring by {
      Modular.Remainder(1, 1, 1, 0);
      assert c.ring.producers - {1} == map[];
      assert [] + [b] == [b];
    }
    var c1 := State(Log.At(c.logger, 1, Log.Enqueued), ring);
    PublishStep(c, 1, ring);
    Chain([c, c1], publish);
    assert c1.logger.producers == map[][1 := Log.Enqueued];
    LogOutRuns(c1, 1, map[]);
    assert [] + [b] == [b];
    var c3 := AllQuiet(policy, a, b, x);
    var c2 := c3.(logger := c3.logger.(stopSeen := false));
    assert Step(c2, LoggerStep(Log.LookForStop), c3);
    Chain([c2, c3], [LoggerStep(Log.LookForStop)]);
    hide Exec, Step, Do, Enabled, LogOut;
    LeadsThen(c1, LogOut(1), c2, [LoggerStep(Log.LookForStop)], c3);
    LeadsThen(c, publish, c1, LogOut(1) + [LoggerStep(Log.LookForStop)], c3);
  }

  lemma OvertakenRuns(policy: Log.OverflowPolicy, a: Record, b: Record, x: Record)
    ensures Leads(Init(1, policy), Overtaken(a, b, x), AllQuiet(policy, a, b, x))
  {
    hide Exec, Claim, TakeCall, LogCall, LeaveAndStop;
    var c, c1, c3 := OneLogged(policy, a), BothClaimed(policy, a, b), AllQuiet(policy, a, b, x);
    OneLogRuns(policy, a);
    ClaimRuns(policy, a, b);
    TakeCallRuns(c1, b, x);
    OutRuns(policy, a, b, x);
    LeadsThen(c1, TakeCall(x), AfterTake(c1, b, x), LeaveAndStop(), c3);
    LeadsThen(c, Claim(b), c1, TakeCall(x) + LeaveAndStop(), c3);
    LeadsThen(Init(1, policy), LogCall(0, a), c, Claim(b) + (TakeCall(x) + LeaveAndStop()), c3);
  }

  function ExitSteps(): seq<Event> {
    [LoggerStep(Log.LoadState), LoggerStep(Log.LoadPending), LoggerStep(Log.LoadActive), LoggerStep(Log.Decide(false))]
  }

  lemma LooksRun(c: State)
    requires c.logger.worker == Log.LoadingState && c.logger.phase == Log.Stopping
    requires c.logger.pending == 0 && c.logger.active == 0
    ensures var c1 := c.(logger := c.logger.(worker := Log.LoadingPending));
      var c2 := c.(logger := c.logger.(worker := Log.LoadingActive, sinceLook := []));
      && Step(c, LoggerStep(Log.LoadState), c1)
      && Step(c1, LoggerStep(Log.LoadPending), c2)
      && Step(c2, LoggerStep(Log.LoadActive), c.(logger := c.logger.(worker := Log.Deciding(true), sinceLook := [])))
  {
  }

  lemma DecideRuns(c: State)
    requires c.logger.worker == Log.Deciding(true)
    ensures Step(c, LoggerStep(Log.Decide(false)),
                 c.(logger := Log.WriteOut(c.logger).(lastFlushed := |c.logger.written + c.logger.activeRecords|,
                                                      worker := Log.Exited)))
  {
  }

  lemma ExitRuns(c: State)
    requires c.logger.worker == Log.LoadingState && c.logger.phase == Log.Stopping
    requires c.logger.pending == 0 && c.logger.active == 0
    ensures var o := Exec(c, ExitSteps());
      && o.After? && o.state.logger.worker.Exited? && o.state.ring == c.ring
      && o.state.logger.written == c.logger.written + c.logger.activeRecords
      && o.state.logger.enqueued == c.logger.enqueued && o.state.logger.accepted == c.logger.accepted
  {
    var s := c.logger;
    var c1 := c.(logger := s.(worker := Log.LoadingPending));
    var c2 := c.(logger := s.(worker := Log.LoadingActive, sinceLook := []));
    var c3 := c.(logger := s.(worker := Log.Deciding(true), sinceLook := []));
    var c4 := c.(logger := Log.WriteOut(c3.logger).(lastFlushed := |s.written + s.activeRecords|, worker := Log.Exited));
    LooksRun(c);
    DecideRuns(c3);
    hide Step, Do, Exec, Enabled;
    Chain([c, c1, c2, c3, c4], ExitSteps());
  }

  function QuietExit(y: Record): seq<Event> { TakeCall(y) + (LookSteps() + ExitSteps()) }

  /** Main result: with one cell, stop() with no log() under way ends with an accepted record lost and
      the leftover of another in its place. */
  lemma OneCellQuietStopLoses(policy: Log.OverflowPolicy, a: Record, b: Record, x: Record, y: Record)
    ensures var o := Exec(Init(1, policy), Overtaken(a, b, x));
      && o.After? && AboutToStop(o.state) && o.state.logger.producers == map[]
      && var o' := Exec(Do(o.state, LoggerStep(Log.RequestStop)), QuietExit(y));
         && o'.After? && o'.state.logger.worker.Exited? && Mpsc.WellFormed(o'.state.ring)
         && o'.state.logger.accepted == 2 && o'.state.logger.enqueued == [a, b] && o'.state.logger.written == [b, x]
  {
    hide Exec, TakeCall, LookSteps, ExitSteps, Overtaken;
    OvertakenRuns(policy, a, b, x);
    var c := Do(AllQuiet(policy, a, b, x), LoggerStep(Log.RequestStop));
    var c1 := AfterTake(c, x, y);
    var c2 := c1.(logger := c1.logger.(worker := Log.LoadingState));
    TakeCallRuns(c, x, y);
    LookRuns(c1);
    ExitRuns(c2);
    var c3 := Exec(c2, ExitSteps()).state;
    LeadsThen(c1, LookSteps(), c2, ExitSteps(), c3);
    LeadsThen(c, TakeCall(y), c1, LookSteps() + ExitSteps(), c3);
    assert [] + ([b] + [x]) == [b, x];
  }

  // ---------------------------------------------------------------- exactly from two cells

  /** Main result: a stop() with no log() under way loses nothing, in every run, if and only if the queue
      has two cells or more. */
  lemma QuietStopsKeepExactlyFromTwoCells(capacity: nat, policy: Log.OverflowPolicy)
    requires capacity > 0
    ensures capacity >= 2 <==>
      forall before, later ::
        var o := Exec(Init(capacity, policy), before);
        o.After? && AboutToStop(o.state) && o.state.logger.producers == map[] ==>
          var o' := Exec(Do(o.state, LoggerStep(Log.RequestStop)), later);
          o'.After? && o'.state.logger.worker.Exited? ==>
            Mpsc.WellFormed(o'.state.ring) && Stop.NothingLost(View(o'.state))
  {
    hide Exec, Overtaken, QuietExit;
    if capacity >= 2 {
      forall before, later |
        && Exec(Init(capacity, policy), before).After?
        && AboutToStop(Exec(Init(capacity, policy), before).state)
        && Exec(Init(capacity, policy), before).state.logger.producers == map[]
        && Exec(Do(Exec(Init(capacity, policy), before).state, LoggerStep(Log.RequestStop)), later).After?
        && Exec(Do(Exec(Init(capacity, policy), before).state, LoggerStep(Log.RequestStop)), later)
           .state.logger.worker.Exited?
        ensures var c := Exec(Do(Exec(Init(capacity, policy), before).state, LoggerStep(Log.RequestStop)), later).state;
                Mpsc.WellFormed(c.ring) && Stop.NothingLost(View(c))
      {
        StopLosesNothing(capacity, policy, before, later);
      }
    } else {
      OneCellQuietStopLoses(policy, 0, 1, 2, 3);
      var c := Exec(Init(capacity, policy), Overtaken(0, 1, 2)).state;
      var c' := Exec(Do(c, LoggerStep(Log.RequestStop)), QuietExit(3)).state;
      assert [0, 1][0] != [1, 2][0];
      assert !Stop.NothingLost(View(c'));
    }
  }

  /** Main result: the first records in claim order, as many as were accepted when flush() began, are in
      the file whenever it returns by its count, in every run, if and only if the queue has two cells or more. */
  lemma FlushCoversExactlyFromTwoCells(capacity: nat, policy: Log.OverflowPolicy)
    requires capacity > 0
    ensures capacity >= 2 <==>
      forall before, later ::
        var o := Exec(Init(capacity, policy), before);
        o.After? && o.state.logger.phase == Log.Running ==>
          var o' := Exec(o.state, later);
          var s := o.state.logger;
          o'.After? && o'.state.logger.lastFlushed >= s.accepted ==>
            s.accepted <= |s.enqueued| && s.enqueued[..s.accepted] <= o'.state.logger.written
  {
    hide Exec, OvertakenFlush, LogCall;
    if capacity >= 2 {
      forall before, later | Exec(Init(capacity, policy), before).After?
                             && Exec(Exec(Init(capacity, policy), before).state, later).After?
                             && Exec(Exec(Init(capacity, policy), before).state, later).state.logger.lastFlushed
                                >= Exec(Init(capacity, policy), before).state.logger.accepted
        ensures var s := Exec(Init(capacity, policy), before).state.logger;
          && s.accepted <= |s.enqueued|
          && s.enqueued[..s.accepted] <= Exec(Exec(Init(capacity, policy), before).state, later).state.logger.written
      {
        FlushCovers(capacity, policy, before, later);
      }
    } else {
      OneCellFlushLies(policy, 0, 1, 2);
      var c := Exec(Init(capacity, policy), LogCall(0, 0)).state;
      var c' := Exec(c, OvertakenFlush(1, 2)).state;
      assert c.logger.enqueued[..c.logger.accepted] == [0] && [0][0] != [1][0];
      assert !(c.logger.enqueued[..c.logger.accepted] <= c'.logger.written);
    }
  }

  /** Reached by a run of the accounting machine, and by a run of the logger on its ring. */
  ghost predicate LogReaches(capacity: nat, policy: Log.OverflowPolicy, s: Log.State) {
    exists run :: Log.Exec(Log.Init(capacity, policy), run) == After(s)
  }

  predicate ShowsAs(c: State, s: Log.State) { Mpsc.WellFormed(c.ring) && View(c) == s }

  ghost predicate RingReaches(capacity: nat, policy: Log.OverflowPolicy, s: Log.State)
    requires capacity > 0
  {
    exists events :: var o := Exec(Init(capacity, policy), events); o.After? && ShowsAs(o.state, s)
  }

  lemma SameStates(capacity: nat, policy: Log.OverflowPolicy, s: Log.State)
    requires capacity >= 2
    ensures LogReaches(capacity, policy, s) <==> RingReaches(capacity, policy, s)
  {
    var c := Init(capacity, policy);
    InitHasInv(capacity, policy);
    ReachableIsWhole(capacity, policy, []);
    hide Inv, Stop.Good, Flush.OneEach, Exec, Log.Exec, Init, Log.Init;
    if LogReaches(capacity, policy, s) {
      var run :| Log.Exec(Log.Init(capacity, policy), run) == After(s);
      var events := RunRealises(c, run);
      assert ShowsAs(Exec(c, events).state, s);
    }
    if RingReaches(capacity, policy, s) {
      var events :| Exec(c, events).After? && ShowsAs(Exec(c, events).state, s);
      RunSimulates(c, events);
    }
  }

  lemma OneCellLeavesStates(policy: Log.OverflowPolicy) returns (s: Log.State)
    ensures RingReaches(1, policy, s) && !LogReaches(1, policy, s)
  {
    OneCellMisaccounts(policy);
    hide Exec, Log.Exec, TwoLogs, Log.PendingProducers, Log.UncountedProducers, Log.Records, Slots;
    s := View(Exec(Init(1, policy), TwoLogs(0, 1)).state);
    assert ShowsAs(Exec(Init(1, policy), TwoLogs(0, 1)).state, s);
    if LogReaches(1, policy, s) {
      var run :| Log.Exec(Log.Init(1, policy), run) == After(s);
      Log.EveryRunAccounts(1, policy, run);
    }
  }

  /** Main result: the logger on its ring and the accounting machine over a FIFO reach the same states
      if and only if the queue has two cells or more. */
  lemma SameStatesExactlyFromTwoCells(capacity: nat, policy: Log.OverflowPolicy)
    requires capacity > 0
    ensures capacity >= 2 <==>
            forall s :: LogReaches(capacity, policy, s) <==> RingReaches(capacity, policy, s)
  {
    if capacity >= 2 {
      forall s ensures LogReaches(capacity, policy, s) <==> RingReaches(capacity, policy, s) {
        SameStates(capacity, policy, s);
      }
    } else {
      var s := OneCellLeavesStates(policy);
    }
  }
}
