/**
 The RPC client's bookkeeping of calls: the pending table, the calls on their way into and out of it,
 the futures, the frames handed to the connection, the counters and the reconnect delay.

 Every lock region and every atomic access is one event; any thread may take any of them at any time.
 */
module RpcClient {
  import opened Basics

  // Error codes of the protocol.
  const OK: int := 0
  const NETWORK_ERROR: int := 1001
  const PROTOCOL_ERROR: int := 1002
  const TIMEOUT: int := 1003
  const CANCELLED: int := 1004
  const CLIENT_STOPPING: int := 1005
  const QUEUEING_TIMEOUT: int := 1006
  const RETRY_EXHAUSTED: int := 1007

  const INITIAL_RECONNECT_DELAY: nat := 100
  const MAX_RECONNECT_DELAY: nat := 3000

  datatype Connection = Disconnected | Connecting | Connected | Reconnecting | Stopping

  datatype Options = Options(timeout: int, retryEnabled: bool, maxRetries: nat, failFast: bool)

  datatype Progress = WaitingToSend | Sent

  /** An entry of the pending table. */
  datatype Pending = Pending(options: Options, progress: Progress, attempt: nat)

  /** A call inside callAsync(), before it is in the table. */
  datatype Fresh = Fresh(options: Options, attempt: nat, armed: bool, admitted: bool)

  datatype Link = Link(connection: Connection, desired: bool, stopping: bool, reconnectDelay: nat,
                       reconnectTimer: bool)

  /** Frames marked as sent but not handed over yet, and the frames handed to the connection. `marked`
      is a history: every call ever marked as sent. */
  datatype Frames = Frames(sending: set<nat>, wire: seq<nat>, marked: set<nat>)

  datatype Counters = Counters(total: nat, success: nat, failed: nat, timedOut: nat, cancelled: nat)

  /** A call is being prepared, in the table, taken (out of the table or never put in, its outcome
      decided), recorded (its outcome counted), or has its future set. Histories: `settings` lists the
      calls of RpcFuture::complete, `firedEarly` the calls whose deadline fired before they were in the
      table. */
  datatype State = State(
    link: Link,
    nextId: nat,
    preparing: map<nat, Fresh>,
    pendingCalls: map<nat, Pending>,
    taken: map<nat, int>,
    recorded: map<nat, int>,
    futures: map<nat, int>,
    settings: seq<nat>,
    timers: set<nat>,
    firedEarly: set<nat>,
    frames: Frames,
    counters: Counters)

  datatype Event =
    | Begin(options: Options, attempt: nat)
    | Prepare(id: nat, encodable: bool)
    | Admit(id: nat)
    | Insert(id: nat)
    | MarkSent(id: nat)
    | HandOver(id: nat)
    | Response(id: nat, code: int)
    | DeadlineFires(id: nat)
    | Fail(id: nat, code: int)         // a cancel, or a deadline found passed when sending
    | FailAll(code: int)
    | FailSent
    | ExpireRetries
    | Record(id: nat)
    | CompleteFuture(id: nat)
    | ConnectionUp
    | SetConnection(to: Connection)
    | SetDesired(desired: bool)
    | Stop
    | ScheduleReconnect
    | ReconnectTimerFires
    | CancelReconnectTimer

  // ------------------------------------------------ what the sweeps over the table do

  predicate FailsOnDisconnect(p: Pending) { p.progress.Sent? || p.options.failFast }

  predicate Retrying(p: Pending) { p.progress.WaitingToSend? && p.options.retryEnabled }

  predicate Exhausted(p: Pending) {
    Retrying(p) && (if p.attempt == 0 then 0 else p.attempt - 1) >= p.options.maxRetries
  }

  function FailedOnDisconnect(table: map<nat, Pending>): set<nat> {
    set id | id in table && FailsOnDisconnect(table[id])
  }

  function ExhaustedCalls(table: map<nat, Pending>): set<nat> {
    set id | id in table && Exhausted(table[id])
  }

  /** The table after one connection error: exhausted calls are gone, the other waiting retries are
      one attempt further. */
  function AfterExpiry(table: map<nat, Pending>): map<nat, Pending> {
    map id | id in table && !Exhausted(table[id]) :: NextAttempt(table[id])
  }

  function NextAttempt(p: Pending): Pending {
    if Retrying(p) then p.(attempt := p.attempt + 1) else p
  }

  function AllWith(ids: set<nat>, code: int): map<nat, int> {
    map id | id in ids :: code
  }

  function NextDelay(delay: nat): nat {
    if delay * 2 < MAX_RECONNECT_DELAY then delay * 2 else MAX_RECONNECT_DELAY
  }

  // ---------------------------------------------------------------- the machine

  predicate InCallAsync(e: Event) { e.Begin? || e.Prepare? || e.Admit? || e.Insert? }
  predicate OnFrames(e: Event) { e.MarkSent? || e.HandOver? }
  predicate Sweeps(e: Event) {
    e.Response? || e.DeadlineFires? || e.Fail? || e.FailAll? || e.FailSent? || e.ExpireRetries?
  }
  predicate OnOutcome(e: Event) { e.Record? || e.CompleteFuture? }
  predicate OnLink(e: Event) { !InCallAsync(e) && !OnFrames(e) && !Sweeps(e) && !OnOutcome(e) }

  predicate Enabled(s: State, e: Event) {
    match e
    case Prepare(id, _) => id in s.preparing && !s.preparing[id].armed
    case Admit(id) => id in s.preparing && s.preparing[id].armed && !s.preparing[id].admitted
    case Insert(id) => id in s.preparing && s.preparing[id].admitted
    case HandOver(id) => id in s.frames.sending
    case DeadlineFires(id) => id in s.timers
    case Fail(id, code) => code == CANCELLED || code == QUEUEING_TIMEOUT
    case FailAll(code) => code == NETWORK_ERROR || code == PROTOCOL_ERROR || code == CLIENT_STOPPING
    case Record(id) => id in s.taken
    case CompleteFuture(id) => id in s.recorded
    case ReconnectTimerFires => s.link.reconnectTimer
    case _ => true
  }

  /** callAsync() answers the call itself. */
  function Refuse(s: State, id: nat, code: int): State {
    s.(preparing := s.preparing - {id}, taken := s.taken[id := code], timers := s.timers - {id})
  }

  function DoCallAsync(s: State, e: Event): State
    requires InCallAsync(e) && Enabled(s, e)
  {
    match e
    case Begin(options, attempt) =>
      s.(nextId := s.nextId + 1, counters := s.counters.(total := s.counters.total + 1),
         preparing := s.preparing[s.nextId := Fresh(options, if attempt == 0 then 1 else attempt, false, false)])
    case Prepare(id, encodable) =>
      if s.preparing[id].options.timeout <= 0 then Refuse(s, id, TIMEOUT)
      else if !encodable then Refuse(s, id, PROTOCOL_ERROR)
      else s.(preparing := s.preparing[id := s.preparing[id].(armed := true)], timers := s.timers + {id})
    case Admit(id) =>
      var link := s.link;
      var admitted := s.(preparing := s.preparing[id := s.preparing[id].(admitted := true)]);
      if link.stopping then Refuse(s, id, CLIENT_STOPPING)
      else if link.connection == Connected then admitted
      else if s.preparing[id].options.failFast then Refuse(s, id, NETWORK_ERROR)
      else admitted.(link := link.(desired := true, connection :=
                       if link.connection == Disconnected then Connecting else link.connection))
    case Insert(id) =>
      s.(preparing := s.preparing - {id},
         pendingCalls := s.pendingCalls[id := Pending(s.preparing[id].options, WaitingToSend, s.preparing[id].attempt)])
  }

  function DoFrames(s: State, e: Event): State
    requires OnFrames(e) && Enabled(s, e)
  {
    var f := s.frames;
    match e
    case MarkSent(id) =>
      if id !in s.pendingCalls || s.pendingCalls[id].progress.Sent? then s
      else s.(pendingCalls := s.pendingCalls[id := s.pendingCalls[id].(progress := Sent)],
              frames := f.(sending := f.sending + {id}, marked := f.marked + {id}))
    case HandOver(id) => s.(frames := f.(sending := f.sending - {id}, wire := f.wire + [id]))
  }

  /** Which calls an event takes out of the table, and with what outcome. */
  function Swept(table: map<nat, Pending>, e: Event): (ids: set<nat>)
    requires Sweeps(e)
    ensures ids <= table.Keys
  {
    match e
    case FailAll(_) => table.Keys
    case FailSent => FailedOnDisconnect(table)
    case ExpireRetries => ExhaustedCalls(table)
    case _ => {e.id} * table.Keys
  }

  function OutcomeOf(e: Event): int
    requires Sweeps(e)
  {
    match e
    case FailSent => NETWORK_ERROR
    case ExpireRetries => RETRY_EXHAUSTED
    case DeadlineFires(_) => TIMEOUT
    case _ => e.code
  }

  function DoSweep(s: State, e: Event): State
    requires Sweeps(e) && Enabled(s, e)
  {
    var ids := Swept(s.pendingCalls, e);
    s.(pendingCalls := if e.ExpireRetries? then AfterExpiry(s.pendingCalls) else s.pendingCalls - ids,
       taken := s.taken + AllWith(ids, OutcomeOf(e)),
       timers := if e.DeadlineFires? then s.timers - {e.id} else s.timers,
       firedEarly := if e.DeadlineFires? && e.id in s.preparing then s.firedEarly + {e.id} else s.firedEarly)
  }

  function CountOutcome(c: Counters, code: int): Counters {
    if code == OK then c.(success := c.success + 1)
    else if code == TIMEOUT || code == QUEUEING_TIMEOUT then
      c.(failed := c.failed + 1, timedOut := c.timedOut + 1)
    else if code == CANCELLED then c.(failed := c.failed + 1, cancelled := c.cancelled + 1)
    else c.(failed := c.failed + 1)
  }

  /** RpcFuture::complete: only the first call sets the future. */
  function Complete(futures: map<nat, int>, id: nat, code: int): map<nat, int> {
    if id in futures then futures else futures[id := code]
  }

  function DoOutcome(s: State, e: Event): State
    requires OnOutcome(e) && Enabled(s, e)
  {
    match e
    case Record(id) =>
      s.(counters := CountOutcome(s.counters, s.taken[id]), taken := s.taken - {id},
         recorded := s.recorded[id := s.taken[id]], timers := s.timers - {id})
    case CompleteFuture(id) =>
      s.(recorded := s.recorded - {id}, futures := Complete(s.futures, id, s.recorded[id]),
         settings := s.settings + [id])
  }

  function DoLink(link: Link, e: Event): Link
    requires OnLink(e)
  {
    match e
    case ConnectionUp => link.(reconnectDelay := INITIAL_RECONNECT_DELAY)
    case SetConnection(to) => link.(connection := to)
    case SetDesired(desired) => link.(desired := desired)
    case Stop => link.(stopping := true, desired := false, connection := Stopping)
    case ScheduleReconnect =>
      if !link.desired || link.stopping || link.reconnectTimer then link
      else link.(reconnectDelay := NextDelay(link.reconnectDelay), reconnectTimer := true)
    case ReconnectTimerFires => link.(reconnectTimer := false)
    case CancelReconnectTimer => link.(reconnectTimer := false)
  }

  function Do(s: State, e: Event): State
    requires Enabled(s, e)
  {
    if InCallAsync(e) then DoCallAsync(s, e)
    else if OnFrames(e) then DoFrames(s, e)
    else if Sweeps(e) then DoSweep(s, e)
    else if OnOutcome(e) then DoOutcome(s, e)
    else s.(link := DoLink(s.link, e))
  }

  function Init(): State {
    State(Link(Disconnected, false, false, INITIAL_RECONNECT_DELAY, false), 1, map[], map[], map[], map[], map[], [],
          {}, {}, Frames({}, [], {}), Counters(0, 0, 0, 0, 0))
  }

  function Exec(s: State, events: seq<Event>): Outcome<State>
    decreases |events|
  {
    if events == [] then After(s)
    else if !Enabled(s, events[0]) then Stuck
    else Exec(Do(s, events[0]), events[1..])
  }

  // ---------------------------------------------------------------- the invariants

  function One(b: bool): nat { if b then 1 else 0 }

  /** In how many places a call is. */
  function Places(s: State, id: nat): nat {
    One(id in s.preparing) + One(id in s.pendingCalls) + One(id in s.taken) + One(id in s.recorded)
      + One(id in s.futures)
  }

  predicate Issued(s: State, id: nat) { 1 <= id < s.nextId }

  /** Every issued call is in exactly one place, and nothing else is anywhere. */
  ghost predicate Placed(s: State) {
    s.nextId >= 1 && forall id :: Places(s, id) == One(Issued(s, id))
  }

  predicate NoRepeats(ids: seq<nat>) {
    forall i, j :: 0 <= i < j < |ids| ==> ids[i] != ids[j]
  }

  /** Futures are set once each. */
  ghost predicate Settled(s: State) {
    && NoRepeats(s.settings)
    && (forall id :: id in s.settings <==> id in s.futures)
  }

  /** A frame is handed over once; a call in the table is marked exactly when it is no longer waiting. */
  predicate FrameOf(s: State, id: nat) {
    && (id in s.frames.wire ==> id !in s.frames.sending)
    && (id in s.frames.marked <==> id in s.frames.sending || id in s.frames.wire)
    && (id in s.frames.marked ==> Issued(s, id) && id !in s.preparing)
    && (id in s.pendingCalls ==> (s.pendingCalls[id].progress.Sent? <==> id in s.frames.marked))
  }

  ghost predicate Framed(s: State) {
    NoRepeats(s.frames.wire) && forall id :: FrameOf(s, id)
  }

  /** The counters count calls. */
  predicate Conserved(s: State) {
    var c := s.counters;
    && c.total == c.success + c.failed + |s.preparing| + |s.pendingCalls| + |s.taken|
    && c.success + c.failed == |s.recorded| + |s.futures|
    && c.timedOut + c.cancelled <= c.failed
    && c.total == s.nextId - 1
  }

  /** A call in the table has its deadline timer, unless the timer fired before it got there. */
  predicate TimerOf(s: State, id: nat) {
    && (id in s.pendingCalls ==> (id in s.timers <==> id !in s.firedEarly))
    && (id in s.preparing ==> (id in s.timers <==> s.preparing[id].armed && id !in s.firedEarly))
    && (id in s.preparing && s.preparing[id].admitted ==> s.preparing[id].armed)
    && (id in s.firedEarly ==> Issued(s, id) && (id in s.preparing ==> s.preparing[id].armed))
    && (id in s.timers ==> Issued(s, id))
  }

  ghost predicate Guarded(s: State) {
    forall id: nat :: TimerOf(s, id)
  }

  predicate AttemptOf(s: State, id: nat) {
    && (id in s.preparing ==> s.preparing[id].attempt >= 1)
    && (id in s.pendingCalls ==> s.pendingCalls[id].attempt >= 1)
  }

  ghost predicate Attempts(s: State) {
    forall id :: AttemptOf(s, id)
  }

  ghost predicate Inv(s: State) {
    Placed(s) && Settled(s) && Framed(s) && Conserved(s) && Guarded(s) && Attempts(s)
  }

  // ---------------------------------------------------------------- every event keeps them

  /** What one call looks like after a sweep. */
  lemma SweepOf(s: State, e: Event, id: nat)
    requires Sweeps(e) && Enabled(s, e)
    ensures var s' := DoSweep(s, e); var gone := id in Swept(s.pendingCalls, e);
      && (id in s'.pendingCalls <==> id in s.pendingCalls && !gone)
      && (id in s'.taken <==> id in s.taken || gone)
      && (id in s'.pendingCalls ==>
            s'.pendingCalls[id] == s.pendingCalls[id].(attempt := s.pendingCalls[id].attempt +
                                     One(e.ExpireRetries? && Retrying(s.pendingCalls[id]))))
      && (gone ==> s'.taken[id] == OutcomeOf(e))
      && (!gone && id in s.taken ==> s'.taken[id] == s.taken[id])
  {
  }

  lemma SweepKeepsRest(s: State, e: Event)
    requires Sweeps(e) && Enabled(s, e)
    ensures var s' := DoSweep(s, e);
            s' == s.(pendingCalls := s'.pendingCalls, taken := s'.taken, timers := s'.timers, firedEarly := s'.firedEarly)
  {
    hide Swept, AfterExpiry, AllWith;
  }

  lemma SweepKeepsPlace(s: State, e: Event, id: nat)
    requires Placed(s) && Enabled(s, e) && Sweeps(e)
    ensures Places(Do(s, e), id) == One(Issued(Do(s, e), id))
  {
    assert Places(s, id) == One(Issued(s, id));
    SweepOf(s, e, id);
    SweepKeepsRest(s, e);
    hide DoSweep, Placed;
  }

  /** The call callAsync() is working on. */
  function Handled(s: State, e: Event): nat
    requires InCallAsync(e)
  {
    if e.Begin? then s.nextId else e.id
  }

  /** callAsync() keeps the call in preparation, puts it in the table or takes it. */
  predicate MovesHandled(s: State, e: Event, s': State)
    requires InCallAsync(e)
  {
    var id := Handled(s, e);
    && s'.nextId == s.nextId + One(e.Begin?)
    && s'.counters == s.counters.(total := s.counters.total + One(e.Begin?))
    && (s'.recorded, s'.futures, s'.settings, s'.frames, s'.firedEarly)
         == (s.recorded, s.futures, s.settings, s.frames, s.firedEarly)
    && (if id in s'.preparing then
          (s'.preparing, s'.pendingCalls, s'.taken) == (s.preparing[id := s'.preparing[id]], s.pendingCalls, s.taken)
        else if e.Insert? then
          id in s'.pendingCalls && (s'.preparing, s'.pendingCalls, s'.taken)
            == (s.preparing - {id}, s.pendingCalls[id := s'.pendingCalls[id]], s.taken)
        else
          id in s'.taken && (s'.preparing, s'.pendingCalls, s'.taken)
            == (s.preparing - {id}, s.pendingCalls, s.taken[id := s'.taken[id]]))
  }

  lemma PreparingMoves(s: State, e: Event)
    requires Enabled(s, e) && e.Prepare?
    ensures MovesHandled(s, e, DoCallAsync(s, e))
  {
  }

  lemma AdmittingMoves(s: State, e: Event)
    requires Enabled(s, e) && e.Admit?
    ensures MovesHandled(s, e, DoCallAsync(s, e))
  {
    assert s.preparing[e.id := s.preparing[e.id].(admitted := true)].Keys == s.preparing.Keys;
  }

  lemma CallAsyncMoves(s: State, e: Event)
    requires InCallAsync(e) && Enabled(s, e)
    ensures MovesHandled(s, e, DoCallAsync(s, e))
  {
    if e.Prepare? {
      PreparingMoves(s, e);
      hide DoCallAsync;
    } else if e.Admit? {
      AdmittingMoves(s, e);
      hide DoCallAsync;
    }
  }

  lemma CallAsyncKeepsPlace(s: State, e: Event, id: nat)
    requires Placed(s) && Enabled(s, e) && InCallAsync(e)
    ensures Places(Do(s, e), id) == One(Issued(Do(s, e), id))
  {
    assert Places(s, id) == One(Issued(s, id));
    CallAsyncMoves(s, e);
    hide Placed, DoCallAsync;
  }

  lemma RestKeepsPlace(s: State, e: Event, id: nat)
    requires Placed(s) && Enabled(s, e) && !Sweeps(e) && !InCallAsync(e)
    ensures Places(Do(s, e), id) == One(Issued(Do(s, e), id))
  {
    assert Places(s, id) == One(Issued(s, id));
    hide Placed, DoLink, CountOutcome;
  }

  lemma EventKeepsPlace(s: State, e: Event, id: nat)
    requires Placed(s) && Enabled(s, e)
    ensures Places(Do(s, e), id) == One(Issued(Do(s, e), id))
  {
    if Sweeps(e) {
      SweepKeepsPlace(s, e, id);
    } else if InCallAsync(e) {
      CallAsyncKeepsPlace(s, e, id);
    } else {
      RestKeepsPlace(s, e, id);
    }
    hide Do, Places, Issued;
  }

  lemma EventKeepsPlaced(s: State, e: Event)
    requires Placed(s) && Enabled(s, e)
    ensures Placed(Do(s, e))
  {
    assert Do(s, e).nextId >= s.nextId by {
      if Sweeps(e) {
        SweepKeepsRest(s, e);
      }
      hide DoSweep, DoLink, CountOutcome;
    }
    hide Do, Places, Issued;
    forall id ensures Places(Do(s, e), id) == One(Issued(Do(s, e), id)) {
      EventKeepsPlace(s, e, id);
    }
  }

  lemma EventKeepsSettled(s: State, e: Event)
    requires Placed(s) && Settled(s) && Enabled(s, e)
    ensures Settled(Do(s, e))
  {
    hide DoCallAsync, DoFrames, DoLink, CountOutcome, AfterExpiry, AllWith, Swept;
    if e.CompleteFuture? {
      assert Places(s, e.id) == One(Issued(s, e.id));
      assert e.id !in s.settings;
      hide Placed;
    } else {
      SettlesNothing(s, e);
      hide Do;
    }
  }

  lemma SettlesNothing(s: State, e: Event)
    requires Enabled(s, e) && !e.CompleteFuture?
    ensures Do(s, e).futures == s.futures && Do(s, e).settings == s.settings
  {
    if InCallAsync(e) {
      CallAsyncMoves(s, e);
    } else if Sweeps(e) {
      SweepKeepsRest(s, e);
    }
    hide DoLink, CountOutcome, DoCallAsync, DoSweep;
  }

  lemma EventKeepsFrame(s: State, e: Event, id: nat)
    requires Placed(s) && FrameOf(s, id) && Enabled(s, e)
    ensures FrameOf(Do(s, e), id)
  {
    assert Places(s, id) == One(Issued(s, id));
    hide Placed, DoLink, CountOutcome;
    if Sweeps(e) {
      SweepOf(s, e, id);
      SweepKeepsRest(s, e);
      SweepIsDo(s, e);
      hide DoSweep, Do;
    } else if InCallAsync(e) {
      assert Places(s, Handled(s, e)) == One(Issued(s, Handled(s, e)));
      CallAsyncKeepsFrame(s, e, id);
      hide DoCallAsync, Do;
    } else {
      hide DoSweep, DoCallAsync;
    }
  }

  lemma CallAsyncKeepsFrame(s: State, e: Event, id: nat)
    requires Placed(s) && FrameOf(s, id) && Enabled(s, e) && InCallAsync(e)
    ensures FrameOf(Do(s, e), id)
  {
    assert Places(s, id) == One(Issued(s, id));
    hide Placed;
  }

  lemma EventKeepsFramed(s: State, e: Event)
    requires Placed(s) && Framed(s) && Enabled(s, e)
    ensures Framed(Do(s, e))
  {
    forall id ensures FrameOf(Do(s, e), id) {
      EventKeepsFrame(s, e, id);
    }
    if e.HandOver? {
      assert FrameOf(s, e.id);
    } else {
      hide Swept, AfterExpiry, AllWith, DoLink, CountOutcome;
    }
    hide FrameOf;
  }

  // Sizes of the tables a call moves between.

  lemma Removes<T>(m: map<nat, T>, id: nat)
    requires id in m
    ensures |m - {id}| == |m| - 1
  {
    assert (m - {id}).Keys == m.Keys - {id};
  }

  lemma Adds<T>(m: map<nat, T>, id: nat, v: T)
    ensures |m[id := v]| == |m| + One(id !in m)
  {
    assert m[id := v].Keys == m.Keys + {id};
  }

  lemma CountsMove(p: map<nat, Pending>, t: map<nat, int>, p': map<nat, Pending>, t': map<nat, int>, ids: set<nat>)
    requires ids <= p.Keys && ids !! t.Keys && p'.Keys == p.Keys - ids && t'.Keys == t.Keys + ids
    ensures |p'| + |t'| == |p| + |t|
  {
    assert p.Keys == p'.Keys + ids;
  }

  /** What is swept was not taken before. */
  lemma SweptIsNew(s: State, e: Event)
    requires Placed(s) && Enabled(s, e) && Sweeps(e)
    ensures Swept(s.pendingCalls, e) !! s.taken.Keys
  {
    forall id | id in s.pendingCalls ensures id !in s.taken {
      assert Places(s, id) == One(Issued(s, id));
    }
    hide Placed;
  }

  lemma SweepKeys(s: State, e: Event)
    requires Enabled(s, e) && Sweeps(e)
    ensures DoSweep(s, e).pendingCalls.Keys == s.pendingCalls.Keys - Swept(s.pendingCalls, e)
    ensures DoSweep(s, e).taken.Keys == s.taken.Keys + Swept(s.pendingCalls, e)
  {
    hide DoSweep, Swept;
    forall id
      ensures id in DoSweep(s, e).pendingCalls <==> id in s.pendingCalls.Keys - Swept(s.pendingCalls, e)
      ensures id in DoSweep(s, e).taken <==> id in s.taken.Keys + Swept(s.pendingCalls, e)
    {
      SweepOf(s, e, id);
    }
  }

  lemma SweepMoves(s: State, e: Event)
    requires Placed(s) && Enabled(s, e) && Sweeps(e)
    ensures |Do(s, e).pendingCalls| + |Do(s, e).taken| == |s.pendingCalls| + |s.taken|
  {
    SweptIsNew(s, e);
    SweepKeys(s, e);
    SweepIsDo(s, e);
    hide Placed, Swept, DoSweep, Do;
    CountsMove(s.pendingCalls, s.taken, DoSweep(s, e).pendingCalls, DoSweep(s, e).taken, Swept(s.pendingCalls, e));
  }

  lemma SweepIsDo(s: State, e: Event)
    requires Enabled(s, e) && Sweeps(e)
    ensures Do(s, e) == DoSweep(s, e)
  {
    hide DoSweep;
  }

  lemma SweepsConserve(s: State, e: Event)
    requires Placed(s) && Conserved(s) && Enabled(s, e) && Sweeps(e)
    ensures Conserved(Do(s, e))
  {
    SweepMoves(s, e);
    SweepKeepsRest(s, e);
    SweepIsDo(s, e);
    hide Do, DoSweep, Placed;
  }

  lemma PreparationConserves(s: State, e: Event)
    requires Placed(s) && Conserved(s) && Enabled(s, e) && InCallAsync(e)
    requires Handled(s, e) in DoCallAsync(s, e).preparing
    ensures Conserved(Do(s, e))
  {
    var id, s' := Handled(s, e), DoCallAsync(s, e);
    assert Places(s, id) == One(Issued(s, id));
    CallAsyncMoves(s, e);
    hide Placed, DoCallAsync;
    Adds(s.preparing, id, s'.preparing[id]);
  }

  lemma LeavingConserves(s: State, e: Event)
    requires Placed(s) && Conserved(s) && Enabled(s, e) && InCallAsync(e)
    requires Handled(s, e) !in DoCallAsync(s, e).preparing
    ensures Conserved(Do(s, e))
  {
    var id, s' := Handled(s, e), DoCallAsync(s, e);
    assert Places(s, id) == One(Issued(s, id));
    CallAsyncMoves(s, e);
    assert !e.Begin?;
    hide Placed, DoCallAsync;
    Removes(s.preparing, id);
    if e.Insert? {
      Adds(s.pendingCalls, id, s'.pendingCalls[id]);
    } else {
      Adds(s.taken, id, s'.taken[id]);
    }
  }

  lemma RecordingConserves(s: State, e: Event)
    requires Placed(s) && Conserved(s) && Enabled(s, e) && e.Record?
    ensures Conserved(Do(s, e))
  {
    assert Places(s, e.id) == One(Issued(s, e.id));
    Removes(s.taken, e.id);
    Adds(s.recorded, e.id, s.taken[e.id]);
    hide Placed, DoLink, DoSweep, DoCallAsync, DoFrames;
  }

  lemma CompletingConserves(s: State, e: Event)
    requires Placed(s) && Conserved(s) && Enabled(s, e) && e.CompleteFuture?
    ensures Conserved(Do(s, e))
  {
    assert Places(s, e.id) == One(Issued(s, e.id));
    Removes(s.recorded, e.id);
    Adds(s.futures, e.id, s.recorded[e.id]);
    hide Placed, DoLink, DoSweep, DoCallAsync, DoFrames;
  }

  lemma RestConserves(s: State, e: Event)
    requires Conserved(s) && Enabled(s, e) && !InCallAsync(e) && !Sweeps(e) && !OnOutcome(e)
    ensures Conserved(Do(s, e))
  {
    if e.MarkSent? && e.id in s.pendingCalls {
      Adds(s.pendingCalls, e.id, s.pendingCalls[e.id].(progress := Sent));
    }
    hide DoLink, DoSweep, DoCallAsync, DoOutcome;
  }

  lemma EventConserves(s: State, e: Event)
    requires Placed(s) && Conserved(s) && Enabled(s, e)
    ensures Conserved(Do(s, e))
  {
    if InCallAsync(e) {
      if Handled(s, e) in DoCallAsync(s, e).preparing {
        PreparationConserves(s, e);
      } else {
        LeavingConserves(s, e);
      }
      hide Do, DoCallAsync;
    } else if Sweeps(e) {
      SweepsConserve(s, e);
    } else if e.Record? {
      RecordingConserves(s, e);
    } else if e.CompleteFuture? {
      CompletingConserves(s, e);
    } else {
      RestConserves(s, e);
    }
  }

  lemma SweepKeepsTimer(s: State, e: Event, id: nat)
    requires Placed(s) && TimerOf(s, id) && Enabled(s, e) && Sweeps(e)
    ensures TimerOf(Do(s, e), id)
  {
    assert Places(s, id) == One(Issued(s, id));
    SweepOf(s, e, id);
    hide Placed, AfterExpiry, AllWith;
  }

  lemma PreparingKeepsTimer(s: State, e: Event, id: nat)
    requires Placed(s) && TimerOf(s, id) && Enabled(s, e) && e.Prepare?
    ensures TimerOf(Do(s, e), id)
  {
    assert Places(s, id) == One(Issued(s, id));
    hide Placed, DoSweep, DoFrames, DoOutcome;
  }

  lemma AdmittingKeepsTimer(s: State, e: Event, id: nat)
    requires Placed(s) && TimerOf(s, id) && Enabled(s, e) && e.Admit?
    ensures TimerOf(Do(s, e), id)
  {
    assert Places(s, id) == One(Issued(s, id));
    hide Placed, DoSweep, DoFrames, DoOutcome;
  }

  lemma CallAsyncKeepsTimer(s: State, e: Event, id: nat)
    requires Placed(s) && TimerOf(s, id) && Enabled(s, e) && InCallAsync(e)
    ensures TimerOf(Do(s, e), id)
  {
    if e.Prepare? {
      PreparingKeepsTimer(s, e, id);
      hide Do;
    } else if e.Admit? {
      AdmittingKeepsTimer(s, e, id);
      hide Do;
    } else {
      assert Places(s, id) == One(Issued(s, id));
      hide Placed, DoSweep, DoFrames, DoOutcome;
    }
  }

  lemma EventKeepsTimer(s: State, e: Event, id: nat)
    requires Placed(s) && TimerOf(s, id) && Enabled(s, e)
    ensures TimerOf(Do(s, e), id)
  {
    if Sweeps(e) {
      SweepKeepsTimer(s, e, id);
      hide Do;
    } else if InCallAsync(e) {
      CallAsyncKeepsTimer(s, e, id);
      hide Do;
    } else {
      assert Places(s, id) == One(Issued(s, id));
      hide Placed, DoLink, CountOutcome, DoSweep;
    }
  }

  lemma EventKeepsAttempt(s: State, e: Event, id: nat)
    requires AttemptOf(s, id) && Enabled(s, e)
    ensures AttemptOf(Do(s, e), id)
  {
    hide DoLink, CountOutcome;
    if Sweeps(e) {
      SweepOf(s, e, id);
      hide AfterExpiry, AllWith;
    } else {
      hide DoSweep;
    }
  }

  lemma EventKeepsCalls(s: State, e: Event)
    requires Placed(s) && Guarded(s) && Attempts(s) && Enabled(s, e)
    ensures Guarded(Do(s, e)) && Attempts(Do(s, e))
  {
    forall id: nat ensures TimerOf(Do(s, e), id) && AttemptOf(Do(s, e), id) {
      assert TimerOf(s, id) && AttemptOf(s, id);
      EventKeepsTimer(s, e, id);
      EventKeepsAttempt(s, e, id);
    }
    hide Do, TimerOf, AttemptOf;
  }

  lemma EventKeepsInv(s: State, e: Event)
    requires Inv(s) && Enabled(s, e)
    ensures Inv(Do(s, e))
  {
    EventKeepsPlaced(s, e);
    EventKeepsSettled(s, e);
    EventKeepsFramed(s, e);
    EventConserves(s, e);
    EventKeepsCalls(s, e);
    hide Placed, Settled, Framed, Conserved, Guarded, Attempts, Do;
  }

  lemma {:induction false} RunKeepsInv(s: State, events: seq<Event>)
    requires Inv(s)
    ensures Exec(s, events).After? ==> Inv(Exec(s, events).state)
    decreases |events|
  {
    hide Inv, Do;
    if events != [] && Enabled(s, events[0]) {
      EventKeepsInv(s, events[0]);
      RunKeepsInv(Do(s, events[0]), events[1..]);
    }
  }

  lemma InitHasInv()
    ensures Inv(Init())
  {
  }

  // ---------------------------------------------------------------- what users rely on

  /** Main result: in every run every issued call is in exactly one place, so it leaves the table at
      most once; its future is set at most once, and completing a call never finds the future set. */
  lemma EveryCallIsInOnePlace(events: seq<Event>, id: nat)
    requires Exec(Init(), events).After?
    ensures var s := Exec(Init(), events).state;
      && Places(s, id) == One(1 <= id < s.nextId)
      && NoRepeats(s.settings)
      && (id in s.settings <==> id in s.futures)
      && (id in s.recorded ==> id !in s.futures)
  {
    InitHasInv();
    RunKeepsInv(Init(), events);
    var s := Exec(Init(), events).state;
    assert Places(s, id) == One(Issued(s, id));
    hide Exec, Conserved, Framed, Guarded;
  }

  /** Main result: the metrics add up in every run. */
  lemma CountersConserve(events: seq<Event>)
    requires Exec(Init(), events).After?
    ensures var s := Exec(Init(), events).state; var c := s.counters;
      && c.total == c.success + c.failed + |s.preparing| + |s.pendingCalls| + |s.taken|
      && c.success + c.failed == |s.recorded| + |s.futures|
      && c.timedOut + c.cancelled <= c.failed
  {
    InitHasInv();
    RunKeepsInv(Init(), events);
    hide Exec, Placed, Settled, Framed, Guarded, Attempts;
  }

  /** Main result: a frame is handed to the connection at most once, and never for a call still
      waiting to be sent; what a reconnect sends was never sent before. */
  lemma FramesAreSentOnce(events: seq<Event>, id: nat)
    requires Exec(Init(), events).After?
    ensures var s := Exec(Init(), events).state;
      && NoRepeats(s.frames.wire)
      && (id in s.pendingCalls && s.pendingCalls[id].progress.WaitingToSend? ==>
            id !in s.frames.wire && id !in s.frames.sending)
      && (id in s.frames.wire ==> id !in s.preparing)
  {
    InitHasInv();
    RunKeepsInv(Init(), events);
    var s := Exec(Init(), events).state;
    assert FrameOf(s, id);
    hide Exec, Placed, Settled, Conserved, Guarded, Attempts;
  }

  /** The call is out of the table with this outcome. */
  predicate Decided(s: State, id: nat, code: int) {
    || (id in s.taken && s.taken[id] == code)
    || (id in s.recorded && s.recorded[id] == code)
    || (id in s.futures && s.futures[id] == code)
  }

  lemma SweepKeepsDecided(s: State, e: Event, id: nat, code: int)
    requires Inv(s) && Enabled(s, e) && Decided(s, id, code) && Sweeps(e)
    ensures Decided(Do(s, e), id, code)
  {
    assert Places(s, id) == One(Issued(s, id));
    SweepOf(s, e, id);
    SweepKeepsRest(s, e);
    SweepIsDo(s, e);
    hide Inv, DoSweep, Do;
  }

  lemma CallAsyncKeepsDecided(s: State, e: Event, id: nat, code: int)
    requires Inv(s) && Enabled(s, e) && Decided(s, id, code) && InCallAsync(e)
    ensures Decided(Do(s, e), id, code)
  {
    assert Places(s, id) == One(Issued(s, id));
    assert Places(s, Handled(s, e)) == One(Issued(s, Handled(s, e)));
    CallAsyncMoves(s, e);
    hide Inv, DoCallAsync;
  }

  lemma EventKeepsDecided(s: State, e: Event, id: nat, code: int)
    requires Inv(s) && Enabled(s, e) && Decided(s, id, code)
    ensures Decided(Do(s, e), id, code)
  {
    if Sweeps(e) {
      SweepKeepsDecided(s, e, id, code);
      hide Do, Inv;
    } else if InCallAsync(e) {
      CallAsyncKeepsDecided(s, e, id, code);
      hide Do, Inv;
    } else {
      assert Places(s, id) == One(Issued(s, id));
      hide Inv, DoCallAsync, DoSweep, CountOutcome, DoLink;
    }
  }

  /** Main result: the first to take a call decides its outcome for good. Whatever responses, deadlines,
      cancels and disconnects follow, the future can only ever get that outcome. */
  lemma {:induction false} FirstTakerDecides(s: State, events: seq<Event>, id: nat, code: int)
    requires Inv(s) && Decided(s, id, code) && Exec(s, events).After?
    ensures var s' := Exec(s, events).state;
            Decided(s', id, code) && (id in s'.futures ==> s'.futures[id] == code)
    decreases |events|
  {
    if events != [] {
      EventKeepsInv(s, events[0]);
      EventKeepsDecided(s, events[0], id, code);
      hide Inv, Do, Decided;
      FirstTakerDecides(Do(s, events[0]), events[1..], id, code);
    } else {
      assert Places(s, id) == One(Issued(s, id));
    }
  }

  /** Main result: whoever takes a call from the table of a reachable state decides its future: in
      every continuation, whatever comes later, the future can only get this outcome, and the call is
      never in the table again. */
  lemma TakerDecidesFuture(before: seq<Event>, e: Event, later: seq<Event>)
    requires Exec(Init(), before).After? && Enabled(Exec(Init(), before).state, e)
    requires e.Response? || e.Fail? || e.DeadlineFires?
    requires e.id in Exec(Init(), before).state.pendingCalls
    requires Exec(Do(Exec(Init(), before).state, e), later).After?
    ensures var s' := Exec(Do(Exec(Init(), before).state, e), later).state;
            e.id !in s'.pendingCalls && (e.id in s'.futures ==> s'.futures[e.id] == OutcomeOf(e))
  {
    InitHasInv();
    RunKeepsInv(Init(), before);
    var s := Exec(Init(), before).state;
    EventKeepsInv(s, e);
    TakerDecides(s, e);
    FirstTakerDecides(Do(s, e), later, e.id, OutcomeOf(e));
    RunKeepsInv(Do(s, e), later);
    DecidedIsGone(Exec(Do(s, e), later).state, e.id, OutcomeOf(e));
    hide Exec, Inv, Do, Decided;
  }

  lemma TakerDecides(s: State, e: Event)
    requires Enabled(s, e) && (e.Response? || e.Fail? || e.DeadlineFires?) && e.id in s.pendingCalls
    ensures Decided(Do(s, e), e.id, OutcomeOf(e))
  {
    SweepOf(s, e, e.id);
    SweepIsDo(s, e);
    assert e.id in Swept(s.pendingCalls, e);
    hide Do, DoSweep, Swept;
  }

  lemma DecidedIsGone(s: State, id: nat, code: int)
    requires Inv(s) && Decided(s, id, code)
    ensures Issued(s, id) && id !in s.preparing && id !in s.pendingCalls
  {
    assert Places(s, id) == One(Issued(s, id));
    hide Inv;
  }

  // ---------------------------------------------------------------- refused calls

  /** The call is out of the table, with this outcome, and its frame was never marked as sent. */
  predicate UnsentAndDecided(s: State, id: nat, code: int) {
    Decided(s, id, code) && id !in s.frames.marked
  }

  lemma EventKeepsUnsent(s: State, e: Event, id: nat, code: int)
    requires Inv(s) && Enabled(s, e) && UnsentAndDecided(s, id, code)
    ensures UnsentAndDecided(Do(s, e), id, code)
  {
    EventKeepsDecided(s, e, id, code);
    DecidedIsGone(s, id, code);
    MarksOnlyPending(s, e, id);
    hide Inv, Do, Decided;
  }

  lemma MarksOnlyPending(s: State, e: Event, id: nat)
    requires Enabled(s, e) && id !in s.pendingCalls && id !in s.frames.marked
    ensures id !in Do(s, e).frames.marked
  {
    if InCallAsync(e) {
      CallAsyncMoves(s, e);
    } else if Sweeps(e) {
      SweepKeepsRest(s, e);
    }
    hide DoCallAsync, DoSweep, DoLink, CountOutcome;
  }

  lemma {:induction false} NeverSentLater(s: State, events: seq<Event>, id: nat, code: int)
    requires Inv(s) && UnsentAndDecided(s, id, code) && Exec(s, events).After?
    ensures var s' := Exec(s, events).state; Inv(s') && UnsentAndDecided(s', id, code)
    decreases |events|
  {
    if events != [] {
      EventKeepsInv(s, events[0]);
      EventKeepsUnsent(s, events[0], id, code);
      hide Inv, Do, UnsentAndDecided;
      NeverSentLater(Do(s, events[0]), events[1..], id, code);
    }
  }

  /** What admission looks at. */
  predicate Refused(s: State, id: nat)
    requires id in s.preparing
  {
    s.link.stopping || (s.preparing[id].options.failFast && s.link.connection != Connected)
  }

  /** Main result: a call that admission refuses is never in the table and its frame never leaves, in
      any continuation, and its future can only tell the refusal. */
  lemma RefusedNeverEnters(before: seq<Event>, id: nat, later: seq<Event>)
    requires Exec(Init(), before).After? && Enabled(Exec(Init(), before).state, Admit(id))
    requires Refused(Exec(Init(), before).state, id)
    requires Exec(Do(Exec(Init(), before).state, Admit(id)), later).After?
    ensures var s := Exec(Init(), before).state; var s' := Exec(Do(s, Admit(id)), later).state;
      && id !in s'.pendingCalls && id !in s'.frames.wire && id !in s'.frames.sending
      && (id in s'.futures ==> s'.futures[id] == if s.link.stopping then CLIENT_STOPPING else NETWORK_ERROR)
  {
    InitHasInv();
    RunKeepsInv(Init(), before);
    var s := Exec(Init(), before).state;
    var code := if s.link.stopping then CLIENT_STOPPING else NETWORK_ERROR;
    assert FrameOf(s, id);
    EventKeepsInv(s, Admit(id));
    assert UnsentAndDecided(Do(s, Admit(id)), id, code) by { hide Inv, DoSweep; }
    NeverSentLater(Do(s, Admit(id)), later, id, code);
    var s' := Exec(Do(s, Admit(id)), later).state;
    assert FrameOf(s', id) && Places(s', id) == One(Issued(s', id));
    hide Exec, Inv, Do, Refused;
  }

  /** ... and one that it does not refuse can be: the condition is exact. */
  lemma AdmittedCanEnter(s: State, id: nat)
    requires Enabled(s, Admit(id)) && !Refused(s, id)
    ensures var s' := Do(s, Admit(id));
            Exec(s', [Insert(id)]).After? && id in Exec(s', [Insert(id)]).state.pendingCalls
  {
    var s' := Do(s, Admit(id));
    assert Enabled(s', Insert(id));
    ExecStep(s', [Insert(id)]);
    ExecNothing(Do(s', Insert(id)));
  }

  // ---------------------------------------------------------------- what the counters count

  /** The calls that ended, recorded or with their future set, with one of these outcomes. */
  function Ended(recorded: map<nat, int>, futures: map<nat, int>, codes: set<int>): set<nat> {
    set id | id in recorded.Keys + futures.Keys && (if id in recorded then recorded[id] else futures[id]) in codes
  }

  const TIMEOUTS: set<int> := {TIMEOUT, QUEUEING_TIMEOUT}

  predicate Tallied(s: State) {
    && s.counters.success == |Ended(s.recorded, s.futures, {OK})|
    && s.counters.timedOut == |Ended(s.recorded, s.futures, TIMEOUTS)|
    && s.counters.cancelled == |Ended(s.recorded, s.futures, {CANCELLED})|
  }

  lemma RecordingEnds(recorded: map<nat, int>, futures: map<nat, int>, id: nat, code: int, codes: set<int>)
    requires id !in recorded && id !in futures
    ensures |Ended(recorded[id := code], futures, codes)| == |Ended(recorded, futures, codes)| + One(code in codes)
  {
    var before := Ended(recorded, futures, codes);
    assert Ended(recorded[id := code], futures, codes) == if code in codes then before + {id} else before;
  }

  lemma CompletingEndsNothing(recorded: map<nat, int>, futures: map<nat, int>, id: nat, codes: set<int>)
    requires id in recorded && id !in futures
    ensures Ended(recorded - {id}, futures[id := recorded[id]], codes) == Ended(recorded, futures, codes)
  {
  }

  lemma EndsNothing(s: State, e: Event)
    requires Enabled(s, e) && !OnOutcome(e)
    ensures Do(s, e).recorded == s.recorded && Do(s, e).futures == s.futures
    ensures Do(s, e).counters == s.counters.(total := Do(s, e).counters.total)
  {
    if InCallAsync(e) {
      CallAsyncMoves(s, e);
    } else if Sweeps(e) {
      SweepKeepsRest(s, e);
    }
    hide DoLink, DoCallAsync, DoSweep;
  }

  lemma EventTallies(s: State, e: Event)
    requires Placed(s) && Tallied(s) && Enabled(s, e)
    ensures Tallied(Do(s, e))
  {
    if e.Record? {
      assert Places(s, e.id) == One(Issued(s, e.id));
      RecordingEnds(s.recorded, s.futures, e.id, s.taken[e.id], {OK});
      RecordingEnds(s.recorded, s.futures, e.id, s.taken[e.id], TIMEOUTS);
      RecordingEnds(s.recorded, s.futures, e.id, s.taken[e.id], {CANCELLED});
      hide Ended, Placed, DoSweep, DoCallAsync, DoLink, DoFrames;
    } else if e.CompleteFuture? {
      assert Places(s, e.id) == One(Issued(s, e.id));
      CompletingEndsNothing(s.recorded, s.futures, e.id, {OK});
      CompletingEndsNothing(s.recorded, s.futures, e.id, TIMEOUTS);
      CompletingEndsNothing(s.recorded, s.futures, e.id, {CANCELLED});
      hide Ended, Placed, DoSweep, DoCallAsync, DoLink, DoFrames;
    } else {
      EndsNothing(s, e);
      hide Do, Ended, Placed;
    }
  }

  lemma {:induction false} RunTallies(s: State, events: seq<Event>)
    requires Inv(s) && Tallied(s) && Exec(s, events).After?
    ensures Tallied(Exec(s, events).state)
    decreases |events|
  {
    if events != [] {
      EventKeepsInv(s, events[0]);
      EventTallies(s, events[0]);
      hide Inv, Do, Tallied;
      RunTallies(Do(s, events[0]), events[1..]);
    }
  }

  /** Main result: in every run the success, timeout and cancelled counters are exactly the numbers of
      ended calls with those outcomes. */
  lemma CountersMeanOutcomes(events: seq<Event>)
    requires Exec(Init(), events).After?
    ensures Tallied(Exec(Init(), events).state)
  {
    InitHasInv();
    assert Ended(map[], map[], {OK}) == Ended(map[], map[], TIMEOUTS) == Ended(map[], map[], {CANCELLED}) == {};
    RunTallies(Init(), events);
  }

  // ---------------------------------------------------------------- retries

  function Expiries(events: seq<Event>): nat
    decreases |events|
  {
    if events == [] then 0 else One(events[0].ExpireRetries?) + Expiries(events[1..])
  }

  predicate WaitingRetry(s: State, id: nat) {
    id in s.pendingCalls && Retrying(s.pendingCalls[id])
  }

  /** A call that waits after an event either waited before it, with the same options, or was just
      inserted. */
  lemma WaitedBefore(s: State, e: Event, id: nat)
    requires Inv(s) && Enabled(s, e) && WaitingRetry(Do(s, e), id) && Issued(s, id) && id !in s.preparing
    ensures WaitingRetry(s, id) && Do(s, e).pendingCalls[id].options == s.pendingCalls[id].options
    ensures Do(s, e).pendingCalls[id].attempt == s.pendingCalls[id].attempt + One(e.ExpireRetries?)
    ensures e.ExpireRetries? ==> s.pendingCalls[id].attempt - 1 < s.pendingCalls[id].options.maxRetries
    ensures Issued(Do(s, e), id) && id !in Do(s, e).preparing
  {
    StaysOut(s, e, id);
    if Sweeps(e) {
      assert AttemptOf(s, id);
      SweptWaited(s, e, id);
      hide Inv, Do;
    } else if InCallAsync(e) {
      HandledWaited(s, e, id);
      hide Inv, Do;
    } else {
      RestWaited(s, e, id);
      hide Inv, Do;
    }
  }

  lemma HandledWaited(s: State, e: Event, id: nat)
    requires Enabled(s, e) && InCallAsync(e) && id !in s.preparing && Issued(s, id)
    ensures id in Do(s, e).pendingCalls ==> id in s.pendingCalls && Do(s, e).pendingCalls[id] == s.pendingCalls[id]
  {
    CallAsyncMoves(s, e);
    hide DoCallAsync;
  }

  lemma RestWaited(s: State, e: Event, id: nat)
    requires Enabled(s, e) && !InCallAsync(e) && !Sweeps(e) && WaitingRetry(Do(s, e), id)
    ensures id in s.pendingCalls && Do(s, e).pendingCalls[id] == s.pendingCalls[id]
  {
    hide DoLink, CountOutcome, DoCallAsync, DoSweep;
  }

  lemma SweptWaited(s: State, e: Event, id: nat)
    requires AttemptOf(s, id) && Enabled(s, e) && Sweeps(e) && WaitingRetry(Do(s, e), id)
    ensures WaitingRetry(s, id) && Do(s, e).pendingCalls[id].options == s.pendingCalls[id].options
    ensures Do(s, e).pendingCalls[id].attempt == s.pendingCalls[id].attempt + One(e.ExpireRetries?)
    ensures e.ExpireRetries? ==> s.pendingCalls[id].attempt - 1 < s.pendingCalls[id].options.maxRetries
  {
    SweepOf(s, e, id);
    SweepIsDo(s, e);
    hide DoSweep, Do;
    assert e.ExpireRetries? ==> id !in ExhaustedCalls(s.pendingCalls);
  }

  lemma StaysOut(s: State, e: Event, id: nat)
    requires Enabled(s, e) && Issued(s, id) && id !in s.preparing
    ensures Issued(Do(s, e), id) && id !in Do(s, e).preparing
    ensures id !in s.pendingCalls ==> id !in Do(s, e).pendingCalls
  {
    if Sweeps(e) {
      SweepOf(s, e, id);
      SweepKeepsRest(s, e);
      hide DoSweep;
    }
    hide DoLink, CountOutcome;
  }

  /** Main result: a waiting call with retries survives at most as many connection errors as it has
      retries left; one that started at attempt 1 survives at most max_retries of them. */
  lemma {:induction false} RetriesAreBounded(s: State, events: seq<Event>, id: nat)
    requires Inv(s) && WaitingRetry(s, id)
    requires Exec(s, events).After? && WaitingRetry(Exec(s, events).state, id)
    ensures var left := s.pendingCalls[id].options.maxRetries - (s.pendingCalls[id].attempt - 1);
            Expiries(events) <= (if left > 0 then left else 0)
    decreases |events|
  {
    assert Places(s, id) == One(Issued(s, id));
    assert AttemptOf(s, id);
    if events != [] {
      var next := Do(s, events[0]);
      EventKeepsInv(s, events[0]);
      StaysOut(s, events[0], id);
      if WaitingRetry(next, id) {
        WaitedBefore(s, events[0], id);
        hide Inv, Do, Exec;
        assert Exec(s, events) == Exec(next, events[1..]) by { ExecStep(s, events); }
        RetriesAreBounded(next, events[1..], id);
      } else {
        StopsWaiting(next, events[1..], id);
      }
    }
  }

  lemma ExecStep(s: State, events: seq<Event>)
    requires events != [] && Enabled(s, events[0])
    ensures Exec(s, events) == Exec(Do(s, events[0]), events[1..])
  {
  }

  /** Once a call is not waiting for a retry any more, it never is again. */
  lemma {:induction false} StopsWaiting(s: State, events: seq<Event>, id: nat)
    requires Inv(s) && Issued(s, id) && id !in s.preparing && !WaitingRetry(s, id)
    requires Exec(s, events).After?
    ensures !WaitingRetry(Exec(s, events).state, id)
    decreases |events|
  {
    if events != [] {
      var next := Do(s, events[0]);
      EventKeepsInv(s, events[0]);
      StaysOut(s, events[0], id);
      if WaitingRetry(next, id) {
        WaitedBefore(s, events[0], id);
      }
      hide Inv, Do;
      StopsWaiting(next, events[1..], id);
    }
  }

  // ---------------------------------------------------------------- the reconnect delay

  /** 100 ms doubled n times, at most 3000 ms. */
  function Power(n: nat): nat { if n == 0 then 1 else 2 * Power(n - 1) }

  function Backoff(n: nat): nat {
    if INITIAL_RECONNECT_DELAY * Power(n) < MAX_RECONNECT_DELAY then INITIAL_RECONNECT_DELAY * Power(n)
    else MAX_RECONNECT_DELAY
  }

  /** Reconnects scheduled since the connection was last up. */
  function Schedulings(s: State, events: seq<Event>, sofar: nat): nat
    decreases |events|
  {
    if events == [] || !Enabled(s, events[0]) then sofar
    else
      var e := events[0];
      Schedulings(Do(s, e), events[1..],
        if e.ConnectionUp? then 0
        else if e.ScheduleReconnect? && s.link.desired && !s.link.stopping && !s.link.reconnectTimer then sofar + 1
        else sofar)
  }

  lemma NextBackoff(n: nat)
    ensures NextDelay(Backoff(n)) == Backoff(n + 1)
  {
  }

  lemma DelayChanges(s: State, e: Event)
    requires Enabled(s, e)
    ensures Do(s, e).link.reconnectDelay ==
            if e.ConnectionUp? then INITIAL_RECONNECT_DELAY
            else if e.ScheduleReconnect? && s.link.desired && !s.link.stopping && !s.link.reconnectTimer
            then NextDelay(s.link.reconnectDelay)
            else s.link.reconnectDelay
  {
    hide DoSweep, CountOutcome;
    if Sweeps(e) {
      SweepKeepsRest(s, e);
    }
  }

  lemma {:induction false} DelayFollowsBackoff(s: State, events: seq<Event>, n: nat)
    requires s.link.reconnectDelay == Backoff(n) && Exec(s, events).After?
    ensures Exec(s, events).state.link.reconnectDelay == Backoff(Schedulings(s, events, n))
    decreases |events|
  {
    if events != [] {
      DelayChanges(s, events[0]);
      NextBackoff(n);
      var m := if events[0].ConnectionUp? then 0
               else if events[0].ScheduleReconnect? && s.link.desired && !s.link.stopping && !s.link.reconnectTimer
               then n + 1 else n;
      assert Backoff(0) == INITIAL_RECONNECT_DELAY;
      hide Do, Backoff, NextDelay;
      DelayFollowsBackoff(Do(s, events[0]), events[1..], m);
    }
  }

  /** Main result: after n schedulings since the last connection the next delay is
      min(3000, 100 * 2^n) milliseconds. */
  lemma ReconnectDelay(events: seq<Event>)
    requires Exec(Init(), events).After?
    ensures Exec(Init(), events).state.link.reconnectDelay == Backoff(Schedulings(Init(), events, 0))
  {
    assert Backoff(0) == INITIAL_RECONNECT_DELAY;
    DelayFollowsBackoff(Init(), events, 0);
  }

  // ---------------------------------------------------------------- deadlines

  /** Main result: a call in the table still has its deadline timer if and only if the timer did not
      fire before the call was in the table; the timer is armed before the call is inserted. */
  lemma DeadlineGuardsExactly(events: seq<Event>, id: nat)
    requires Exec(Init(), events).After? && id in Exec(Init(), events).state.pendingCalls
    ensures var s := Exec(Init(), events).state; id in s.timers <==> id !in s.firedEarly
  {
    InitHasInv();
    RunKeepsInv(Init(), events);
    var s := Exec(Init(), events).state;
    assert TimerOf(s, id);
    hide Exec, Placed, Settled, Framed, Conserved, Attempts;
  }

  /** A deadline that fires before the insertion is lost: the call is in the table without a timer. */
  function LateInsertion(options: Options): seq<Event> {
    [Begin(options, 1), Prepare(1, true), Admit(1), DeadlineFires(1), Insert(1)]
  }

  lemma DeadlineCanBeLost(options: Options)
    requires options.timeout > 0 && !options.failFast
    ensures var o := Exec(Init(), LateInsertion(options));
            o.After? && 1 in o.state.pendingCalls && 1 !in o.state.timers
  {
    var events, s0 := LateInsertion(options), Init();
    var s1 := s0.(nextId := 2, counters := Counters(1, 0, 0, 0, 0), preparing := map[1 := Fresh(options, 1, false, false)]);
    assert Do(s0, events[0]) == s1;
    var s2 := s1.(preparing := map[1 := Fresh(options, 1, true, false)], timers := {1});
    assert Do(s1, events[1]) == s2;
    var s3 := s2.(preparing := map[1 := Fresh(options, 1, true, true)],
                  link := s2.link.(desired := true, connection := Connecting));
    assert Do(s2, events[2]) == s3;
    var s4 := s3.(timers := {}, firedEarly := {1});
    assert Do(s3, events[3]) == s4 by {
      assert s3.taken + AllWith({}, TIMEOUT) == s3.taken;
    }
    assert 1 in Do(s4, events[4]).pendingCalls && Do(s4, events[4]).timers == {};
    hide Do, Exec;
    ExecStep(s0, events);
    ExecStep(s1, events[1..]);
    ExecStep(s2, events[1..][1..]);
    ExecStep(s3, events[1..][1..][1..]);
    ExecStep(s4, events[1..][1..][1..][1..]);
    ExecNothing(Do(s4, events[4]));
  }

  lemma ExecNothing(s: State)
    ensures Exec(s, []) == After(s)
  {
  }
}
