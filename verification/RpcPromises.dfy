/**
 What the caller of the RPC client was promised, event by event: what a call begins with, when it is
 refused and with what code, which calls a sweep over the table ends, and what stopping means.
 */
module RpcPromises {
  import opened Basics
  import opened RpcClient

  // ---------------------------------------------------------------- a new call

  /** A call gets a fresh id and starts at its attempt, or at the first when it names none. */
  lemma BeginsFresh(s: State, options: Options, attempt: nat)
    requires Inv(s)
    ensures var s' := Do(s, Begin(options, attempt));
      && Places(s, s.nextId) == 0 && s'.nextId == s.nextId + 1
      && s'.preparing == s.preparing[s.nextId := Fresh(options, if attempt == 0 then 1 else attempt, false, false)]
      && s'.counters == s.counters.(total := s.counters.total + 1)
      && s'.pendingCalls == s.pendingCalls && s'.futures == s.futures
  {
    assert Places(s, s.nextId) == One(Issued(s, s.nextId));
    hide Inv;
  }

  /** Main result: a call without time or without a frame never enters the table, its frame never leaves,
      and its future can only tell the reason: 1003, or 1002 when it could not be encoded. Any other call
      goes on with its deadline timer armed. */
  lemma UnpreparedNeverEnters(before: seq<Event>, id: nat, encodable: bool, later: seq<Event>)
    requires Exec(Init(), before).After? && Enabled(Exec(Init(), before).state, Prepare(id, encodable))
    requires Exec(Do(Exec(Init(), before).state, Prepare(id, encodable)), later).After?
    ensures var s := Exec(Init(), before).state; var s1 := Do(s, Prepare(id, encodable)); var s' := Exec(s1, later).state;
      if s.preparing[id].options.timeout <= 0 || !encodable then
        && id !in s'.pendingCalls && id !in s'.frames.wire && id !in s'.frames.sending
        && (id in s'.futures ==> s'.futures[id] == if s.preparing[id].options.timeout <= 0 then 1003 else 1002)
      else s1 == s.(preparing := s.preparing[id := s.preparing[id].(armed := true)], timers := s.timers + {id})
  {
    InitHasInv();
    RunKeepsInv(Init(), before);
    var s := Exec(Init(), before).state;
    assert FrameOf(s, id);
    if s.preparing[id].options.timeout <= 0 || !encodable {
      var e, code := Prepare(id, encodable), if s.preparing[id].options.timeout <= 0 then 1003 else 1002;
      EventKeepsInv(s, e);
      assert UnsentAndDecided(Do(s, e), id, code) by { hide Inv, DoSweep; }
      NeverSentLater(Do(s, e), later, id, code);
      var s' := Exec(Do(s, e), later).state;
      assert FrameOf(s', id) && Places(s', id) == One(Issued(s', id));
      hide Exec, Inv, Do;
    }
  }

  /** An admitted call has a connection, or one is wanted and being made. */
  lemma AdmittedIsServed(s: State, id: nat)
    requires Enabled(s, Admit(id)) && !Refused(s, id)
    ensures var s' := Do(s, Admit(id));
      && s'.preparing == s.preparing[id := s.preparing[id].(admitted := true)]
      && (if s.link.connection == Connected then s'.link == s.link
          else s'.link == s.link.(desired := true, connection := s'.link.connection)
               && s'.link.connection == if s.link.connection == Disconnected then Connecting else s.link.connection)
  {
    hide DoSweep;
  }

  /** The table gets the call waiting, with its options and attempt. */
  lemma InsertsWaiting(s: State, id: nat)
    requires Enabled(s, Insert(id))
    ensures var s' := Do(s, Insert(id));
      && s'.pendingCalls == s.pendingCalls[id := Pending(s.preparing[id].options, WaitingToSend, s.preparing[id].attempt)]
      && s'.preparing == s.preparing - {id}
  {
    hide DoSweep;
  }

  /** Exactly a waiting call of the table is marked and then handed over, behind what was handed over. */
  lemma MarksExactly(s: State, id: nat)
    ensures var s' := Do(s, MarkSent(id));
      if id in s.pendingCalls && s.pendingCalls[id].progress.WaitingToSend? then
        && s'.pendingCalls == s.pendingCalls[id := s.pendingCalls[id].(progress := Sent)]
        && s'.frames.sending == s.frames.sending + {id} && s'.frames.wire == s.frames.wire
      else s' == s
    ensures id in s.frames.sending ==>
      var s' := Do(s, HandOver(id)); s'.frames.wire == s.frames.wire + [id] && s'.frames.sending == s.frames.sending - {id}
  {
    hide DoSweep, DoCallAsync, DoLink;
  }

  // ---------------------------------------------------------------- how a call ends

  /** Which calls of the table an event ends. */
  predicate Ends(p: Pending, id: nat, e: Event)
    requires Sweeps(e)
  {
    match e
    case FailAll(_) => true
    case FailSent => p.progress.Sent? || p.options.failFast
    case ExpireRetries =>
      p.progress.WaitingToSend? && p.options.retryEnabled
      && (if p.attempt == 0 then 0 else p.attempt - 1) >= p.options.maxRetries
    case _ => id == e.id
  }

  /** With what code. */
  function CodeOf(e: Event): int
    requires Sweeps(e)
  {
    match e
    case FailAll(code) => code
    case FailSent => 1001
    case ExpireRetries => 1007
    case Response(_, code) => code
    case Fail(_, code) => code
    case DeadlineFires(_) => 1003
  }

  /** A response, a failure, a deadline, a lost connection or a connection error ends exactly these calls of
      the table, with this code; every other call stays, and only a connection error moves the waiting
      retries one attempt on. */
  lemma EndsExactly(s: State, e: Event, id: nat)
    requires Enabled(s, e) && Sweeps(e) && id in s.pendingCalls
    ensures var s' := Do(s, e); var p := s.pendingCalls[id];
      if Ends(p, id, e) then id !in s'.pendingCalls && id in s'.taken && s'.taken[id] == CodeOf(e)
      else
        && id in s'.pendingCalls && (id in s'.taken <==> id in s.taken)
        && s'.pendingCalls[id] == p.(attempt := if e.ExpireRetries? && p.progress.WaitingToSend? && p.options.retryEnabled
                                                then p.attempt + 1 else p.attempt)
  {
    SweepOf(s, e, id);
    SweepIsDo(s, e);
    hide Do, DoSweep;
  }

  /** Main result: whatever ends a call of the table of a reachable state decides its future for good. */
  lemma EndIsFinal(before: seq<Event>, e: Event, id: nat, later: seq<Event>)
    requires Exec(Init(), before).After? && Enabled(Exec(Init(), before).state, e) && Sweeps(e)
    requires id in Exec(Init(), before).state.pendingCalls && Ends(Exec(Init(), before).state.pendingCalls[id], id, e)
    requires Exec(Do(Exec(Init(), before).state, e), later).After?
    ensures var s' := Exec(Do(Exec(Init(), before).state, e), later).state;
            id !in s'.pendingCalls && (id in s'.futures ==> s'.futures[id] == CodeOf(e))
  {
    InitHasInv();
    RunKeepsInv(Init(), before);
    var s := Exec(Init(), before).state;
    EventKeepsInv(s, e);
    EndsExactly(s, e, id);
    FirstTakerDecides(Do(s, e), later, id, CodeOf(e));
    RunKeepsInv(Do(s, e), later);
    DecidedIsGone(Exec(Do(s, e), later).state, id, CodeOf(e));
    hide Exec, Inv, Do;
  }

  /** Each outcome counts once, under its own heading. */
  lemma CountsExactly(s: State, id: nat)
    requires Enabled(s, Record(id))
    ensures var c, c', code := s.counters, Do(s, Record(id)).counters, s.taken[id];
      && c'.total == c.total
      && c'.success == c.success + One(code == 0) && c'.failed == c.failed + One(code != 0)
      && c'.timedOut == c.timedOut + One(code == 1003 || code == 1006)
      && c'.cancelled == c.cancelled + One(code == 1004)
  {
    hide DoSweep, DoCallAsync;
  }

  // ---------------------------------------------------------------- the link

  /** A reconnect is scheduled exactly when it is wanted and none is; then the next delay doubles, up to
      three seconds, and a connection starts the delays over. */
  lemma SchedulesExactly(s: State)
    ensures var l, l' := s.link, Do(s, ScheduleReconnect).link;
      if l.desired && !l.stopping && !l.reconnectTimer then
        l' == l.(reconnectTimer := true, reconnectDelay := if 2 * l.reconnectDelay < 3000 then 2 * l.reconnectDelay else 3000)
      else l' == l
    ensures Do(s, ConnectionUp).link == s.link.(reconnectDelay := 100)
    ensures Do(s, CancelReconnectTimer).link == s.link.(reconnectTimer := false)
    ensures s.link.reconnectTimer ==> Do(s, ReconnectTimerFires).link == s.link.(reconnectTimer := false)
  {
    hide DoSweep, DoCallAsync, DoFrames, DoOutcome;
  }

  /** connect(), disconnect() and the connection's callbacks set just what they are about. */
  lemma LinkFollows(s: State, desired: bool, to: Connection)
    ensures Do(s, SetDesired(desired)) == s.(link := s.link.(desired := desired))
    ensures Do(s, SetConnection(to)) == s.(link := s.link.(connection := to))
  {
    hide DoSweep, DoCallAsync, DoFrames, DoOutcome;
  }

  lemma StaysStopping(s: State, e: Event)
    requires Enabled(s, e) && s.link.stopping
    ensures Do(s, e).link.stopping
  {
    if Sweeps(e) {
      SweepKeepsRest(s, e);
      SweepIsDo(s, e);
      hide Do;
    }
    hide DoSweep, CountOutcome;
  }

  lemma {:induction false} RunStaysStopping(s: State, events: seq<Event>)
    requires s.link.stopping && Exec(s, events).After?
    ensures Exec(s, events).state.link.stopping
    decreases |events|
  {
    if events != [] {
      StaysStopping(s, events[0]);
      hide Do;
      RunStaysStopping(Do(s, events[0]), events[1..]);
    }
  }

  /** Main result: once the client stops, every call that comes to admission, in every continuation, is
      refused with 1005, and no reconnect is ever scheduled. */
  lemma StoppedRefusesAll(s: State, later: seq<Event>, id: nat)
    requires Exec(Do(s, Stop), later).After?
    ensures !Do(s, Stop).link.desired && Do(s, Stop).link.connection == Stopping
    ensures var s' := Exec(Do(s, Stop), later).state;
      && (Enabled(s', Admit(id)) ==>
            var t := Do(s', Admit(id)); id !in t.preparing && id in t.taken && t.taken[id] == 1005)
      && Do(s', ScheduleReconnect).link == s'.link
  {
    RunStaysStopping(Do(s, Stop), later);
    hide Exec, DoSweep, DoFrames, DoOutcome;
  }
}
