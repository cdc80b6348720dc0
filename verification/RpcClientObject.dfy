/** The RPC client's object: the table, the counters and the link state, updated in place. */
module RpcClientObject {
  import opened Basics
  import opened RpcClient

  /** The counters after `n` calls ended with the same code. */
  function CountTimes(c: Counters, code: int, n: nat): Counters {
    if n == 0 then c else CountOutcome(CountTimes(c, code, n - 1), code)
  }

  function Members(ids: seq<nat>): set<nat> {
    set id | id in ids
  }

  /** Waiting calls of the table. */
  function Waiting(table: map<nat, Pending>): set<nat> {
    set id | id in table && table[id].progress.WaitingToSend?
  }

  /** The table after every waiting call was tried: those past their deadline are gone, the others sent. */
  function AfterSending(table: map<nat, Pending>, late: set<nat>): map<nat, Pending> {
    map id | id in table && !(id in late && table[id].progress.WaitingToSend?) :: table[id].(progress := Sent)
  }

  lemma NoMembers()
    ensures Members([]) == {} && NoRepeats([])
  {
  }

  lemma {:induction false} MembersCount(ids: seq<nat>)
    requires NoRepeats(ids)
    ensures |Members(ids)| == |ids|
  {
    if ids != [] {
      var n := |ids| - 1;
      assert ids == ids[..n] + [ids[n]];
      Extends(ids[..n], ids[n]);
      MembersCount(ids[..n]);
    }
  }

  lemma Extends(ids: seq<nat>, id: nat)
    requires NoRepeats(ids) && id !in Members(ids)
    ensures NoRepeats(ids + [id]) && Members(ids + [id]) == Members(ids) + {id}
  {
  }

  lemma NoneYet(futures: map<nat, int>, code: int)
    ensures futures + AllWith(Members([]), code) == futures
  {
  }

  lemma OneMore(futures: map<nat, int>, ids: seq<nat>, i: nat, code: int)
    requires i < |ids| && NoRepeats(ids) && Members(ids) !! futures.Keys
    ensures ids[i] !in futures + AllWith(Members(ids[..i]), code)
    ensures futures + AllWith(Members(ids[..i + 1]), code) == (futures + AllWith(Members(ids[..i]), code))[ids[i] := code]
  {
    assert ids[..i + 1] == ids[..i] + [ids[i]];
    assert ids[i] in Members(ids);
    Extends(ids[..i], ids[i]);
  }

  /** What the sweeps and the connection handlers do to the calls. */
  datatype Calls = Calls(pendingCalls: map<nat, Pending>, futures: map<nat, int>, counters: Counters)

  function FailIds(c: Calls, ids: set<nat>, code: int): Calls {
    Calls(c.pendingCalls - ids, c.futures + AllWith(ids, code), CountTimes(c.counters, code, |ids|))
  }

  function FailEvery(c: Calls, code: int): Calls {
    FailIds(c, c.pendingCalls.Keys, code)
  }

  function AfterDown(c: Calls, reconnect: bool): Calls {
    var d := FailIds(c, FailedOnDisconnect(c.pendingCalls), NETWORK_ERROR);
    if reconnect then d else FailEvery(d, NETWORK_ERROR)
  }

  function Expire(c: Calls): Calls {
    FailIds(c, ExhaustedCalls(c.pendingCalls), RETRY_EXHAUSTED).(pendingCalls := AfterExpiry(c.pendingCalls))
  }

  predicate GoesOn(c: Calls, reconnect: bool) {
    reconnect && Waiting(AfterExpiry(c.pendingCalls)) != {}
  }

  function AfterError(c: Calls, reconnect: bool): Calls {
    if GoesOn(c, reconnect) then Expire(c)
    else FailEvery(if reconnect then Expire(c) else c, NETWORK_ERROR)
  }

  lemma WithoutReconnect(c: Calls)
    ensures !GoesOn(c, false)
  {
  }

  /** No call is lost: it stays in the table or its future is set. */
  lemma FailIdsKeepsCalls(c: Calls, ids: set<nat>, code: int)
    requires ids <= c.pendingCalls.Keys && c.pendingCalls.Keys !! c.futures.Keys
    ensures var d := FailIds(c, ids, code);
      && d.pendingCalls.Keys !! d.futures.Keys
      && d.pendingCalls.Keys + d.futures.Keys == c.pendingCalls.Keys + c.futures.Keys
      && (forall id :: id in ids ==> id in d.futures && d.futures[id] == code)
      && (forall id :: id in c.futures ==> d.futures[id] == c.futures[id])
  {
  }

  /** Main result: when the connection goes down no call is lost. With a reconnect exactly the calls never
      sent and not fail-fast survive, as they were; every other call learns the network error. */
  lemma DownKeepsCalls(c: Calls, reconnect: bool)
    requires c.pendingCalls.Keys !! c.futures.Keys
    ensures var d := AfterDown(c, reconnect);
      && d.pendingCalls.Keys + d.futures.Keys == c.pendingCalls.Keys + c.futures.Keys
      && (forall id :: id in d.pendingCalls <==>
            (reconnect && id in c.pendingCalls && c.pendingCalls[id].progress.WaitingToSend?
             && !c.pendingCalls[id].options.failFast))
      && (forall id :: id in d.pendingCalls ==> d.pendingCalls[id] == c.pendingCalls[id])
      && (forall id :: id in c.futures ==> d.futures[id] == c.futures[id])
      && (forall id :: id in c.pendingCalls && id !in d.pendingCalls ==> d.futures[id] == 1001)
  {
    var failed := FailedOnDisconnect(c.pendingCalls);
    var d := FailIds(c, failed, NETWORK_ERROR);
    FailIdsKeepsCalls(c, failed, NETWORK_ERROR);
    FailIdsKeepsCalls(d, d.pendingCalls.Keys, NETWORK_ERROR);
    hide AllWith, CountTimes;
  }

  lemma ExpireKeepsCalls(c: Calls)
    requires c.pendingCalls.Keys !! c.futures.Keys
    ensures var d := Expire(c);
      && d.pendingCalls.Keys !! d.futures.Keys
      && d.pendingCalls.Keys + d.futures.Keys == c.pendingCalls.Keys + c.futures.Keys
      && (forall id :: id in ExhaustedCalls(c.pendingCalls) ==> id in d.futures && d.futures[id] == RETRY_EXHAUSTED)
  {
    var exhausted := ExhaustedCalls(c.pendingCalls);
    FailIdsKeepsCalls(c, exhausted, RETRY_EXHAUSTED);
    assert AfterExpiry(c.pendingCalls).Keys == (c.pendingCalls - exhausted).Keys;
    hide AllWith, CountTimes;
  }

  /** A waiting call that retries and has no retry left. */
  predicate NoRetryLeft(p: Pending) {
    p.progress.WaitingToSend? && p.options.retryEnabled && (p.attempt == 0 || p.attempt - 1 >= p.options.maxRetries)
      && (p.attempt == 0 ==> p.options.maxRetries == 0)
  }

  /** The client goes on reconnecting: it wants to, and some call still waits. */
  predicate SomeoneWaits(c: Calls, reconnect: bool) {
    reconnect && exists id :: id in c.pendingCalls && c.pendingCalls[id].progress.WaitingToSend?
                              && !NoRetryLeft(c.pendingCalls[id])
  }

  /** Main result: a connection error loses no call. The client goes on exactly when it wants to and some
      call still waits; then exactly the calls without retries left are gone and the other retrying ones are
      one attempt further. Otherwise every call ends. A call without retries left learns that, unless no
      reconnect is wanted; everybody else who ends learns the network error. */
  lemma ErrorKeepsCalls(c: Calls, reconnect: bool)
    requires c.pendingCalls.Keys !! c.futures.Keys
    ensures var d := AfterError(c, reconnect);
      && d.pendingCalls.Keys + d.futures.Keys == c.pendingCalls.Keys + c.futures.Keys
      && (GoesOn(c, reconnect) <==> SomeoneWaits(c, reconnect))
      && (forall id :: id in d.pendingCalls <==>
            (SomeoneWaits(c, reconnect) && id in c.pendingCalls && !NoRetryLeft(c.pendingCalls[id])))
      && (forall id :: id in d.pendingCalls ==>
            var p := c.pendingCalls[id];
            d.pendingCalls[id] == p.(attempt := if p.progress.WaitingToSend? && p.options.retryEnabled
                                                then p.attempt + 1 else p.attempt))
      && (forall id :: id in c.futures ==> d.futures[id] == c.futures[id])
      && (forall id :: id in c.pendingCalls && id !in d.pendingCalls ==>
            d.futures[id] == if reconnect && NoRetryLeft(c.pendingCalls[id]) then 1007 else 1001)
  {
    ExpireKeepsCalls(c);
    ExpiryLiteral(c);
    WaitersLiteral(c, reconnect);
    var d := if reconnect then Expire(c) else c;
    FailIdsKeepsCalls(d, d.pendingCalls.Keys, NETWORK_ERROR);
    hide CountTimes, ExhaustedCalls, AfterExpiry, NoRetryLeft, GoesOn, SomeoneWaits, Expire, AllWith;
  }

  lemma ExhaustedLiteral(p: Pending)
    ensures Exhausted(p) <==> NoRetryLeft(p)
  {
  }

  /** What one expiry leaves of each call. */
  lemma ExpiryLiteral(c: Calls)
    requires c.pendingCalls.Keys !! c.futures.Keys
    ensures var d := Expire(c);
      && (forall id :: id in d.pendingCalls <==> (id in c.pendingCalls && !NoRetryLeft(c.pendingCalls[id])))
      && (forall id :: id in d.pendingCalls ==>
            var p := c.pendingCalls[id];
            d.pendingCalls[id] == p.(attempt := if p.progress.WaitingToSend? && p.options.retryEnabled
                                                then p.attempt + 1 else p.attempt))
      && (forall id :: id in c.futures ==> id in d.futures && d.futures[id] == c.futures[id])
      && (forall id :: id in c.pendingCalls && NoRetryLeft(c.pendingCalls[id]) ==>
            id in d.futures && d.futures[id] == 1007)
  {
    forall id | id in c.pendingCalls ensures Exhausted(c.pendingCalls[id]) <==> NoRetryLeft(c.pendingCalls[id]) {
      ExhaustedLiteral(c.pendingCalls[id]);
    }
    hide CountTimes, Exhausted, NoRetryLeft;
  }

  lemma WaitersLiteral(c: Calls, reconnect: bool)
    ensures GoesOn(c, reconnect) <==> SomeoneWaits(c, reconnect)
  {
    forall id | id in c.pendingCalls ensures Exhausted(c.pendingCalls[id]) <==> NoRetryLeft(c.pendingCalls[id]) {
      ExhaustedLiteral(c.pendingCalls[id]);
    }
    hide Exhausted, NoRetryLeft;
    var after := AfterExpiry(c.pendingCalls);
    if id :| id in Waiting(after) {
      assert c.pendingCalls[id].progress.WaitingToSend? && !NoRetryLeft(c.pendingCalls[id]);
    }
    if SomeoneWaits(c, reconnect) {
      var id :| id in c.pendingCalls && c.pendingCalls[id].progress.WaitingToSend? && !NoRetryLeft(c.pendingCalls[id]);
      assert id in Waiting(after);
    }
  }

  /** The reconnect timer after an attempt to schedule it: when a reconnect is wanted there is one, and only a
      new one doubles the delay, up to three seconds; otherwise nothing has changed. */
  predicate Rescheduled(l: Link, l': Link, wanted: bool) {
    && l' == l.(reconnectTimer := l.reconnectTimer || wanted, reconnectDelay := l'.reconnectDelay)
    && l'.reconnectDelay == if !wanted || l.reconnectTimer then l.reconnectDelay
                            else if 2 * l.reconnectDelay < 3000 then 2 * l.reconnectDelay else 3000
  }

  class Client {
    var link: Link
    var pendingCalls: map<nat, Pending>
    var futures: map<nat, int>
    var counters: Counters
    var reconnects: nat
    var wire: seq<nat>

    /** A call in the table has an unset future. */
    ghost predicate Valid()
      reads this`pendingCalls, this`futures
    {
      pendingCalls.Keys !! futures.Keys
    }

    ghost function Value(): Calls
      reads this`pendingCalls, this`futures, this`counters
    {
      Calls(pendingCalls, futures, counters)
    }

    constructor ()
      ensures Valid() && pendingCalls == map[] && futures == map[] && wire == []
      ensures link == Link(Disconnected, false, false, 100, false)
      ensures counters == Counters(0, 0, 0, 0, 0) && reconnects == 0
    {
      link := Link(Disconnected, false, false, INITIAL_RECONNECT_DELAY, false);
      pendingCalls, futures, counters, reconnects, wire := map[], map[], Counters(0, 0, 0, 0, 0), 0, [];
    }

    method RecordClientResponse(code: int)
      modifies this`counters
      ensures counters == CountOutcome(old(counters), code)
    {
      if code == OK {
        counters := counters.(success := counters.success + 1);
        return;
      }
      counters := counters.(failed := counters.failed + 1);
      if code == TIMEOUT || code == QUEUEING_TIMEOUT {
        counters := counters.(timedOut := counters.timedOut + 1);
      } else if code == CANCELLED {
        counters := counters.(cancelled := counters.cancelled + 1);
      }
    }

    method CompletePending(id: nat, code: int)
      modifies this`counters, this`futures
      ensures counters == CountOutcome(old(counters), code)
      ensures futures == Complete(old(futures), id, code)
    {
      RecordClientResponse(code);
      if id !in futures {
        futures := futures[id := code];
      }
    }

    method CompleteAll(ids: seq<nat>, code: int)
      requires NoRepeats(ids) && Members(ids) !! futures.Keys
      modifies this`counters, this`futures
      ensures counters == CountTimes(old(counters), code, |ids|)
      ensures futures == old(futures) + AllWith(Members(ids), code)
    {
      hide CountOutcome, Members, AllWith, NoRepeats;
      NoneYet(futures, code);
      for i := 0 to |ids|
        invariant counters == CountTimes(old(counters), code, i)
        invariant futures == old(futures) + AllWith(Members(ids[..i]), code)
      {
        OneMore(old(futures), ids, i, code);
        CompletePending(ids[i], code);
      }
      assert ids[..|ids|] == ids;
    }

    method CompleteResponse(id: nat, code: int)
      requires Valid()
      modifies this`pendingCalls, this`counters, this`futures
      ensures Valid() && pendingCalls == old(pendingCalls) - {id}
      ensures id in old(pendingCalls) ==>
                futures == old(futures)[id := code] && counters == CountOutcome(old(counters), code)
      ensures id !in old(pendingCalls) ==> futures == old(futures) && counters == old(counters)
    {
      if id !in pendingCalls {
        assert pendingCalls - {id} == pendingCalls;
        return;
      }
      pendingCalls := pendingCalls - {id};
      CompletePending(id, code);
    }

    method FailPending(id: nat, code: int)
      requires Valid()
      modifies this`pendingCalls, this`counters, this`futures
      ensures Valid() && pendingCalls == old(pendingCalls) - {id}
      ensures id in old(pendingCalls) ==>
                futures == old(futures)[id := code] && counters == CountOutcome(old(counters), code)
      ensures id !in old(pendingCalls) ==> futures == old(futures) && counters == old(counters)
    {
      CompleteResponse(id, code);
    }

    /** The calls of the table are taken out one by one, then each is completed. */
    method FailAllPending(code: int)
      requires Valid()
      modifies this`pendingCalls, this`counters, this`futures
      ensures Valid() && Value() == FailEvery(old(Value()), code)
    {
      hide Members, AllWith, NoRepeats;
      var pending: seq<nat> := [];
      var todo := pendingCalls.Keys;
      NoMembers();
      while todo != {}
        modifies {}
        invariant NoRepeats(pending) && todo !! Members(pending)
        invariant Members(pending) + todo == pendingCalls.Keys && |pending| + |todo| == |pendingCalls|
        decreases |todo|
      {
        var id :| id in todo;
        Extends(pending, id);
        pending, todo := pending + [id], todo - {id};
      }
      assert Members(pending) == pendingCalls.Keys;
      pendingCalls := map[];
      CompleteAll(pending, code);
    }

    /** Sent and fail-fast calls fail when the connection goes down; the others stay for the reconnect. */
    method FailSentPending(code: int)
      requires Valid()
      modifies this`pendingCalls, this`counters, this`futures
      ensures Valid() && Value() == FailIds(old(Value()), FailedOnDisconnect(old(pendingCalls)), code)
    {
      hide DisconnectedSoFar, Members, NoRepeats, FailedOnDisconnect, AllWith, CountTimes;
      var failed: seq<nat> := [];
      var todo := pendingCalls.Keys;
      ghost var all := pendingCalls;
      DisconnectStarts(all);
      while todo != {}
        modifies this`pendingCalls
        invariant DisconnectedSoFar(all, pendingCalls, todo, failed) && todo <= pendingCalls.Keys <= all.Keys
        decreases |todo|
      {
        var id :| id in todo;
        var fails := FailsOnDisconnect(pendingCalls[id]);
        DisconnectStep(all, pendingCalls, todo, failed, id);
        todo := todo - {id};
        if fails {
          failed := failed + [id];
          pendingCalls := pendingCalls - {id};
        }
      }
      DisconnectEnds(all, pendingCalls, failed);
      FailIdsKeepsCalls(old(Value()), FailedOnDisconnect(all), code);
      CompleteAll(failed, code);
    }

    /** One connection error: waiting calls without retries left are taken out, those with retries left
        move to their next attempt. True if a waiting call remains. */
    method ExpireRetryExhaustedPending() returns (exhausted: seq<nat>, hasWaiting: bool)
      requires Valid()
      modifies this`pendingCalls
      ensures Valid() && pendingCalls == AfterExpiry(old(pendingCalls))
      ensures NoRepeats(exhausted) && Members(exhausted) == ExhaustedCalls(old(pendingCalls))
      ensures hasWaiting <==> Waiting(pendingCalls) != {}
    {
      hide Members, AfterExpiry, ExhaustedCalls, ExpiredSoFar, Waiting, NoRepeats;
      exhausted, hasWaiting := [], false;
      var todo := pendingCalls.Keys;
      ghost var all := pendingCalls;
      ExpiryStarts(all);
      while todo != {}
        invariant ExpiredSoFar(all, pendingCalls, todo, exhausted) && todo <= pendingCalls.Keys <= all.Keys
        invariant hasWaiting <==> Waiting(pendingCalls) - todo != {}
        decreases |todo|
      {
        var id :| id in todo;
        var pending := pendingCalls[id];
        ExpiryStep(all, pendingCalls, todo, exhausted, id);
        WaitingStep(pendingCalls, todo, id);
        todo := todo - {id};
        if !pending.progress.WaitingToSend? {
          continue;
        }
        if pending.options.retryEnabled {
          var completedRetries := if pending.attempt == 0 then 0 else pending.attempt - 1;
          if completedRetries >= pending.options.maxRetries {
            exhausted := exhausted + [id];
            pendingCalls := pendingCalls - {id};
            continue;
          }
          pendingCalls := pendingCalls[id := pending.(attempt := pending.attempt + 1)];
        }
        hasWaiting := true;
      }
      ExpiryDone(all, pendingCalls, exhausted);
      assert Waiting(pendingCalls) - {} == Waiting(pendingCalls);
    }

    method ScheduleReconnect()
      modifies this`link
      ensures link == DoLink(old(link), Event.ScheduleReconnect)
      ensures Rescheduled(old(link), link, old(link.desired && !link.stopping))
    {
      if !link.desired || link.stopping || link.reconnectTimer {
        return;
      }
      link := link.(reconnectDelay := NextDelay(link.reconnectDelay));
      link := link.(reconnectTimer := true);
    }

    method UpdateConnectionState(to: Connection)
      modifies this`link, this`reconnects
      ensures link == old(link).(connection := to)
      ensures reconnects == old(reconnects) + (if to == Reconnecting then 1 else 0)
    {
      link := link.(connection := to);
      if to == Reconnecting {
        reconnects := reconnects + 1;
      }
    }

    /** onConnection() for a connection that came up: the delay starts over and every waiting call is sent,
        or fails because its deadline passed. */
    method OnConnectionUp(late: set<nat>)
      requires Valid()
      modifies this
      ensures Valid() && reconnects == old(reconnects)
      ensures link == old(link).(connection := Connected, reconnectDelay := 100)
      ensures pendingCalls == AfterSending(old(pendingCalls), late)
      ensures old(wire) <= wire && NoRepeats(wire[|old(wire)|..])
      ensures Members(wire[|old(wire)|..]) == Waiting(old(pendingCalls)) - late
      ensures (futures, counters) == AfterLate(old(futures), old(counters), Waiting(old(pendingCalls)) * late)
    {
      hide AfterLate, AfterSending, Waiting, Members, NoRepeats;
      link := link.(reconnectDelay := INITIAL_RECONNECT_DELAY);
      UpdateConnectionState(Connected);
      SendPendingCalls(late);
    }

    /** onConnection() for a connection that went down. */
    method OnConnectionDown()
      requires Valid()
      modifies this
      ensures Valid() && wire == old(wire)
      ensures Value() == AfterDown(old(Value()), old(link.desired && !link.stopping))
      ensures var again := old(link.desired && !link.stopping);
        && link.connection == (if again then Reconnecting else Disconnected)
        && Rescheduled(old(link).(connection := link.connection), link, again)
        && reconnects == old(reconnects) + (if again then 1 else 0)
    {
      hide FailIds, FailEvery, DoLink, FailedOnDisconnect;
      var shouldReconnect := link.desired && !link.stopping;
      FailSentPending(NETWORK_ERROR);
      if shouldReconnect {
        UpdateConnectionState(Reconnecting);
        ScheduleReconnect();
      } else {
        UpdateConnectionState(Disconnected);
        FailAllPending(NETWORK_ERROR);
      }
    }

    /** onConnectionError(). */
    method OnConnectionError()
      requires Valid()
      modifies this
      ensures Valid() && wire == old(wire)
      ensures Value() == AfterError(old(Value()), old(link.desired && !link.stopping))
      ensures var again := GoesOn(old(Value()), old(link.desired && !link.stopping));
        && link.connection == (if again then Reconnecting else Disconnected)
        && Rescheduled(old(link).(connection := link.connection), link, again)
        && reconnects == old(reconnects) + (if again then 1 else 0)
    {
      WithoutReconnect(Value());
      hide Expire, FailEvery, GoesOn, DoLink, CountTimes, AllWith;
      var shouldReconnect := link.desired && !link.stopping;
      if shouldReconnect {
        shouldReconnect := ExpireAll();
      }
      if shouldReconnect {
        UpdateConnectionState(Reconnecting);
        ScheduleReconnect();
        return;
      }
      UpdateConnectionState(Disconnected);
      FailAllPending(NETWORK_ERROR);
    }

    /** The part of onConnectionError() that fails the exhausted calls. */
    method ExpireAll() returns (hasWaiting: bool)
      requires Valid()
      modifies this`pendingCalls, this`futures, this`counters
      ensures Valid() && Value() == Expire(old(Value()))
      ensures hasWaiting == GoesOn(old(Value()), true)
    {
      ExpireKeepsCalls(Value());
      hide AfterExpiry, Members, AllWith, CountTimes, Waiting;
      var exhausted;
      exhausted, hasWaiting := ExpireRetryExhaustedPending();
      MembersCount(exhausted);
      CompleteAll(exhausted, RETRY_EXHAUSTED);
    }

    /** sendPendingCall(): false without sending when the deadline passed, when there is no connection
        or when the call is not waiting any more. */
    method SendPendingCall(id: nat, late: bool, connected: bool) returns (sent: bool)
      requires Valid()
      modifies this`pendingCalls, this`counters, this`futures, this`wire
      ensures Valid()
      ensures sent == (!late && connected && id in old(pendingCalls) && old(pendingCalls)[id].progress.WaitingToSend?)
      ensures wire == if sent then old(wire) + [id] else old(wire)
      ensures pendingCalls == if late then old(pendingCalls) - {id}
                              else if sent then old(pendingCalls)[id := old(pendingCalls)[id].(progress := Sent)]
                              else old(pendingCalls)
      ensures futures == if late && id in old(pendingCalls) then old(futures)[id := QUEUEING_TIMEOUT] else old(futures)
      ensures counters == if late && id in old(pendingCalls) then CountOutcome(old(counters), QUEUEING_TIMEOUT)
                          else old(counters)
    {
      if late {
        FailPending(id, QUEUEING_TIMEOUT);
        return false;
      }
      if !connected {
        return false;
      }
      if id !in pendingCalls || !pendingCalls[id].progress.WaitingToSend? {
        return false;
      }
      pendingCalls := pendingCalls[id := pendingCalls[id].(progress := Sent)];
      wire := wire + [id];
      return true;
    }

    /** sendPendingCalls() on an open connection: every waiting call is sent, once, or fails because its
        deadline passed. */
    method SendPendingCalls(late: set<nat>)
      requires Valid()
      modifies this`pendingCalls, this`counters, this`futures, this`wire
      ensures Valid()
      ensures link.connection != Connected ==> Value() == old(Value()) && wire == old(wire)
      ensures link.connection == Connected ==>
        && pendingCalls == AfterSending(old(pendingCalls), late)
        && old(wire) <= wire && NoRepeats(wire[|old(wire)|..])
        && Members(wire[|old(wire)|..]) == Waiting(old(pendingCalls)) - late
        && (futures, counters) == AfterLate(old(futures), old(counters), Waiting(old(pendingCalls)) * late)
    {
      if link.connection != Connected {
        return;
      }
      hide SentSoFar, AfterSending, AfterLate, CountOutcome, NoRepeats, Members, Waiting;
      var ready := CollectWaiting();
      SendReady(ready, late);
      SendingDone(old(pendingCalls), late, ready, pendingCalls, wire[|old(wire)|..]);
    }

    method CollectWaiting() returns (ready: seq<nat>)
      ensures NoRepeats(ready) && Members(ready) == Waiting(pendingCalls)
    {
      hide NoRepeats, Members;
      ready := [];
      var todo := Waiting(pendingCalls);
      NoMembers();
      while todo != {}
        invariant NoRepeats(ready) && todo !! Members(ready) && todo + Members(ready) == Waiting(pendingCalls)
        decreases |todo|
      {
        var id :| id in todo;
        Extends(ready, id);
        ready, todo := ready + [id], todo - {id};
      }
    }

    method SendReady(ready: seq<nat>, late: set<nat>)
      requires Valid() && NoRepeats(ready) && Members(ready) == Waiting(pendingCalls)
      modifies this`pendingCalls, this`counters, this`futures, this`wire
      ensures Valid() && old(wire) <= wire
      ensures SentSoFar(old(pendingCalls), late, ready, pendingCalls, wire[|old(wire)|..])
      ensures (futures, counters) == AfterLate(old(futures), old(counters), Members(ready) * late)
    {
      ghost var all, before := pendingCalls, wire;
      LateStarts(futures, counters, late, ready);
      hide SentSoFar, Members, Waiting, NoRepeats, AfterSending, AfterLate, CountOutcome, FailIds;
      SendingStarts(all, late, ready);
      assert wire[|before|..] == [];
      for i := 0 to |ready|
        invariant Valid() && before <= wire
        invariant SentSoFar(all, late, ready[..i], pendingCalls, wire[|before|..])
        invariant (futures, counters) == AfterLate(old(futures), old(counters), Members(ready[..i]) * late)
      {
        LateStep(old(futures), old(counters), late, ready, i);
        SendingStep(all, late, ready, i, pendingCalls, wire[|before|..]);
        ghost var sofar := wire;
        var _ := SendPendingCall(ready[i], ready[i] in late, true);
        assert (sofar + [ready[i]])[|before|..] == sofar[|before|..] + [ready[i]];
      }
      assert ready[..|ready|] == ready;
    }
  }

  // ---------------------------------------------------------------- turns of the loops over the table

  predicate DisconnectedSoFar(all: map<nat, Pending>, now: map<nat, Pending>, todo: set<nat>, failed: seq<nat>) {
    && todo <= now.Keys <= all.Keys && NoRepeats(failed)
    && Members(failed) == FailedOnDisconnect(all) - todo && |Members(failed)| == |failed|
    && now == all - Members(failed)
  }

  lemma DisconnectStarts(all: map<nat, Pending>)
    ensures DisconnectedSoFar(all, all, all.Keys, [])
  {
  }

  lemma DisconnectEnds(all: map<nat, Pending>, now: map<nat, Pending>, failed: seq<nat>)
    requires DisconnectedSoFar(all, now, {}, failed)
    ensures Members(failed) == FailedOnDisconnect(all) <= all.Keys && |failed| == |FailedOnDisconnect(all)|
    ensures now == all - FailedOnDisconnect(all) && NoRepeats(failed)
  {
    assert FailedOnDisconnect(all) - {} == FailedOnDisconnect(all);
  }

  lemma DisconnectStep(all: map<nat, Pending>, now: map<nat, Pending>, todo: set<nat>, failed: seq<nat>, id: nat)
    requires DisconnectedSoFar(all, now, todo, failed) && id in todo
    ensures now[id] == all[id]
    ensures if FailsOnDisconnect(all[id]) then DisconnectedSoFar(all, now - {id}, todo - {id}, failed + [id])
            else DisconnectedSoFar(all, now, todo - {id}, failed)
  {
    if FailsOnDisconnect(all[id]) {
      assert id !in Members(failed);
      Extends(failed, id);
      assert FailedOnDisconnect(all) - (todo - {id}) == Members(failed) + {id};
      assert now - {id} == all - (Members(failed) + {id});
      hide FailedOnDisconnect, Members;
    } else {
      assert FailedOnDisconnect(all) - (todo - {id}) == FailedOnDisconnect(all) - todo;
    }
  }

  predicate ExpiredAt(all: map<nat, Pending>, now: map<nat, Pending>, todo: set<nat>, id: nat) {
    && (id in now <==> id in all && (id in todo || !Exhausted(all[id])))
    && (id in now ==> now[id] == if id in todo then all[id] else NextAttempt(all[id]))
  }

  ghost predicate ExpiredSoFar(all: map<nat, Pending>, now: map<nat, Pending>, todo: set<nat>, exhausted: seq<nat>) {
    && todo <= now.Keys && NoRepeats(exhausted)
    && Members(exhausted) == ExhaustedCalls(all) - todo
    && forall id :: ExpiredAt(all, now, todo, id)
  }

  function ExpireOne(now: map<nat, Pending>, id: nat): map<nat, Pending>
    requires id in now
  {
    if Exhausted(now[id]) then now - {id} else now[id := NextAttempt(now[id])]
  }

  lemma ExpiryStarts(all: map<nat, Pending>)
    ensures ExpiredSoFar(all, all, all.Keys, []) && Waiting(all) - all.Keys == {}
  {
  }

  lemma ExpiryStep(all: map<nat, Pending>, now: map<nat, Pending>, todo: set<nat>, exhausted: seq<nat>, id: nat)
    requires ExpiredSoFar(all, now, todo, exhausted) && id in todo
    ensures ExpiredSoFar(all, ExpireOne(now, id), todo - {id},
                         if Exhausted(now[id]) then exhausted + [id] else exhausted)
    ensures !Retrying(now[id]) ==> ExpireOne(now, id) == now
  {
    assert ExpiredAt(all, now, todo, id);
    var after := ExpireOne(now, id);
    forall other ensures ExpiredAt(all, after, todo - {id}, other) {
      assert ExpiredAt(all, now, todo, other);
    }
    if Exhausted(now[id]) {
      assert id !in Members(exhausted);
      Extends(exhausted, id);
      assert ExhaustedCalls(all) - (todo - {id}) == Members(exhausted) + {id};
    } else {
      assert ExhaustedCalls(all) - (todo - {id}) == ExhaustedCalls(all) - todo;
    }
    hide ExpiredAt, Exhausted, NextAttempt;
  }

  lemma WaitingStep(now: map<nat, Pending>, todo: set<nat>, id: nat)
    requires id in todo && id in now
    ensures Waiting(ExpireOne(now, id)) - (todo - {id}) ==
            (Waiting(now) - todo) + (if now[id].progress.WaitingToSend? && !Exhausted(now[id]) then {id} else {})
  {
  }

  lemma ExpiryDone(all: map<nat, Pending>, now: map<nat, Pending>, exhausted: seq<nat>)
    requires ExpiredSoFar(all, now, {}, exhausted)
    ensures now == AfterExpiry(all) && Members(exhausted) == ExhaustedCalls(all) && NoRepeats(exhausted)
  {
    forall id ensures id in now <==> id in AfterExpiry(all) {
      assert ExpiredAt(all, now, {}, id);
    }
    forall id | id in now ensures now[id] == AfterExpiry(all)[id] {
      assert ExpiredAt(all, now, {}, id);
    }
  }

  /** The futures and counters after these calls were found too late to send. */
  function AfterLate(futures: map<nat, int>, counters: Counters, ids: set<nat>): (map<nat, int>, Counters) {
    (futures + AllWith(ids, QUEUEING_TIMEOUT), CountTimes(counters, QUEUEING_TIMEOUT, |ids|))
  }

  lemma LateStarts(futures: map<nat, int>, counters: Counters, late: set<nat>, ready: seq<nat>)
    ensures AfterLate(futures, counters, Members(ready[..0]) * late) == (futures, counters)
  {
    assert Members(ready[..0]) * late == {};
    assert futures + AllWith({}, QUEUEING_TIMEOUT) == futures;
  }

  lemma LateStep(futures: map<nat, int>, counters: Counters, late: set<nat>, ready: seq<nat>, i: nat)
    requires i < |ready| && NoRepeats(ready)
    ensures var (f, c) := AfterLate(futures, counters, Members(ready[..i]) * late);
            AfterLate(futures, counters, Members(ready[..i + 1]) * late) ==
              if ready[i] in late then (f[ready[i] := QUEUEING_TIMEOUT], CountOutcome(c, QUEUEING_TIMEOUT)) else (f, c)
  {
    var ids, id := Members(ready[..i]) * late, ready[i];
    assert ready[..i + 1] == ready[..i] + [id];
    assert id !in Members(ready[..i]);
    Extends(ready[..i], id);
    hide NoRepeats, Members;
    if id in late {
      assert Members(ready[..i + 1]) * late == ids + {id};
      LateOne(futures, counters, ids, id);
    } else {
      assert Members(ready[..i + 1]) * late == ids;
    }
    hide AfterLate;
  }

  lemma LateOne(futures: map<nat, int>, counters: Counters, ids: set<nat>, id: nat)
    requires id !in ids
    ensures var (f, c) := AfterLate(futures, counters, ids);
            AfterLate(futures, counters, ids + {id}) ==
              (f[id := QUEUEING_TIMEOUT], CountOutcome(c, QUEUEING_TIMEOUT))
  {
    assert AllWith(ids + {id}, QUEUEING_TIMEOUT) == AllWith(ids, QUEUEING_TIMEOUT)[id := QUEUEING_TIMEOUT];
    assert futures + AllWith(ids, QUEUEING_TIMEOUT)[id := QUEUEING_TIMEOUT]
        == (futures + AllWith(ids, QUEUEING_TIMEOUT))[id := QUEUEING_TIMEOUT];
    assert |ids + {id}| == |ids| + 1;
    hide CountOutcome, AllWith;
  }

  /** After trying the calls in `tried`. */
  predicate SentSoFar(all: map<nat, Pending>, late: set<nat>, tried: seq<nat>, now: map<nat, Pending>, sent: seq<nat>) {
    && now == (map id | id in all && !(id in tried && id in late) ::
                 if id in tried then all[id].(progress := Sent) else all[id])
    && NoRepeats(sent) && Members(sent) == Members(tried) - late
  }

  lemma SendingStarts(all: map<nat, Pending>, late: set<nat>, ready: seq<nat>)
    ensures SentSoFar(all, late, ready[..0], all, [])
  {
  }

  lemma SendingStep(all: map<nat, Pending>, late: set<nat>, ready: seq<nat>, i: nat, now: map<nat, Pending>,
                    sent: seq<nat>)
    requires i < |ready| && NoRepeats(ready) && Members(ready) == Waiting(all)
    requires SentSoFar(all, late, ready[..i], now, sent)
    ensures ready[i] in now && now[ready[i]].progress.WaitingToSend?
    ensures ready[i] in late ==> SentSoFar(all, late, ready[..i + 1], now - {ready[i]}, sent)
    ensures ready[i] !in late ==>
      SentSoFar(all, late, ready[..i + 1], now[ready[i] := now[ready[i]].(progress := Sent)], sent + [ready[i]])
  {
    var id := ready[i];
    assert ready[..i + 1] == ready[..i] + [id];
    assert id in Members(ready);
    assert id !in ready[..i];
    Extends(ready[..i], id);
    if id !in late {
      assert id !in Members(sent);
      Extends(sent, id);
    }
  }

  lemma SendingDone(all: map<nat, Pending>, late: set<nat>, ready: seq<nat>, now: map<nat, Pending>, sent: seq<nat>)
    requires Members(ready) == Waiting(all) && SentSoFar(all, late, ready, now, sent)
    ensures now == AfterSending(all, late)
    ensures NoRepeats(sent) && Members(sent) == Waiting(all) - late
  {
    forall id ensures id in ready <==> id in Waiting(all) {
      assert id in ready <==> id in Members(ready);
    }
  }
}
