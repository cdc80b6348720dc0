/**
 One TCP connection of the reactor: sending directly or through the output buffer, half-close after
 the buffer has drained, and close.

 The kernel is a script: how many bytes each send takes, or which error it gives. A script that runs
 out stands for a kernel that would block. Every operation runs on the loop thread, so the operations
 of a run follow one another in some order.
 */
module TcpConnection {
  import opened Basics
  import NetBuffer

  datatype Phase = Connecting | Connected | Disconnecting | Disconnected

  /** What one send() does: take up to n bytes, or fail with EINTR, EAGAIN or another error. */
  datatype Reply = Takes(n: nat) | Interrupted | WouldBlock | Fails

  datatype Verdict = Drained | Blocked | Broken

  datatype Offered = Offered(taken: nat, verdict: Verdict)

  /** Offering bytes again and again until they are all taken or the kernel will not take more. */
  function Offer(remaining: nat, replies: seq<Reply>): (o: Offered)
    ensures o.taken <= remaining
    ensures o.verdict.Drained? <==> o.taken == remaining
    decreases |replies|
  {
    if remaining == 0 then Offered(0, Drained)
    else if replies == [] then Offered(0, Blocked)
    else
      match replies[0]
      case Takes(n) =>
        if n == 0 then Offered(0, Broken)
        else if n >= remaining then Offered(remaining, Drained)
        else var rest := Offer(remaining - n, replies[1..]); Offered(n + rest.taken, rest.verdict)
      case Interrupted => Offer(remaining, replies[1..])
      case WouldBlock => Offered(0, Blocked)
      case Fails => Offered(0, Broken)
  }

  /** `wire` is what the kernel took; `shuts` and `closes` count shutdownWrite() and close callbacks. */
  datatype State = State(phase: Phase, output: seq<Byte>, writing: bool, wire: seq<Byte>, shuts: nat, closes: nat)

  datatype Event =
    | Establish
    | Send(message: seq<Byte>, replies: seq<Reply>)
    | Writable(replies: seq<Reply>)
    | Shutdown
    | ForceClose
    | ReadEnds                       // end of file, a read error or a socket error
    | Destroy

  predicate Enabled(s: State, e: Event) {
    match e
    case Establish => s.phase.Connecting?
    case ReadEnds => !s.phase.Connecting?
    case _ => true
  }

  function Close(s: State): State {
    if s.phase == Disconnected then s else s.(phase := Disconnected, writing := false, closes := s.closes + 1)
  }

  function DoSend(s: State, message: seq<Byte>, replies: seq<Reply>): State {
    if s.phase != Connected || message == [] then s
    else
      var o := if !s.writing && s.output == [] then Offer(|message|, replies) else Offered(0, Blocked);
      var s1 := s.(wire := s.wire + message[..o.taken]);
      if o.verdict.Broken? then Close(s1)
      else if o.taken == |message| then s1
      else s1.(output := s.output + message[o.taken..], writing := true)
  }

  function DoWrite(s: State, replies: seq<Reply>): State {
    if !s.writing then s
    else
      var o := Offer(|s.output|, replies);
      var s1 := s.(wire := s.wire + s.output[..o.taken], output := s.output[o.taken..]);
      match o.verdict
      case Broken => Close(s1)
      case Blocked => s1
      case Drained =>
        s1.(writing := false, shuts := if s.phase == Disconnecting then s.shuts + 1 else s.shuts)
  }

  function Do(s: State, e: Event): State
    requires Enabled(s, e)
  {
    match e
    case Establish => s.(phase := Connected)
    case Send(message, replies) => DoSend(s, message, replies)
    case Writable(replies) => DoWrite(s, replies)
    case Shutdown =>
      if s.phase != Connected then s
      else s.(phase := Disconnecting, shuts := if s.writing then s.shuts else s.shuts + 1)
    case ForceClose => if s.phase == Connected || s.phase == Disconnecting then Close(s) else s
    case ReadEnds => Close(s)
    case Destroy => s.(phase := Disconnected, writing := if s.phase == Disconnected then s.writing else false)
  }

  function Init(): State { State(Connecting, [], false, [], 0, 0) }

  function Exec(s: State, events: seq<Event>): Outcome<State>
    decreases |events|
  {
    if events == [] then After(s)
    else if !Enabled(s, events[0]) then Stuck
    else Exec(Do(s, events[0]), events[1..])
  }

  /** What one event adds to the accepted bytes. */
  function AcceptedNow(s: State, e: Event): seq<Byte> {
    if e.Send? && s.phase == Connected then e.message else []
  }

  /** The bytes of the messages sent while connected, in order. */
  function AcceptedBytes(s: State, events: seq<Event>): seq<Byte>
    decreases |events|
  {
    if events == [] || !Enabled(s, events[0]) then []
    else AcceptedNow(s, events[0]) + AcceptedBytes(Do(s, events[0]), events[1..])
  }

  // ---------------------------------------------------------------- the invariant

  predicate IsOpen(s: State) { s.phase == Connected || s.phase == Disconnecting }

  predicate Inv(s: State, accepted: seq<Byte>) {
    && s.wire <= accepted
    && (s.phase != Disconnected ==> s.wire + s.output == accepted)
    && (s.phase == Connecting ==> s.output == [] && !s.writing)
    && (IsOpen(s) ==> (s.writing <==> s.output != []))
    && (s.phase == Disconnected ==> !s.writing)
    && (s.phase == Connecting || s.phase == Connected ==> s.shuts == 0)
    && (s.phase == Disconnecting ==> s.shuts == if s.writing then 0 else 1)
    && s.shuts <= 1
    && (s.shuts == 1 ==> s.wire == accepted)
    && s.closes <= (if s.phase == Disconnected then 1 else 0)
  }

  lemma SendKeepsInv(s: State, message: seq<Byte>, replies: seq<Reply>, accepted: seq<Byte>)
    requires Inv(s, accepted)
    ensures Inv(DoSend(s, message, replies), accepted + if s.phase == Connected then message else [])
  {
    hide Offer;
    if s.phase != Connected || message == [] {
      assert accepted + [] == accepted;
    } else {
      var o := if !s.writing && s.output == [] then Offer(|message|, replies) else Offered(0, Blocked);
      assert message == message[..o.taken] + message[o.taken..];
      assert s.output == [] ==> s.wire == accepted;
      assert (s.wire + s.output) + message == s.wire + (s.output + message);
    }
  }

  lemma WriteKeepsInv(s: State, replies: seq<Reply>, accepted: seq<Byte>)
    requires Inv(s, accepted)
    ensures Inv(DoWrite(s, replies), accepted)
  {
    hide Offer;
    if s.writing {
      var o := Offer(|s.output|, replies);
      assert s.output == s.output[..o.taken] + s.output[o.taken..];
      assert s.wire + s.output == (s.wire + s.output[..o.taken]) + s.output[o.taken..];
    }
  }

  lemma EventKeepsInv(s: State, e: Event, accepted: seq<Byte>)
    requires Inv(s, accepted) && Enabled(s, e)
    ensures Inv(Do(s, e), accepted + AcceptedNow(s, e))
  {
    if e.Send? {
      SendKeepsInv(s, e.message, e.replies, accepted);
    } else {
      assert accepted + [] == accepted;
      if e.Writable? {
        WriteKeepsInv(s, e.replies, accepted);
      }
    }
    hide DoSend, DoWrite;
  }

  lemma AcceptedStep(s: State, events: seq<Event>, accepted: seq<Byte>)
    requires events != [] && Enabled(s, events[0])
    ensures accepted + AcceptedNow(s, events[0]) + AcceptedBytes(Do(s, events[0]), events[1..])
         == accepted + AcceptedBytes(s, events)
  {
    hide Do;
  }

  lemma {:induction false} RunKeepsInv(s: State, events: seq<Event>, accepted: seq<Byte>)
    requires Inv(s, accepted) && Exec(s, events).After?
    ensures Inv(Exec(s, events).state, accepted + AcceptedBytes(s, events))
    decreases |events|
  {
    if events == [] {
      assert accepted + [] == accepted;
    } else {
      EventKeepsInv(s, events[0], accepted);
      AcceptedStep(s, events, accepted);
      hide Do, Inv, AcceptedBytes, AcceptedNow;
      RunKeepsInv(Do(s, events[0]), events[1..], accepted + AcceptedNow(s, events[0]));
    }
  }

  /** Main result: for every behaviour of the kernel, what it took plus the output buffer is, while
      the connection is not closed, exactly what was accepted; write interest is on exactly while the
      buffer is not empty; the write half is shut down at most once, and only after every accepted byte
      was taken; the close callback runs at most once. */
  lemma EveryRunKeepsOrder(events: seq<Event>)
    requires Exec(Init(), events).After?
    ensures var s := Exec(Init(), events).state; var accepted := AcceptedBytes(Init(), events);
      && s.wire <= accepted
      && (s.phase != Disconnected ==> s.wire + s.output == accepted)
      && (IsOpen(s) ==> (s.writing <==> s.output != []))
      && s.shuts <= 1 && (s.shuts == 1 ==> s.wire == accepted)
      && s.closes <= 1
  {
    RunKeepsInv(Init(), events, []);
    assert [] + AcceptedBytes(Init(), events) == AcceptedBytes(Init(), events);
  }

  /** Main result: a shutdown connection whose buffer is empty has been shut down, and vice versa, as
      long as it is not closed. */
  lemma HalfCloseFollowsDrain(events: seq<Event>)
    requires Exec(Init(), events).After? && Exec(Init(), events).state.phase == Disconnecting
    ensures var s := Exec(Init(), events).state; s.shuts == 1 <==> s.output == []
  {
    RunKeepsInv(Init(), events, []);
  }

  /** After shutdownWrite() the kernel is offered nothing any more, and there is no second one. */
  lemma {:induction false} ShutIsFinal(s: State, events: seq<Event>, accepted: seq<Byte>)
    requires Inv(s, accepted) && s.shuts == 1 && Exec(s, events).After?
    ensures Exec(s, events).state.wire == s.wire && Exec(s, events).state.shuts == 1
    decreases |events|
  {
    if events != [] {
      EventKeepsInv(s, events[0], accepted);
      hide Offer;
      assert accepted + [] == accepted;
      ShutIsFinal(Do(s, events[0]), events[1..], accepted);
    }
  }

  // ---------------------------------------------------------------- reading

  datatype ReadReply = Got(bytes: seq<Byte>) | EndOfFile | ReadInterrupted | ReadWouldBlock | ReadFails

  /** What a read loop brings: the bytes, how it ends. */
  datatype Read = Read(bytes: seq<Byte>, end: ReadReply)

  function ReadAll(replies: seq<ReadReply>): (r: Read)
    ensures !r.end.Got? && !r.end.ReadInterrupted?
    decreases |replies|
  {
    if replies == [] then Read([], ReadWouldBlock)
    else
      match replies[0]
      case Got(bytes) =>
        if bytes == [] then Read([], EndOfFile)
        else var rest := ReadAll(replies[1..]); Read(bytes + rest.bytes, rest.end)
      case ReadInterrupted => ReadAll(replies[1..])
      case _ => Read([], replies[0])
  }

  /** Whether the message callback runs after a read loop. */
  predicate Delivers(r: Read) { r.bytes != [] && !r.end.ReadFails? }

  /** A read error after some bytes: they are in the input buffer and the callback does not run,
      unlike after an end of file. */
  lemma ReadErrorWithholdsBytes(bytes: seq<Byte>)
    requires bytes != []
    ensures ReadAll([Got(bytes), ReadFails]).bytes == bytes && !Delivers(ReadAll([Got(bytes), ReadFails]))
    ensures ReadAll([Got(bytes), EndOfFile]).bytes == bytes && Delivers(ReadAll([Got(bytes), EndOfFile]))
  {
    assert [Got(bytes), ReadFails][1..] == [ReadFails] && [Got(bytes), EndOfFile][1..] == [EndOfFile];
    assert bytes + [] == bytes;
  }

  /** A read that brings bytes and is not broken off by an error is delivered: after a drained socket and
      after an end of file alike. */
  lemma DeliversExactly(r: Read)
    requires !r.end.Got? && !r.end.ReadInterrupted?
    ensures Delivers(r) <==> r.bytes != [] && (r.end.ReadWouldBlock? || r.end.EndOfFile?)
  {
  }

  /** The bytes of these replies. */
  function Bytes(replies: seq<ReadReply>): seq<Byte> {
    if replies == [] then []
    else (if replies[0].Got? then replies[0].bytes else []) + Bytes(replies[1..])
  }

  /** A reply after which the loop reads on. */
  predicate ReadsOn(r: ReadReply) { r.ReadInterrupted? || (r.Got? && r.bytes != []) }

  /** Reading goes on over bytes and interruptions and ends at the first other reply; no bytes is an end of
      file, and no reply at all a socket that would block. */
  lemma {:induction false} ReadsExactly(before: seq<ReadReply>, after: seq<ReadReply>)
    requires forall i :: 0 <= i < |before| ==> ReadsOn(before[i])
    requires after != [] ==> !ReadsOn(after[0])
    ensures ReadAll(before + after) ==
            Read(Bytes(before), if after == [] then ReadWouldBlock else if after[0].Got? then EndOfFile else after[0])
  {
    if before == [] {
      assert [] + after == after;
    } else {
      assert (before + after)[1..] == before[1..] + after;
      ReadsExactly(before[1..], after);
    }
  }

  // ---------------------------------------------------------------- sending

  /** How much these replies take. */
  function Taken(replies: seq<Reply>): nat {
    if replies == [] then 0 else (if replies[0].Takes? then replies[0].n else 0) + Taken(replies[1..])
  }

  predicate SendsOn(r: Reply) { r.Interrupted? || (r.Takes? && r.n > 0) }

  /** Sending goes on over partial sends and interruptions until all is taken, the kernel would block, or it
      fails or takes nothing. */
  lemma {:induction false} OffersExactly(remaining: nat, before: seq<Reply>, after: seq<Reply>)
    requires forall i :: 0 <= i < |before| ==> SendsOn(before[i])
    requires after != [] ==> !SendsOn(after[0])
    ensures Offer(remaining, before + after) ==
            if Taken(before) >= remaining then Offered(remaining, Drained)
            else Offered(Taken(before), if after == [] || after[0].WouldBlock? then Blocked else Broken)
    decreases |before|
  {
    if before == [] {
      assert [] + after == after;
    } else if remaining > 0 {
      assert (before + after)[1..] == before[1..] + after;
      var n := if before[0].Takes? then before[0].n else 0;
      if n < remaining {
        OffersExactly(remaining - n, before[1..], after);
      }
    }
  }

  /** Sending on an open connection with nothing queued offers the message to the kernel first; the rest is
      queued with write interest, and only a broken connection is closed. */
  lemma SendsExactly(s: State, message: seq<Byte>, replies: seq<Reply>)
    requires s.phase == Connected && message != []
    ensures var s' := Do(s, Send(message, replies)); var o := Offer(|message|, replies);
      if s.writing || s.output != [] then s' == s.(output := s.output + message, writing := true)
      else
        && s'.wire == s.wire + message[..o.taken]
        && (s'.phase == Disconnected <==> o.verdict.Broken?)
        && (o.verdict.Drained? ==> s'.output == [] && !s'.writing)
        && (o.verdict.Blocked? ==> s'.output == message[o.taken..] && s'.writing)
  {
    assert s.output == [] ==> s.output + message[0..] == message[0..];
  }

  /** A message on a connection that is not open is dropped. */
  lemma DropsWhenNotConnected(s: State, message: seq<Byte>, replies: seq<Reply>)
    requires s.phase != Connected || message == []
    ensures Do(s, Send(message, replies)) == s
  {
  }

  /** A writable connection sends what the kernel takes of the queued bytes; only a broken one is closed, and
      only a drained one stops writing and, if asked to, shuts its write half. */
  lemma WritesExactly(s: State, replies: seq<Reply>)
    requires IsOpen(s) && s.writing
    ensures var s' := Do(s, Writable(replies)); var o := Offer(|s.output|, replies);
      && s'.wire == s.wire + s.output[..o.taken] && s'.output == s.output[o.taken..]
      && (s'.phase == Disconnected <==> o.verdict.Broken?) && (!o.verdict.Broken? ==> s'.phase == s.phase)
      && (o.verdict.Blocked? ==> s'.writing && s'.shuts == s.shuts)
      && (o.verdict.Drained? ==> !s'.writing && s'.shuts == s.shuts + if s.phase == Disconnecting then 1 else 0)
  {
  }

  /** shutdown() takes an open connection to Disconnecting and shuts the write half at once exactly when
      nothing is queued; it does nothing otherwise. */
  lemma ShutsExactly(s: State)
    requires IsOpen(s) ==> (s.writing <==> s.output != [])
    ensures var s' := Do(s, Shutdown);
      if s.phase == Connected then
        s' == s.(phase := Disconnecting, shuts := s.shuts + if s.output == [] then 1 else 0)
      else s' == s
  {
  }

  /** The other ways a connection opens and closes: the close callback runs for every open connection that is
      closed, but not when the connection is destroyed. */
  lemma ClosesExactly(s: State)
    ensures s.phase == Connecting ==> Do(s, Establish) == s.(phase := Connected)
    ensures IsOpen(s) ==>
              Do(s, ForceClose) == Do(s, ReadEnds) == s.(phase := Disconnected, writing := false, closes := s.closes + 1)
    ensures !IsOpen(s) ==> Do(s, ForceClose) == s
    ensures var s' := Do(s, Destroy); s'.phase == Disconnected && s'.closes == s.closes
  {
  }

  /** Main result: after shutdown() no further byte is accepted, in any continuation. */
  lemma {:induction false} ShutdownAcceptsNothing(s: State, events: seq<Event>)
    requires s.phase == Disconnecting || s.phase == Disconnected
    ensures AcceptedBytes(s, events) == []
    decreases |events|
  {
    if events != [] && Enabled(s, events[0]) {
      hide Offer;
      ShutdownAcceptsNothing(Do(s, events[0]), events[1..]);
    }
  }

  /** Main result: the close callback runs exactly once for every connection that was closed, as long as it was
      not destroyed instead. */
  lemma {:induction false} ClosedOnce(s: State, events: seq<Event>)
    requires s.closes == if s.phase == Disconnected then 1 else 0
    requires Exec(s, events).After? && forall i :: 0 <= i < |events| ==> !events[i].Destroy?
    ensures var s' := Exec(s, events).state; s'.closes == if s'.phase == Disconnected then 1 else 0
    decreases |events|
  {
    if events != [] {
      hide Offer;
      ClosedOnce(Do(s, events[0]), events[1..]);
    }
  }

  // ---------------------------------------------------------------- the object

  /** The loop of handleWrite(): bytes leave the buffer as the kernel takes them. */
  method DrainOutput(buffer: NetBuffer.Buffer, replies: seq<Reply>) returns (verdict: Verdict, sent: seq<Byte>)
    requires buffer.Valid()
    modifies buffer
    ensures buffer.Valid() && buffer.data == old(buffer.data)
    ensures var o := Offer(|old(buffer.Contents())|, replies);
      && verdict == o.verdict
      && sent == old(buffer.Contents())[..o.taken]
      && buffer.Contents() == old(buffer.Contents())[o.taken..]
  {
    ghost var all := buffer.Contents();
    sent := [];
    var next := 0;
    var readable := buffer.ReadableBytes();
    OfferStarts(|all|, replies);
    hide Offer, OfferSoFar, SplitInto;
    SplitStarts(all);
    while readable > 0
      invariant buffer.Valid() && buffer.data == old(buffer.data) && readable == |buffer.Contents()|
      invariant SplitInto(all, sent, buffer.Contents())
      invariant next <= |replies| && |sent| + readable == |all| && OfferSoFar(|all|, replies, next, |sent|)
      decreases |replies| - next
    {
      OfferStep(|all|, replies, next, |sent|);
      SplitEnds(all, sent, buffer.Contents());
      if next == |replies| {
        return Blocked, sent;
      }
      var reply := replies[next];
      next := next + 1;
      match reply
      case Takes(n) =>
        if n == 0 {
          return Broken, sent;
        }
        var written := Min(n, readable);
        SplitMoves(all, sent, buffer.Contents(), written);
        var bytes := TakeFirst(buffer, written);
        sent, readable := sent + bytes, readable - written;
      case Interrupted =>
      case WouldBlock =>
        return Blocked, sent;
      case Fails =>
        return Broken, sent;
    }
    SplitEnds(all, sent, buffer.Contents());
    OfferEnds(|all|, replies, next);
    return Drained, sent;
  }

  /** The kernel takes the first bytes of the buffer. */
  method TakeFirst(buffer: NetBuffer.Buffer, n: nat) returns (bytes: seq<Byte>)
    requires buffer.Valid() && n <= |buffer.Contents()|
    modifies buffer
    ensures buffer.Valid() && buffer.data == old(buffer.data)
    ensures bytes == old(buffer.Contents())[..n] && buffer.Contents() == old(buffer.Contents())[n..]
  {
    var readable := buffer.Peek();
    bytes := readable[..n];
    var _ := buffer.Retrieve(n);
  }

  predicate SplitInto(all: seq<Byte>, sent: seq<Byte>, rest: seq<Byte>) { all == sent + rest }

  lemma SplitStarts(all: seq<Byte>)
    ensures SplitInto(all, [], all)
  {
  }

  lemma SplitMoves(all: seq<Byte>, sent: seq<Byte>, rest: seq<Byte>, n: nat)
    requires n <= |rest| && SplitInto(all, sent, rest)
    ensures SplitInto(all, sent + rest[..n], rest[n..])
  {
  }

  lemma SplitEnds(all: seq<Byte>, sent: seq<Byte>, rest: seq<Byte>)
    requires SplitInto(all, sent, rest)
    ensures |sent| + |rest| == |all| && sent == all[..|sent|] && rest == all[|sent|..]
  {
  }

  class Connection {
    var phase: Phase
    const outputBuffer: NetBuffer.Buffer
    const inputBuffer: NetBuffer.Buffer
    var writing: bool
    var wire: seq<Byte>
    var shuts: nat
    var closes: nat

    ghost predicate Valid()
      reads this, outputBuffer, inputBuffer
    {
      && outputBuffer != inputBuffer && outputBuffer.data != inputBuffer.data
      && outputBuffer.Valid() && inputBuffer.Valid()
    }

    ghost function Value(): State
      reads this, outputBuffer, outputBuffer.data, inputBuffer
      requires Valid()
    {
      State(phase, outputBuffer.Contents(), writing, wire, shuts, closes)
    }

    constructor ()
      ensures Valid() && Value() == Init() && inputBuffer.Contents() == []
      ensures fresh(outputBuffer) && fresh(outputBuffer.data) && fresh(inputBuffer) && fresh(inputBuffer.data)
    {
      phase, writing, wire, shuts, closes := Connecting, false, [], 0, 0;
      outputBuffer := new NetBuffer.Buffer();
      inputBuffer := new NetBuffer.Buffer();
    }

    method HandleClose()
      requires Valid()
      modifies this
      ensures Valid() && Value() == Close(old(Value()))
    {
      if phase == Disconnected {
        return;
      }
      phase := Disconnected;
      writing := false;
      closes := closes + 1;
    }

    method SendInLoop(message: seq<Byte>, replies: seq<Reply>)
      requires Valid()
      modifies this, outputBuffer, outputBuffer.data
      ensures Valid() && (outputBuffer.data == old(outputBuffer.data) || fresh(outputBuffer.data))
      ensures Value() == DoSend(old(Value()), message, replies)
    {
      if phase != Connected || message == [] {
        return;
      }
      var sent, broken := 0, false;
      var readable := outputBuffer.ReadableBytes();
      if !writing && readable == 0 {
        sent, broken := SendDirectly(message, replies);
        if broken {
          HandleClose();
          return;
        }
      }
      if sent < |message| {
        outputBuffer.Append(message[sent..]);
        if !writing {
          writing := true;
        }
      }
    }

    /** The loop over send(): how many bytes were taken, and whether the connection broke. */
    method SendDirectly(message: seq<Byte>, replies: seq<Reply>) returns (sent: nat, broken: bool)
      requires message != []
      modifies this`wire
      ensures sent == Offer(|message|, replies).taken && broken == Offer(|message|, replies).verdict.Broken?
      ensures wire == old(wire) + message[..sent]
    {
      sent, broken := 0, false;
      var next := 0;
      OfferStarts(|message|, replies);
      hide Offer, OfferSoFar;
      while next < |replies|
        invariant next <= |replies| && sent < |message| && !broken
        invariant wire == old(wire) + message[..sent]
        invariant OfferSoFar(|message|, replies, next, sent)
        decreases |replies| - next
      {
        OfferStep(|message|, replies, next, sent);
        var reply := replies[next];
        next := next + 1;
        match reply
        case Takes(n) =>
          if n == 0 {
            return sent, true;
          }
          var written := Min(n, |message| - sent);
          Advance(message, old(wire), sent, written);
          wire := wire + message[sent..][..written];
          sent := sent + written;
          if sent == |message| {
            OfferEnds(|message|, replies, next);
            return;
          }
        case Interrupted =>
        case WouldBlock =>
          return;
        case Fails =>
          return sent, true;
      }
      OfferStep(|message|, replies, next, sent);
    }

    method HandleWrite(replies: seq<Reply>)
      requires Valid()
      modifies this, outputBuffer
      ensures Valid() && outputBuffer.data == old(outputBuffer.data)
      ensures Value() == DoWrite(old(Value()), replies)
    {
      if !writing {
        return;
      }
      hide Offer;
      var verdict, sent := DrainOutput(outputBuffer, replies);
      wire := wire + sent;
      match verdict
      case Broken =>
        HandleClose();
      case Blocked =>
      case Drained =>
        writing := false;
        if phase == Disconnecting {
          shuts := shuts + 1;
        }
    }

    method ShutdownInLoop()
      requires Valid()
      modifies this
      ensures Valid() && Value() == Do(old(Value()), Shutdown)
    {
      if phase == Connected {
        phase := Disconnecting;
        if !writing {
          shuts := shuts + 1;
        }
      }
    }

    method ForceCloseInLoop()
      requires Valid()
      modifies this
      ensures Valid() && Value() == Do(old(Value()), ForceClose)
    {
      if phase == Connected || phase == Disconnecting {
        HandleClose();
      }
    }

    /** handleRead(): everything readable goes into the input buffer, the message callback runs when
        something came in, except after a read error, and only then is the connection closed. */
    method HandleRead(replies: seq<ReadReply>) returns (delivered: bool)
      requires Valid()
      modifies this, inputBuffer, inputBuffer.data
      ensures Valid() && (inputBuffer.data == old(inputBuffer.data) || fresh(inputBuffer.data))
      ensures var r := ReadAll(replies);
        && inputBuffer.Contents() == old(inputBuffer.Contents()) + r.bytes
        && delivered == Delivers(r)
        && Value() == if r.end.ReadWouldBlock? then old(Value()) else Close(old(Value()))
    {
      hide ReadAll;
      var received, end := ReadLoop(replies);
      if !end.ReadWouldBlock? {
        HandleClose();
      }
      return received && !end.ReadFails?;
    }

    method ReadLoop(replies: seq<ReadReply>) returns (received: bool, end: ReadReply)
      requires Valid()
      modifies inputBuffer, inputBuffer.data
      ensures Valid() && (inputBuffer.data == old(inputBuffer.data) || fresh(inputBuffer.data))
      ensures Value() == old(Value())
      ensures inputBuffer.Contents() == old(inputBuffer.Contents()) + ReadAll(replies).bytes
      ensures received == (ReadAll(replies).bytes != []) && end == ReadAll(replies).end
    {
      ghost var before, value := inputBuffer.Contents(), Value();
      ghost var sofar: seq<Byte> := [];
      var next := 0;
      received := false;
      assert replies[0..] == replies && before + [] == before;
      while next < |replies|
        invariant Valid() && (inputBuffer.data == old(inputBuffer.data) || fresh(inputBuffer.data))
        invariant next <= |replies| && Value() == value
        invariant inputBuffer.Contents() == before + sofar && received == (sofar != [])
        invariant ReadSoFar(replies, next, sofar)
        decreases |replies| - next
      {
        ReadStep(replies, next, sofar);
        var reply := replies[next];
        next := next + 1;
        match reply
        case Got(bytes) =>
          if bytes == [] {
            return received, EndOfFile;
          }
          inputBuffer.Append(bytes);
          assert before + sofar + bytes == before + (sofar + bytes);
          sofar := sofar + bytes;
          received := true;
        case ReadInterrupted =>
        case _ =>
          return received, reply;
      }
      ReadStep(replies, next, sofar);
      return received, ReadWouldBlock;
    }
  }

  // ---------------------------------------------------------------- turns of the loops

  predicate OfferSoFar(n: nat, replies: seq<Reply>, next: nat, taken: nat)
    requires next <= |replies| && taken <= n
  {
    var rest := Offer(n - taken, replies[next..]);
    Offer(n, replies) == Offered(taken + rest.taken, rest.verdict)
  }

  function Min(a: nat, b: nat): nat { if a < b then a else b }

  lemma OfferStarts(n: nat, replies: seq<Reply>)
    ensures OfferSoFar(n, replies, 0, 0)
  {
    assert replies[0..] == replies;
  }

  lemma OfferStep(n: nat, replies: seq<Reply>, next: nat, taken: nat)
    requires next <= |replies| && taken < n && OfferSoFar(n, replies, next, taken)
    ensures if next == |replies| then Offer(n, replies) == Offered(taken, Blocked)
            else match replies[next]
              case Takes(k) =>
                if k == 0 then Offer(n, replies) == Offered(taken, Broken)
                else OfferSoFar(n, replies, next + 1, taken + Min(k, n - taken))
              case Interrupted => OfferSoFar(n, replies, next + 1, taken)
              case WouldBlock => Offer(n, replies) == Offered(taken, Blocked)
              case Fails => Offer(n, replies) == Offered(taken, Broken)
  {
    if next < |replies| {
      assert replies[next..][1..] == replies[next + 1..];
    }
  }

  lemma OfferEnds(n: nat, replies: seq<Reply>, next: nat)
    requires next <= |replies| && OfferSoFar(n, replies, next, n)
    ensures Offer(n, replies) == Offered(n, Drained)
  {
  }

  lemma Advance(all: seq<Byte>, start: seq<Byte>, taken: nat, written: nat)
    requires taken + written <= |all|
    ensures start + all[..taken] + all[taken..][..written] == start + all[..taken + written]
    ensures all[taken..][written..] == all[taken + written..]
  {
    assert all[..taken] + all[taken..][..written] == all[..taken + written];
    assert start + all[..taken] + all[taken..][..written] == start + (all[..taken] + all[taken..][..written]);
  }

  predicate ReadSoFar(replies: seq<ReadReply>, next: nat, sofar: seq<Byte>)
    requires next <= |replies|
  {
    var rest := ReadAll(replies[next..]);
    ReadAll(replies) == Read(sofar + rest.bytes, rest.end)
  }

  lemma ReadStep(replies: seq<ReadReply>, next: nat, sofar: seq<Byte>)
    requires next <= |replies| && ReadSoFar(replies, next, sofar)
    ensures if next == |replies| then ReadAll(replies) == Read(sofar, ReadWouldBlock)
            else match replies[next]
              case Got(bytes) =>
                if bytes == [] then ReadAll(replies) == Read(sofar, EndOfFile)
                else ReadSoFar(replies, next + 1, sofar + bytes)
              case ReadInterrupted => ReadSoFar(replies, next + 1, sofar)
              case _ => ReadAll(replies) == Read(sofar, replies[next])
  {
    assert sofar + [] == sofar;
    if next < |replies| {
      assert replies[next..][1..] == replies[next + 1..];
      if replies[next].Got? {
        var rest := ReadAll(replies[next + 1..]).bytes;
        assert sofar + (replies[next].bytes + rest) == (sofar + replies[next].bytes) + rest;
      }
    }
  }
}
