/**
 The blocking queue as a monitor with Mesa-style condition variables.

 Every lock region is one event and every notification that follows an unlock is another, so other
 threads run in between. Wake-ups may be spurious and timed waits may expire at any time.
 */
module BlockingQueue {
  import opened Basics

  datatype Queue<T> = Queue(capacity: nat, contents: seq<T>, closed: bool)

  /** What a producer or a consumer asks for: one element, or up to a whole batch. */
  datatype PushCall<T> = PushCall(values: seq<T>, batch: bool, timed: bool)
  datatype PopCall = PopCall(count: nat, batch: bool, timed: bool)

  datatype Verdict = MustWait | Refused | Done

  function Min(a: int, b: int): int { if a <= b then a else b }

  // ---------------------------------------------------------------- lock regions

  /** The lock region of push, emplace, push_for and push_batch; MustWait is a false wait predicate. */
  function PushRegion<T>(q: Queue<T>, call: PushCall<T>): (r: (Queue<T>, Verdict))
    requires |q.contents| <= q.capacity
  {
    if call.batch && call.values == [] then (q, Refused)
    else if q.closed then (q, Refused)
    else if |q.contents| == q.capacity then (q, MustWait)
    else (q.(contents := q.contents + call.values[..Min(|call.values|, q.capacity - |q.contents|)]), Done)
  }

  /** The lock region of pop, pop_for and pop_batch. */
  function PopRegion<T>(q: Queue<T>, call: PopCall): (r: (Queue<T>, Verdict))
  {
    if call.batch && call.count == 0 then (q, Refused)
    else if q.contents == [] then (q, if q.closed then Refused else MustWait)
    else (q.(contents := q.contents[Min(call.count, |q.contents|)..]), Done)
  }

  /** A single call names one element. */
  predicate PushOk<T>(call: PushCall<T>) { call.batch || |call.values| == 1 }
  predicate PopOk(call: PopCall) { call.batch || call.count == 1 }

  // ---------------------------------------------------------------- the monitor

  /** `notify` counts notify_one calls still to be made; `notifyAll` is close()'s pending call. */
  datatype Side<Call> = Side(waiting: map<nat, Call>, woken: map<nat, Call>, notify: nat, notifyAll: bool)

  datatype State<T> = State(
    queue: Queue<T>,
    consumers: Side<PopCall>,
    producers: Side<PushCall<T>>,
    pushed: seq<T>,
    popped: seq<T>)

  datatype Event<T> =
    | StartPush(t: nat, push: PushCall<T>)
    | ResumePush(t: nat, expired: bool)
    | TryPush(value: T)
    | StartPop(t: nat, pop: PopCall)
    | ResumePop(t: nat, expired: bool)
    | TryPop
    | WakeProducer(t: nat)                // spurious, or the timed wait expired
    | WakeConsumer(t: nat)
    | NotifyProducer(target: Option<nat>)
    | NotifyConsumer(target: Option<nat>)
    | Close
    | NotifyAllConsumers
    | NotifyAllProducers

  predicate Known<Call>(side: Side<Call>, t: nat) { t in side.waiting || t in side.woken }

  predicate CanNotify<Call>(side: Side<Call>, target: Option<nat>) {
    side.notify > 0 && (if target.Some? then target.value in side.waiting else side.waiting == map[])
  }

  predicate Enabled<T>(s: State<T>, e: Event<T>) {
    match e
    case StartPush(t, call) => PushOk(call) && !Known(s.producers, t)
    case ResumePush(t, expired) => t in s.producers.woken && (expired ==> s.producers.woken[t].timed)
    case TryPush(_) => true
    case StartPop(t, call) => PopOk(call) && !Known(s.consumers, t)
    case ResumePop(t, expired) => t in s.consumers.woken && (expired ==> s.consumers.woken[t].timed)
    case TryPop => true
    case WakeProducer(t) => t in s.producers.waiting
    case WakeConsumer(t) => t in s.consumers.waiting
    case NotifyProducer(target) => CanNotify(s.producers, target)
    case NotifyConsumer(target) => CanNotify(s.consumers, target)
    case Close => true
    case NotifyAllConsumers => s.consumers.notifyAll
    case NotifyAllProducers => s.producers.notifyAll
  }

  function Wait<Call>(side: Side<Call>, t: nat, call: Call): Side<Call> {
    side.(waiting := side.waiting[t := call])
  }

  function Wake<Call>(side: Side<Call>, t: nat): Side<Call>
    requires t in side.waiting
  {
    side.(waiting := side.waiting - {t}, woken := side.woken[t := side.waiting[t]])
  }

  function Leave<Call>(side: Side<Call>, t: nat): Side<Call> {
    side.(woken := side.woken - {t})
  }

  function Notify<Call>(side: Side<Call>, target: Option<nat>): Side<Call>
    requires CanNotify(side, target)
  {
    (if target.Some? then Wake(side, target.value) else side).(notify := side.notify - 1)
  }

  function NotifyAll<Call>(side: Side<Call>): Side<Call> {
    side.(waiting := map[], woken := side.woken + side.waiting, notifyAll := false)
  }

  /** What a finished push region leaves: the elements, one pending notification, the history. */
  function AfterPush<T>(s: State<T>, queue: Queue<T>): State<T>
    requires |s.queue.contents| <= |queue.contents|
  {
    s.(queue := queue, consumers := s.consumers.(notify := s.consumers.notify + 1),
       pushed := s.pushed + queue.contents[|s.queue.contents|..])
  }

  function AfterPop<T>(s: State<T>, queue: Queue<T>): State<T>
    requires |queue.contents| <= |s.queue.contents|
  {
    s.(queue := queue, producers := s.producers.(notify := s.producers.notify + 1),
       popped := s.popped + s.queue.contents[..|s.queue.contents| - |queue.contents|])
  }

  /** The thread runs its lock region; when its predicate is false it waits, unless it gives up. */
  function RunPush<T>(s: State<T>, t: nat, call: PushCall<T>, expired: bool): State<T>
    requires |s.queue.contents| <= s.queue.capacity
  {
    var (queue, verdict) := PushRegion(s.queue, call);
    match verdict
    case Done => AfterPush(s, queue)
    case Refused => s
    case MustWait => if expired then s else s.(producers := Wait(s.producers, t, call))
  }

  function RunPop<T>(s: State<T>, t: nat, call: PopCall, expired: bool): State<T> {
    var (queue, verdict) := PopRegion(s.queue, call);
    match verdict
    case Done => AfterPop(s, queue)
    case Refused => s
    case MustWait => if expired then s else s.(consumers := Wait(s.consumers, t, call))
  }

  /** A woken thread reacquires the mutex and looks at its predicate again. */
  function ResumedPush<T>(s: State<T>, t: nat, expired: bool): State<T>
    requires |s.queue.contents| <= s.queue.capacity && t in s.producers.woken
  {
    RunPush(s.(producers := Leave(s.producers, t)), t, s.producers.woken[t], expired)
  }

  function ResumedPop<T>(s: State<T>, t: nat, expired: bool): State<T>
    requires t in s.consumers.woken
  {
    RunPop(s.(consumers := Leave(s.consumers, t)), t, s.consumers.woken[t], expired)
  }

  function Do<T>(s: State<T>, e: Event<T>): State<T>
    requires Enabled(s, e) && |s.queue.contents| <= s.queue.capacity
  {
    match e
    case StartPush(t, call) => RunPush(s, t, call, false)
    case ResumePush(t, expired) => ResumedPush(s, t, expired)
    case TryPush(value) =>
      if s.queue.closed || |s.queue.contents| == s.queue.capacity then s
      else AfterPush(s, s.queue.(contents := s.queue.contents + [value]))
    case StartPop(t, call) => RunPop(s, t, call, false)
    case ResumePop(t, expired) => ResumedPop(s, t, expired)
    case TryPop =>
      if s.queue.contents == [] then s
      else AfterPop(s, s.queue.(contents := s.queue.contents[1..]))
    case WakeProducer(t) => s.(producers := Wake(s.producers, t))
    case WakeConsumer(t) => s.(consumers := Wake(s.consumers, t))
    case NotifyProducer(target) => s.(producers := Notify(s.producers, target))
    case NotifyConsumer(target) => s.(consumers := Notify(s.consumers, target))
    case Close =>
      if s.queue.closed then s
      else s.(queue := s.queue.(closed := true),
              consumers := s.consumers.(notifyAll := true),
              producers := s.producers.(notifyAll := true))
    case NotifyAllConsumers => s.(consumers := NotifyAll(s.consumers))
    case NotifyAllProducers => s.(producers := NotifyAll(s.producers))
  }

  function Init<T>(capacity: nat): State<T>
    requires capacity > 0
  {
    State(Queue(capacity, [], false), Side(map[], map[], 0, false), Side(map[], map[], 0, false), [], [])
  }

  function Exec<T>(s: State<T>, events: seq<Event<T>>): (o: Outcome<State<T>>)
    requires |s.queue.contents| <= s.queue.capacity
    decreases |events|
  {
    if events == [] then After(s)
    else if !Enabled(s, events[0]) then Stuck
    else Exec(Do(s, events[0]), events[1..])
  }

  // ---------------------------------------------------------------- FIFO

  ghost predicate Fifo<T>(s: State<T>) {
    s.pushed == s.popped + s.queue.contents && |s.queue.contents| <= s.queue.capacity
  }

  /** A finished push region appends at least one element and never exceeds the capacity. */
  lemma PushRegionAppends<T>(q: Queue<T>, call: PushCall<T>)
    requires |q.contents| <= q.capacity && PushOk(call)
    ensures var (q', verdict) := PushRegion(q, call);
      && q' == q.(contents := q'.contents)
      && (verdict.Done? ==>
            !q.closed && q.contents <= q'.contents && |q.contents| < |q'.contents| <= q.capacity
            && |q'.contents| - |q.contents| <= |call.values|
            && q'.contents[|q.contents|..] <= call.values)
      && (!verdict.Done? ==> q' == q)
  {
  }

  /** A finished pop region removes at least one element from the front. */
  lemma PopRegionRemoves<T>(q: Queue<T>, call: PopCall)
    requires PopOk(call)
    ensures var (q', verdict) := PopRegion(q, call);
      && q' == q.(contents := q'.contents)
      && (verdict.Done? ==>
            |q'.contents| < |q.contents| && |q.contents| - |q'.contents| <= call.count
            && q'.contents == q.contents[|q.contents| - |q'.contents|..])
      && (!verdict.Done? ==> q' == q)
  {
  }

  lemma AfterPushKeepsFifo<T>(s: State<T>, queue: Queue<T>)
    requires Fifo(s) && s.queue.contents <= queue.contents && |queue.contents| <= queue.capacity
    ensures Fifo(AfterPush(s, queue))
  {
    var added := queue.contents[|s.queue.contents|..];
    assert queue.contents == s.queue.contents + added;
    assert s.popped + (s.queue.contents + added) == (s.popped + s.queue.contents) + added;
  }

  lemma AfterPopKeepsFifo<T>(s: State<T>, queue: Queue<T>)
    requires Fifo(s) && |queue.contents| <= |s.queue.contents| <= queue.capacity
    requires queue.contents == s.queue.contents[|s.queue.contents| - |queue.contents|..]
    ensures Fifo(AfterPop(s, queue))
  {
    var removed := s.queue.contents[..|s.queue.contents| - |queue.contents|];
    assert s.queue.contents == removed + queue.contents;
    assert s.popped + (removed + queue.contents) == (s.popped + removed) + queue.contents;
  }

  lemma RunPushKeepsFifo<T>(s: State<T>, t: nat, call: PushCall<T>, expired: bool)
    requires Fifo(s) && PushOk(call)
    ensures var s' := RunPush(s, t, call, expired);
            Fifo(s') && s'.queue.capacity == s.queue.capacity && s'.queue.closed == s.queue.closed
            && (s.queue.closed ==> s'.pushed == s.pushed)
  {
    PushRegionAppends(s.queue, call);
    hide PushRegion;
    if PushRegion(s.queue, call).1.Done? {
      AfterPushKeepsFifo(s, PushRegion(s.queue, call).0);
    }
  }

  lemma RunPopKeepsFifo<T>(s: State<T>, t: nat, call: PopCall, expired: bool)
    requires Fifo(s) && PopOk(call)
    ensures var s' := RunPop(s, t, call, expired);
            Fifo(s') && s'.queue.capacity == s.queue.capacity && s'.queue.closed == s.queue.closed
            && s'.pushed == s.pushed
  {
    PopRegionRemoves(s.queue, call);
    hide PopRegion;
    if PopRegion(s.queue, call).1.Done? {
      AfterPopKeepsFifo(s, PopRegion(s.queue, call).0);
    }
  }

  /** The calls that threads wait with are well formed, and no thread waits twice. */
  ghost predicate SidesOk<T>(s: State<T>) {
    && s.consumers.waiting.Keys !! s.consumers.woken.Keys
    && s.producers.waiting.Keys !! s.producers.woken.Keys
    && (forall t :: t in s.consumers.waiting ==> PopOk(s.consumers.waiting[t]) && s.consumers.waiting[t].count > 0)
    && (forall t :: t in s.consumers.woken ==> PopOk(s.consumers.woken[t]) && s.consumers.woken[t].count > 0)
    && (forall t :: t in s.producers.waiting ==> PushOk(s.producers.waiting[t]) && s.producers.waiting[t].values != [])
    && (forall t :: t in s.producers.woken ==> PushOk(s.producers.woken[t]) && s.producers.woken[t].values != [])
  }

  lemma EventKeepsFifo<T>(s: State<T>, e: Event<T>)
    requires Fifo(s) && SidesOk(s) && Enabled(s, e)
    ensures Fifo(Do(s, e)) && Do(s, e).queue.capacity == s.queue.capacity
    ensures s.queue.closed ==> Do(s, e).queue.closed && Do(s, e).pushed == s.pushed
  {
    hide RunPush, RunPop, SidesOk, Wake, Notify, NotifyAll;
    match e
    case StartPush(t, call) => RunPushKeepsFifo(s, t, call, false);
    case ResumePush(t, expired) =>
      Calls(s);
      var s1 := s.(producers := Leave(s.producers, t));
      SameFifo(s, s1);
      RunPushKeepsFifo(s1, t, s.producers.woken[t], expired);
    case TryPush(value) => TryPushKeepsFifo(s, value);
    case StartPop(t, call) => RunPopKeepsFifo(s, t, call, false);
    case ResumePop(t, expired) =>
      Calls(s);
      var s1 := s.(consumers := Leave(s.consumers, t));
      SameFifo(s, s1);
      RunPopKeepsFifo(s1, t, s.consumers.woken[t], expired);
    case TryPop => TryPopKeepsFifo(s);
    case _ => SameFifo(s, Do(s, e));
  }

  lemma Calls<T>(s: State<T>)
    requires SidesOk(s)
    ensures forall t :: t in s.consumers.woken ==> PopOk(s.consumers.woken[t])
    ensures forall t :: t in s.producers.woken ==> PushOk(s.producers.woken[t])
  {
  }

  lemma SameFifo<T>(s: State<T>, s1: State<T>)
    requires Fifo(s) && s1.queue == s.queue.(closed := s1.queue.closed)
    requires s1.pushed == s.pushed && s1.popped == s.popped
    ensures Fifo(s1)
  {
  }

  lemma TryPushKeepsFifo<T>(s: State<T>, value: T)
    requires Fifo(s)
    ensures Fifo(Do(s, TryPush(value)))
  {
    if !s.queue.closed && |s.queue.contents| < s.queue.capacity {
      AfterPushKeepsFifo(s, s.queue.(contents := s.queue.contents + [value]));
    }
  }

  lemma TryPopKeepsFifo<T>(s: State<T>)
    requires Fifo(s)
    ensures Fifo(Do(s, TryPop))
  {
    if s.queue.contents != [] {
      AfterPopKeepsFifo(s, s.queue.(contents := s.queue.contents[1..]));
    }
  }

  lemma RunPushKeepsSides<T>(s: State<T>, t: nat, call: PushCall<T>, expired: bool)
    requires |s.queue.contents| <= s.queue.capacity
    requires SidesOk(s) && PushOk(call) && !Known(s.producers, t)
    ensures SidesOk(RunPush(s, t, call, expired))
  {
  }

  lemma RunPopKeepsSides<T>(s: State<T>, t: nat, call: PopCall, expired: bool)
    requires SidesOk(s) && PopOk(call) && !Known(s.consumers, t)
    ensures SidesOk(RunPop(s, t, call, expired))
  {
  }

  /** Waking and notifying only move threads from waiting to woken. */
  lemma WakingKeepsSides<T>(s: State<T>, e: Event<T>)
    requires |s.queue.contents| <= s.queue.capacity
    requires SidesOk(s) && Enabled(s, e)
    requires e.WakeProducer? || e.WakeConsumer? || e.NotifyProducer? || e.NotifyConsumer?
          || e.NotifyAllConsumers? || e.NotifyAllProducers?
    ensures SidesOk(Do(s, e))
  {
  }

  lemma TryingKeepsSides<T>(s: State<T>, e: Event<T>)
    requires |s.queue.contents| <= s.queue.capacity
    requires SidesOk(s) && Enabled(s, e) && (e.TryPush? || e.TryPop? || e.Close?)
    ensures SidesOk(Do(s, e))
  {
  }

  lemma LeavingKeepsSides<T>(s: State<T>, t: nat)
    requires SidesOk(s)
    ensures SidesOk(s.(producers := Leave(s.producers, t))) && SidesOk(s.(consumers := Leave(s.consumers, t)))
  {
  }

  lemma EventKeepsSides<T>(s: State<T>, e: Event<T>)
    requires |s.queue.contents| <= s.queue.capacity
    requires SidesOk(s) && Enabled(s, e)
    ensures SidesOk(Do(s, e))
  {
    hide RunPush, RunPop, SidesOk, Wake, Notify, NotifyAll;
    match e
    case StartPush(t, call) => RunPushKeepsSides(s, t, call, false);
    case ResumePush(t, expired) =>
      Calls(s);
      LeavingKeepsSides(s, t);
      Separate(s, t);
      RunPushKeepsSides(s.(producers := Leave(s.producers, t)), t, s.producers.woken[t], expired);
    case StartPop(t, call) => RunPopKeepsSides(s, t, call, false);
    case ResumePop(t, expired) =>
      Calls(s);
      LeavingKeepsSides(s, t);
      Separate(s, t);
      RunPopKeepsSides(s.(consumers := Leave(s.consumers, t)), t, s.consumers.woken[t], expired);
    case TryPush(_) => TryingKeepsSides(s, e);
    case TryPop => TryingKeepsSides(s, e);
    case Close => TryingKeepsSides(s, e);
    case _ => WakingKeepsSides(s, e);
  }

  lemma Separate<T>(s: State<T>, t: nat)
    requires SidesOk(s)
    ensures t in s.producers.woken ==> !Known(Leave(s.producers, t), t)
    ensures t in s.consumers.woken ==> !Known(Leave(s.consumers, t), t)
  {
  }

  /** Main result: in every run, batches, timeouts and close included, the elements pushed are the
      elements popped followed by the contents, in order, and the capacity is respected. */
  lemma {:induction false} RunKeepsFifo<T>(s: State<T>, events: seq<Event<T>>)
    requires Fifo(s) && SidesOk(s)
    ensures Exec(s, events).After? ==>
              var s' := Exec(s, events).state;
              && Fifo(s') && SidesOk(s') && s'.queue.capacity == s.queue.capacity
              && (s.queue.closed ==> s'.queue.closed && s'.pushed == s.pushed)
    decreases |events|
  {
    if events != [] && Enabled(s, events[0]) {
      EventKeepsFifo(s, events[0]);
      EventKeepsSides(s, events[0]);
      RunKeepsFifo(Do(s, events[0]), events[1..]);
    }
  }

  // ---------------------------------------------------------------- no stranded waiter

  /** Whoever waits although there is something for it: somebody awake, or a notification still to be
      made, accounts for each element (or each free slot). */
  predicate Covered<Call>(side: Side<Call>, available: int) {
    side.waiting != map[] ==> available <= |side.woken| + side.notify
  }

  predicate ConsumersCovered<T>(s: State<T>) {
    && Covered(s.consumers, |s.queue.contents|)
    && (s.queue.closed && s.consumers.waiting != map[] ==> s.consumers.notifyAll)
  }

  predicate ProducersCovered<T>(s: State<T>) {
    && (!s.queue.closed ==> Covered(s.producers, s.queue.capacity - |s.queue.contents|))
    && (s.queue.closed && s.producers.waiting != map[] ==> s.producers.notifyAll)
  }

  lemma WakeKeepsCovered<Call>(side: Side<Call>, t: nat, available: int)
    requires t in side.waiting && t !in side.woken && Covered(side, available)
    ensures Covered(Wake(side, t), available)
  {
    assert Wake(side, t).woken.Keys == side.woken.Keys + {t};
    assert |Wake(side, t).woken| == |side.woken| + 1;
  }

  lemma NotifyKeepsCovered<Call>(side: Side<Call>, target: Option<nat>, available: int)
    requires CanNotify(side, target) && side.waiting.Keys !! side.woken.Keys && Covered(side, available)
    ensures Covered(Notify(side, target), available)
  {
    if target.Some? {
      var t := target.value;
      assert Wake(side, t).woken.Keys == side.woken.Keys + {t};
      assert |Wake(side, t).woken| == |side.woken| + 1;
    }
  }

  /** A woken thread leaves after using up at least one of what is available. */
  lemma LeaveKeepsCovered<Call>(side: Side<Call>, t: nat, before: int, after: int)
    requires t in side.woken && Covered(side, before) && after < before
    ensures Covered(Leave(side, t), after)
  {
    assert Leave(side, t).woken.Keys == side.woken.Keys - {t};
    assert |Leave(side, t).woken| == |side.woken| - 1;
  }

  /** The push side never adds more than one element per notification. */
  predicate SmallPush<T>(capacity: nat, call: PushCall<T>) { |call.values| <= 1 || capacity == 1 }
  predicate SmallPop(capacity: nat, call: PopCall) { call.count <= 1 || capacity == 1 }

  ghost predicate PushesSmall<T>(s: State<T>) {
    && (forall t :: t in s.producers.waiting ==> SmallPush(s.queue.capacity, s.producers.waiting[t]))
    && (forall t :: t in s.producers.woken ==> SmallPush(s.queue.capacity, s.producers.woken[t]))
  }

  ghost predicate PopsSmall<T>(s: State<T>) {
    && (forall t :: t in s.consumers.waiting ==> SmallPop(s.queue.capacity, s.consumers.waiting[t]))
    && (forall t :: t in s.consumers.woken ==> SmallPop(s.queue.capacity, s.consumers.woken[t]))
  }

  lemma PushCoversConsumers<T>(s: State<T>, t: nat, call: PushCall<T>, expired: bool)
    requires Fifo(s) && PushOk(call) && ConsumersCovered(s) && SmallPush(s.queue.capacity, call)
    ensures ConsumersCovered(RunPush(s, t, call, expired))
  {
    PushRegionAppends(s.queue, call);
  }

  lemma PushKeepsProducersCovered<T>(s: State<T>, t: nat, call: PushCall<T>)
    requires Fifo(s) && PushOk(call) && ProducersCovered(s)
    ensures ProducersCovered(RunPush(s, t, call, false))
  {
    PushRegionAppends(s.queue, call);
  }

  /** A woken producer that pushes uses up a slot; one that goes back to waiting found none. */
  lemma ResumedPushKeepsProducersCovered<T>(s: State<T>, t: nat, expired: bool)
    requires Fifo(s) && SidesOk(s) && ProducersCovered(s) && t in s.producers.woken
    ensures ProducersCovered(ResumedPush(s, t, expired))
  {
    var call := s.producers.woken[t];
    PushRegionAppends(s.queue, call);
    if !s.queue.closed && |s.queue.contents| < s.queue.capacity {
      LeaveKeepsCovered(s.producers, t, s.queue.capacity - |s.queue.contents|,
                        s.queue.capacity - |PushRegion(s.queue, call).0.contents|);
    }
  }

  lemma PopCoversProducers<T>(s: State<T>, t: nat, call: PopCall, expired: bool)
    requires Fifo(s) && PopOk(call) && ProducersCovered(s) && SmallPop(s.queue.capacity, call)
    ensures ProducersCovered(RunPop(s, t, call, expired))
  {
    PopRegionRemoves(s.queue, call);
  }

  lemma PopKeepsConsumersCovered<T>(s: State<T>, t: nat, call: PopCall)
    requires Fifo(s) && PopOk(call) && ConsumersCovered(s)
    ensures ConsumersCovered(RunPop(s, t, call, false))
  {
    PopRegionRemoves(s.queue, call);
  }

  lemma ResumedPopKeepsConsumersCovered<T>(s: State<T>, t: nat, expired: bool)
    requires Fifo(s) && SidesOk(s) && ConsumersCovered(s) && t in s.consumers.woken
    ensures ConsumersCovered(ResumedPop(s, t, expired))
  {
    var call := s.consumers.woken[t];
    PopRegionRemoves(s.queue, call);
    if s.queue.contents != [] {
      LeaveKeepsCovered(s.consumers, t, |s.queue.contents|, |PopRegion(s.queue, call).0.contents|);
    }
  }

  /** The events that touch one side only, or neither. */
  lemma QuietEventKeepsCovered<T>(s: State<T>, e: Event<T>)
    requires Fifo(s) && SidesOk(s) && Enabled(s, e)
    requires !e.StartPush? && !e.ResumePush? && !e.StartPop? && !e.ResumePop?
    ensures ConsumersCovered(s) ==> ConsumersCovered(Do(s, e))
    ensures ProducersCovered(s) ==> ProducersCovered(Do(s, e))
  {
    if e.WakeProducer? && Covered(s.producers, s.queue.capacity - |s.queue.contents|) {
      WakeKeepsCovered(s.producers, e.t, s.queue.capacity - |s.queue.contents|);
    } else if e.WakeConsumer? && Covered(s.consumers, |s.queue.contents|) {
      WakeKeepsCovered(s.consumers, e.t, |s.queue.contents|);
    } else if e.NotifyProducer? && Covered(s.producers, s.queue.capacity - |s.queue.contents|) {
      NotifyKeepsCovered(s.producers, e.target, s.queue.capacity - |s.queue.contents|);
    } else if e.NotifyConsumer? && Covered(s.consumers, |s.queue.contents|) {
      NotifyKeepsCovered(s.consumers, e.target, |s.queue.contents|);
    }
  }

  /** The consumers stay covered as long as pushes are small. */
  lemma EventKeepsConsumersCovered<T>(s: State<T>, e: Event<T>)
    requires Fifo(s) && SidesOk(s) && Enabled(s, e) && ConsumersCovered(s) && PushesSmall(s)
    requires e.StartPush? ==> SmallPush(s.queue.capacity, e.push)
    ensures ConsumersCovered(Do(s, e))
  {
    hide RunPush, RunPop;
    match e
    case StartPush(t, call) => PushCoversConsumers(s, t, call, false);
    case ResumePush(t, expired) =>
      PushCoversConsumers(s.(producers := Leave(s.producers, t)), t, s.producers.woken[t], expired);
    case StartPop(t, call) => PopKeepsConsumersCovered(s, t, call);
    case ResumePop(t, expired) => ResumedPopKeepsConsumersCovered(s, t, expired);
    case _ => QuietEventKeepsCovered(s, e);
  }

  lemma EventKeepsProducersCovered<T>(s: State<T>, e: Event<T>)
    requires Fifo(s) && SidesOk(s) && Enabled(s, e) && ProducersCovered(s) && PopsSmall(s)
    requires e.StartPop? ==> SmallPop(s.queue.capacity, e.pop)
    ensures ProducersCovered(Do(s, e))
  {
    hide RunPush, RunPop;
    match e
    case StartPop(t, call) => PopCoversProducers(s, t, call, false);
    case ResumePop(t, expired) =>
      PopCoversProducers(s.(consumers := Leave(s.consumers, t)), t, s.consumers.woken[t], expired);
    case StartPush(t, call) => PushKeepsProducersCovered(s, t, call);
    case ResumePush(t, expired) => ResumedPushKeepsProducersCovered(s, t, expired);
    case _ => QuietEventKeepsCovered(s, e);
  }

  /** A lock region of one side leaves the threads of the other side where they are. */
  lemma SidesAreSeparate<T>(s: State<T>, t: nat, push: PushCall<T>, pop: PopCall, expired: bool)
    requires |s.queue.contents| <= s.queue.capacity && PushOk(push) && PopOk(pop)
    ensures var s1, s2 := RunPush(s, t, push, expired), RunPop(s, t, pop, expired);
      && s1.queue.capacity == s2.queue.capacity == s.queue.capacity
      && s1.consumers == s.consumers.(notify := s1.consumers.notify)
      && s2.producers == s.producers.(notify := s2.producers.notify)
      && (s1.producers == s.producers || s1.producers == Wait(s.producers, t, push))
      && (s2.consumers == s.consumers || s2.consumers == Wait(s.consumers, t, pop))
  {
    PushRegionAppends(s.queue, push);
    PopRegionRemoves(s.queue, pop);
    hide PushRegion, PopRegion;
  }

  lemma EventKeepsPushesSmall<T>(s: State<T>, e: Event<T>)
    requires Fifo(s) && SidesOk(s) && Enabled(s, e) && PushesSmall(s)
    requires e.StartPush? ==> SmallPush(s.queue.capacity, e.push)
    ensures PushesSmall(Do(s, e))
  {
    var anyPush, anyPop := PushCall([], true, false), PopCall(0, true, false);
    hide RunPush, RunPop, Fifo, SmallPush;
    if e.StartPush? {
      SidesAreSeparate(s, e.t, e.push, anyPop, false);
    } else if e.ResumePush? {
      SidesAreSeparate(s.(producers := Leave(s.producers, e.t)), e.t, s.producers.woken[e.t], anyPop, e.expired);
    } else if e.StartPop? {
      SidesAreSeparate(s, e.t, anyPush, e.pop, false);
    } else if e.ResumePop? {
      SidesAreSeparate(s.(consumers := Leave(s.consumers, e.t)), e.t, anyPush, s.consumers.woken[e.t], e.expired);
    }
  }

  lemma EventKeepsPopsSmall<T>(s: State<T>, e: Event<T>)
    requires Fifo(s) && SidesOk(s) && Enabled(s, e) && PopsSmall(s)
    requires e.StartPop? ==> SmallPop(s.queue.capacity, e.pop)
    ensures PopsSmall(Do(s, e))
  {
    var anyPush, anyPop := PushCall([], true, false), PopCall(0, true, false);
    hide RunPush, RunPop, Fifo, SmallPop;
    if e.StartPush? {
      SidesAreSeparate(s, e.t, e.push, anyPop, false);
    } else if e.ResumePush? {
      SidesAreSeparate(s.(producers := Leave(s.producers, e.t)), e.t, s.producers.woken[e.t], anyPop, e.expired);
    } else if e.StartPop? {
      SidesAreSeparate(s, e.t, anyPush, e.pop, false);
    } else if e.ResumePop? {
      SidesAreSeparate(s.(consumers := Leave(s.consumers, e.t)), e.t, anyPush, s.consumers.woken[e.t], e.expired);
    }
  }

  /** All pushes (or pops) of a run name at most `limit` elements. */
  ghost predicate PushesWithin<T>(events: seq<Event<T>>, limit: nat) {
    forall i :: 0 <= i < |events| && events[i].StartPush? ==> |events[i].push.values| <= limit
  }

  ghost predicate PopsWithin<T>(events: seq<Event<T>>, limit: nat) {
    forall i :: 0 <= i < |events| && events[i].StartPop? ==> events[i].pop.count <= limit
  }

  lemma {:induction false} ConsumersNeverStranded<T>(s: State<T>, events: seq<Event<T>>, limit: nat)
    requires Fifo(s) && SidesOk(s) && ConsumersCovered(s) && PushesSmall(s)
    requires PushesWithin(events, limit) && (limit <= 1 || s.queue.capacity == 1)
    ensures Exec(s, events).After? ==> ConsumersCovered(Exec(s, events).state)
    decreases |events|
  {
    if events != [] && Enabled(s, events[0]) {
      EventKeepsFifo(s, events[0]);
      EventKeepsSides(s, events[0]);
      EventKeepsConsumersCovered(s, events[0]);
      EventKeepsPushesSmall(s, events[0]);
      hide Do, Enabled, Fifo, SidesOk, ConsumersCovered, PushesSmall;
      ConsumersNeverStranded(Do(s, events[0]), events[1..], limit);
    }
  }

  lemma {:induction false} ProducersNeverStranded<T>(s: State<T>, events: seq<Event<T>>, limit: nat)
    requires Fifo(s) && SidesOk(s) && ProducersCovered(s) && PopsSmall(s)
    requires PopsWithin(events, limit) && (limit <= 1 || s.queue.capacity == 1)
    ensures Exec(s, events).After? ==> ProducersCovered(Exec(s, events).state)
    decreases |events|
  {
    if events != [] && Enabled(s, events[0]) {
      EventKeepsFifo(s, events[0]);
      EventKeepsSides(s, events[0]);
      EventKeepsProducersCovered(s, events[0]);
      EventKeepsPopsSmall(s, events[0]);
      hide Do, Enabled, Fifo, SidesOk, ProducersCovered, PopsSmall;
      ProducersNeverStranded(Do(s, events[0]), events[1..], limit);
    }
  }

  /** Somebody waits although there is something for it, and nobody is going to wake it. */
  predicate StrandedConsumer<T>(s: State<T>) {
    && s.consumers.waiting != map[] && s.consumers.woken == map[]
    && s.consumers.notify == 0 && !s.consumers.notifyAll
    && (s.queue.contents != [] || s.queue.closed)
  }

  predicate StrandedProducer<T>(s: State<T>) {
    && s.producers.waiting != map[] && s.producers.woken == map[]
    && s.producers.notify == 0 && !s.producers.notifyAll
    && (|s.queue.contents| < s.queue.capacity || s.queue.closed)
  }

  lemma DoFits<T>(s: State<T>, e: Event<T>)
    requires |s.queue.contents| <= s.queue.capacity && Enabled(s, e)
    ensures |Do(s, e).queue.contents| <= Do(s, e).queue.capacity
  {
    hide Wait, Wake, Notify, NotifyAll;
  }

  lemma {:induction false} RunOneMore<T>(s: State<T>, events: seq<Event<T>>, n: nat, middle: State<T>)
    requires |s.queue.contents| <= s.queue.capacity && |middle.queue.contents| <= middle.queue.capacity
    requires n < |events| && Exec(s, events[..n]) == After(middle) && Enabled(middle, events[n])
    ensures Exec(s, events[..n + 1]) == After(Do(middle, events[n]))
    decreases n
  {
    if n > 0 {
      DoFits(s, events[0]);
    }
    hide Do, Enabled;
    if n > 0 {
      assert events[..n][1..] == events[1..][..n - 1];
      assert events[..n + 1][1..] == events[1..][..n];
      RunOneMore(Do(s, events[0]), events[1..], n - 1, middle);
    }
  }

  /** push_batch adds two elements but notifies once: the second of two waiting consumers sleeps on. */
  function StrandConsumer<T>(v: T): seq<Event<T>> {
    [StartPop(0, PopCall(1, false, false)), StartPop(1, PopCall(1, false, false)),
     StartPush(2, PushCall([v, v], true, false)), NotifyConsumer(Some(0)), ResumePop(0, false)]
  }

  lemma BatchPushStrands<T>(capacity: nat, v: T)
    requires capacity >= 2
    ensures Exec(Init(capacity), StrandConsumer(v)).After?
    ensures StrandedConsumer(Exec(Init(capacity), StrandConsumer(v)).state)
  {
    var events, one := StrandConsumer(v), PopCall(1, false, false);
    var s0: State<T> := Init(capacity);
    RunOneMore(s0, events, 0, s0);
    var s1 := s0.(consumers := Side(map[0 := one], map[], 0, false));
    PopWaits(s0, 0);
    RunOneMore(s0, events, 1, s1);
    var s2 := s0.(consumers := Side(map[0 := one, 1 := one], map[], 0, false));
    PopWaits(s1, 1);
    RunOneMore(s0, events, 2, s2);
    var s3 := s2.(queue := Queue(capacity, [v, v], false), pushed := [v, v], consumers := s2.consumers.(notify := 1));
    PairPushed(s2, v);
    RunOneMore(s0, events, 3, s3);
    var s4 := s3.(consumers := Side(map[1 := one], map[0 := one], 0, false));
    assert Do(s3, events[3]) == s4;
    RunOneMore(s0, events, 4, s4);
    assert events[..5] == events;
  }

  lemma PopWaits<T>(s: State<T>, t: nat)
    requires !Known(s.consumers, t) && s.queue.contents == [] && !s.queue.closed
    ensures var call := PopCall(1, false, false);
            Do(s, StartPop(t, call)) == s.(consumers := s.consumers.(waiting := s.consumers.waiting[t := call]))
  {
  }

  lemma PairPushed<T>(s: State<T>, v: T)
    requires s.queue.contents == [] && !s.queue.closed && s.queue.capacity >= 2 && s.pushed == [] && !Known(s.producers, 2)
    ensures Do(s, StartPush(2, PushCall([v, v], true, false))) ==
            s.(queue := s.queue.(contents := [v, v]), pushed := [v, v],
               consumers := s.consumers.(notify := s.consumers.notify + 1))
  {
    assert [v, v][..2] == [v, v];
  }

  /** pop_batch frees two slots but notifies once: the second of two waiting producers sleeps on. */
  function StrandProducer<T>(capacity: nat, v: T): seq<Event<T>> {
    [StartPush(3, PushCall(seq(capacity, _ => v), true, false)),
     StartPush(0, PushCall([v], false, false)), StartPush(1, PushCall([v], false, false)),
     StartPop(2, PopCall(2, true, false)), NotifyProducer(Some(0)), ResumePush(0, false)]
  }

  lemma BatchPopStrands<T>(capacity: nat, v: T)
    requires capacity >= 2
    ensures Exec(Init(capacity), StrandProducer(capacity, v)).After?
    ensures StrandedProducer(Exec(Init(capacity), StrandProducer(capacity, v)).state)
  {
    var events, one, full := StrandProducer(capacity, v), PushCall([v], false, false), seq(capacity, _ => v);
    var s0: State<T> := Init(capacity);
    RunOneMore(s0, events, 0, s0);
    var s1 := s0.(queue := Queue(capacity, full, false), pushed := full, consumers := s0.consumers.(notify := 1));
    assert Do(s0, events[0]) == s1;
    RunOneMore(s0, events, 1, s1);
    var s2 := s1.(producers := Side(map[0 := one], map[], 0, false));
    RunOneMore(s0, events, 2, s2);
    var s3 := s1.(producers := Side(map[0 := one, 1 := one], map[], 0, false));
    RunOneMore(s0, events, 3, s3);
    var s4 := s3.(queue := Queue(capacity, full[2..], false), popped := full[..2], producers := s3.producers.(notify := 1));
    assert Do(s3, events[3]) == s4;
    RunOneMore(s0, events, 4, s4);
    var s5 := s4.(producers := Side(map[1 := one], map[0 := one], 0, false));
    assert Do(s4, events[4]) == s5;
    RunOneMore(s0, events, 5, s5);
    assert events[..6] == events;
  }

  /** Main result: no consumer is ever left asleep on a non-empty or closed queue, in any run with
      timeouts and spurious wake-ups, if and only if every push adds at most one element. */
  lemma NoConsumerStrandedExactly<T(!new)>(capacity: nat, limit: nat, v: T)
    requires capacity > 0
    ensures (limit <= 1 || capacity == 1) <==>
            forall events: seq<Event<T>> ::
              PushesWithin(events, limit) && Exec(Init(capacity), events).After? ==>
                !StrandedConsumer(Exec(Init(capacity), events).state)
  {
    if limit <= 1 || capacity == 1 {
      forall events: seq<Event<T>> | PushesWithin(events, limit) && Exec(Init(capacity), events).After?
        ensures !StrandedConsumer(Exec(Init(capacity), events).state)
      {
        ConsumersNeverStranded(Init(capacity), events, limit);
      }
    } else {
      BatchPushStrands(capacity, v);
      assert PushesWithin(StrandConsumer(v), limit);
    }
  }

  /** The dual for producers and batch pops. */
  lemma NoProducerStrandedExactly<T(!new)>(capacity: nat, limit: nat, v: T)
    requires capacity > 0
    ensures (limit <= 1 || capacity == 1) <==>
            forall events: seq<Event<T>> ::
              PopsWithin(events, limit) && Exec(Init(capacity), events).After? ==>
                !StrandedProducer(Exec(Init(capacity), events).state)
  {
    if limit <= 1 || capacity == 1 {
      forall events: seq<Event<T>> | PopsWithin(events, limit) && Exec(Init(capacity), events).After?
        ensures !StrandedProducer(Exec(Init(capacity), events).state)
      {
        ProducersNeverStranded(Init(capacity), events, limit);
      }
    } else {
      BatchPopStrands(capacity, v);
      assert PopsWithin(StrandProducer(capacity, v), limit);
    }
  }

  // ---------------------------------------------------------------- batches are repeated singles

  function PushEach<T>(q: Queue<T>, values: seq<T>): Queue<T>
    requires |q.contents| <= q.capacity
    decreases |values|
  {
    if values == [] then q else PushEach(PushRegion(q, PushCall([values[0]], false, false)).0, values[1..])
  }

  function PopEach<T>(q: Queue<T>, count: nat): Queue<T>
    decreases count
  {
    if count == 0 then q else PopEach(PopRegion(q, PopCall(1, false, false)).0, count - 1)
  }

  /** A batch push leaves what that many single pushes leave, refused ones included. */
  lemma {:induction false} BatchPushIsSingles<T>(q: Queue<T>, values: seq<T>, timed: bool)
    requires |q.contents| <= q.capacity
    ensures PushRegion(q, PushCall(values, true, timed)).0 == PushEach(q, values)
    decreases |values|
  {
    if values != [] {
      var q1 := PushRegion(q, PushCall([values[0]], false, false)).0;
      BatchPushIsSingles(q1, values[1..], timed);
      if !q.closed && |q.contents| < q.capacity {
        var k := Min(|values|, q.capacity - |q.contents|);
        assert values[..k] == [values[0]] + values[1..][..k - 1];
        assert q.contents + values[..k] == q1.contents + values[1..][..k - 1];
      }
    }
  }

  lemma {:induction false} BatchPopIsSingles<T>(q: Queue<T>, count: nat, timed: bool)
    ensures PopRegion(q, PopCall(count, true, timed)).0 == PopEach(q, count)
    decreases count
  {
    if count > 0 {
      BatchPopIsSingles(PopRegion(q, PopCall(1, false, false)).0, count - 1, timed);
    }
  }
}
