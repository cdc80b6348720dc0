/** What each operation of the blocking queue answers, wherever other threads are. */
module QueueAnswers {
  import opened Basics
  import opened BlockingQueue

  function Least(a: int, b: int): int { if a <= b then a else b }

  /** A push that finds room adds as many of its values as fit, in order, behind the contents, and one
      notification for the consumers; nothing else changes. */
  predicate Pushes<T(==)>(s: State<T>, s': State<T>, values: seq<T>, producers: Side<PushCall<T>>) {
    var free := if s.queue.capacity >= |s.queue.contents| then s.queue.capacity - |s.queue.contents| else 0;
    var added := values[..Least(|values|, free)];
    s' == s.(queue := s.queue.(contents := s.queue.contents + added), pushed := s.pushed + added,
             producers := producers, consumers := s.consumers.(notify := s.consumers.notify + 1))
  }

  predicate Pops<T(==)>(s: State<T>, s': State<T>, count: nat, consumers: Side<PopCall>) {
    var n := Least(count, |s.queue.contents|);
    s' == s.(queue := s.queue.(contents := s.queue.contents[n..]), popped := s.popped + s.queue.contents[..n],
             consumers := consumers, producers := s.producers.(notify := s.producers.notify + 1))
  }

  lemma RunsPushExactly<T>(s: State<T>, t: nat, call: PushCall<T>, expired: bool)
    requires |s.queue.contents| <= s.queue.capacity
    ensures var s' := RunPush(s, t, call, expired);
      if s.queue.closed || (call.batch && call.values == []) then s' == s
      else if |s.queue.contents| < s.queue.capacity then Pushes(s, s', call.values, s.producers)
      else if expired then s' == s
      else s' == s.(producers := s.producers.(waiting := s.producers.waiting[t := call]))
  {
    var added := call.values[..Min(|call.values|, s.queue.capacity - |s.queue.contents|)];
    assert (s.queue.contents + added)[|s.queue.contents|..] == added;
  }

  lemma RunsPopExactly<T>(s: State<T>, t: nat, call: PopCall, expired: bool)
    ensures var s' := RunPop(s, t, call, expired);
      if call.batch && call.count == 0 then s' == s
      else if s.queue.contents != [] then Pops(s, s', call.count, s.consumers)
      else if s.queue.closed || expired then s' == s
      else s' == s.(consumers := s.consumers.(waiting := s.consumers.waiting[t := call]))
  {
  }

  /** A push is refused by a closed queue, succeeds when there is room and otherwise waits; after a wake-up it
      looks again, and a timed one whose time is over gives up without a trace. */
  lemma PushAnswers<T>(s: State<T>, e: Event<T>)
    requires |s.queue.contents| <= s.queue.capacity && Enabled(s, e) && (e.StartPush? || e.ResumePush?)
    ensures var call := if e.StartPush? then e.push else s.producers.woken[e.t];
      var before := if e.StartPush? then s.producers else s.producers.(woken := s.producers.woken - {e.t});
      var s' := Do(s, e);
      if s.queue.closed || (call.batch && call.values == []) then s' == s.(producers := before)
      else if |s.queue.contents| < s.queue.capacity then Pushes(s, s', call.values, before)
      else if e.ResumePush? && e.expired then s' == s.(producers := before)
      else s' == s.(producers := before.(waiting := before.waiting[e.t := call]))
  {
    if e.StartPush? {
      RunsPushExactly(s, e.t, e.push, false);
    } else {
      RunsPushExactly(s.(producers := Leave(s.producers, e.t)), e.t, s.producers.woken[e.t], e.expired);
    }
    hide RunPush;
  }

  /** A pop takes what is there, also from a closed queue; from an empty one it is refused when the queue is
      closed and otherwise waits. */
  lemma PopAnswers<T>(s: State<T>, e: Event<T>)
    requires |s.queue.contents| <= s.queue.capacity && Enabled(s, e) && (e.StartPop? || e.ResumePop?)
    ensures var call := if e.StartPop? then e.pop else s.consumers.woken[e.t];
      var before := if e.StartPop? then s.consumers else s.consumers.(woken := s.consumers.woken - {e.t});
      var s' := Do(s, e);
      if call.batch && call.count == 0 then s' == s.(consumers := before)
      else if s.queue.contents != [] then Pops(s, s', call.count, before)
      else if s.queue.closed || (e.ResumePop? && e.expired) then s' == s.(consumers := before)
      else s' == s.(consumers := before.(waiting := before.waiting[e.t := call]))
  {
    if e.StartPop? {
      RunsPopExactly(s, e.t, e.pop, false);
    } else {
      RunsPopExactly(s.(consumers := Leave(s.consumers, e.t)), e.t, s.consumers.woken[e.t], e.expired);
    }
    hide RunPop;
  }

  /** The operations that never wait, and close(). */
  lemma OthersAnswer<T>(s: State<T>, value: T)
    requires |s.queue.contents| <= s.queue.capacity
    ensures var s' := Do(s, TryPush(value));
            if !s.queue.closed && |s.queue.contents| < s.queue.capacity then Pushes(s, s', [value], s.producers) else s' == s
    ensures var s' := Do(s, TryPop); if s.queue.contents != [] then Pops(s, s', 1, s.consumers) else s' == s
    ensures var s' := Do(s, Close);
            if s.queue.closed then s' == s
            else s' == s.(queue := s.queue.(closed := true), consumers := s.consumers.(notifyAll := true),
                          producers := s.producers.(notifyAll := true))
  {
    assert [value][..1] == [value];
    assert (s.queue.contents + [value])[|s.queue.contents|..] == [value];
  }

  /** Main result: the answers of the object's lock regions are these: refused exactly by a closed queue (or an
      empty batch), waiting exactly at a full one, and otherwise the longest prefix that fits goes in. */
  lemma RegionsAnswer<T>(q: Queue<T>, push: PushCall<T>, pop: PopCall)
    requires |q.contents| <= q.capacity
    ensures var (q', verdict) := PushRegion(q, push);
      && (verdict.Refused? <==> q.closed || (push.batch && push.values == []))
      && (verdict.MustWait? <==> !q.closed && |q.contents| == q.capacity && !(push.batch && push.values == []))
      && (q'.closed, q'.capacity) == (q.closed, q.capacity)
      && q'.contents == q.contents + if verdict.Done? then
           push.values[..Least(|push.values|, q.capacity - |q.contents|)] else []
    ensures var (q', verdict) := PopRegion(q, pop);
      && (verdict.Refused? <==> (q.contents == [] && q.closed) || (pop.batch && pop.count == 0))
      && (verdict.MustWait? <==> q.contents == [] && !q.closed && !(pop.batch && pop.count == 0))
      && (q'.closed, q'.capacity) == (q.closed, q.capacity)
      && q'.contents == if verdict.Done? then q.contents[Least(pop.count, |q.contents|)..] else q.contents
  {
  }
}
