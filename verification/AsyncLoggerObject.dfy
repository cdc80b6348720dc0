/**
 The logger object on its real parts, when no other thread intervenes: log() through the ring, one pass
 of the worker from the ring through the batch buffer to the file, and the start and stop of its life.

 A record is the text it will be formatted to; texts are never empty.
 */
module AsyncLoggerObject {
  import opened Basics
  import opened AsyncLogger
  import Mpsc = MpscRing
  import Rotation = LogRotation

  type Text = t: seq<Byte> | t != [] witness [10]

  const BLANK: Text := [10]

  datatype Life = Created | Alive(phase: Phase)

  datatype LogResult = Filtered | Refused | Dropped | MustWait | Logged(thenFlush: bool)

  /** What a list of records will be in the file. */
  function Formatted(texts: seq<Text>): seq<Byte> {
    if texts == [] then [] else Rotation.Clipped(texts[0]) + Formatted(texts[1..])
  }

  lemma {:induction false} FormattedOne(texts: seq<Text>, text: Text)
    ensures Formatted(texts + [text]) == Formatted(texts) + Rotation.Clipped(text)
  {
    hide Rotation.Clipped;
    if texts == [] {
      assert [] + [text] == [text] && [text][1..] == [];
      assert Rotation.Clipped(text) + [] == [] + Rotation.Clipped(text);
    } else {
      assert (texts + [text])[1..] == texts[1..] + [text];
      FormattedOne(texts[1..], text);
      Associate(Rotation.Clipped(texts[0]), Formatted(texts[1..]), Rotation.Clipped(text));
    }
  }

  lemma Associate(a: seq<Byte>, b: seq<Byte>, c: seq<Byte>)
    ensures a + (b + c) == (a + b) + c
  {
  }

  lemma FormattedHead(text: Text, texts: seq<Text>)
    ensures Formatted([text] + texts) == Rotation.Clipped(text) + Formatted(texts)
  {
    assert ([text] + texts)[1..] == texts;
  }

  class Logger {
    const queue: Mpsc.MpscRingBuffer<Text>
    const output: Rotation.LogFile
    const policy: OverflowPolicy
    const minLevel: nat
    const errorLevel: nat
    const flushOnError: bool
    var life: Life
    var pendingCount: int
    var activeProducers: int
    var acceptedCount: nat
    var droppedCount: nat
    var lastFlushedCount: nat

    /** The records in the ring. */
    ghost function Queued(): seq<Text>
      reads queue, queue.cells
      requires Mpsc.Quiet(queue.Value())
    {
      Mpsc.Queue(queue.Value())
    }

    ghost predicate Valid()
      reads this, queue, queue.cells, output
    {
      && Mpsc.Quiet(queue.Value()) && output.Valid()
      && pendingCount == |Queued()| && activeProducers >= 0
      && acceptedCount == output.appended + |Queued()|
      && lastFlushedCount <= output.writtenCount
    }

    /** Everything accepted so far, in order: what rotation threw away, the files, the buffer, the ring. */
    ghost function Total(): seq<Byte>
      reads this, queue, queue.cells, output, output.activeBuffer
      requires Valid()
    {
      output.Output() + Formatted(Queued())
    }

    /** Two cells at least: with one the ring does not keep its records. */
    constructor (queueSize: nat, policy: OverflowPolicy, minLevel: nat, errorLevel: nat, flushOnError: bool,
                 existing: Rotation.Files, maxFileSize: nat, maxBackupFiles: nat, batchBufferSize: nat)
      requires queueSize >= 2 && batchBufferSize >= Rotation.FORMATTED_RECORD_SIZE
      ensures Valid() && life == Created && activeProducers == 0 && acceptedCount == 0
      ensures fresh(queue) && fresh(queue.cells) && fresh(output) && fresh(output.activeBuffer) && fresh(output.writeBuffer)
      ensures Total() == Rotation.Backups(existing, maxBackupFiles) + Rotation.Content(existing, 0)
    {
      this.policy, this.minLevel, this.errorLevel, this.flushOnError := policy, minLevel, errorLevel, flushOnError;
      life, pendingCount, activeProducers, acceptedCount, droppedCount, lastFlushedCount := Created, 0, 0, 0, 0, 0;
      queue := new Mpsc.MpscRingBuffer<Text>(queueSize, BLANK);
      output := new Rotation.LogFile(existing, maxFileSize, maxBackupFiles, batchBufferSize);
      new;
      Mpsc.InitKeepsInv(queueSize, BLANK);
      assert Queued() == [];
      assert output.Output() + [] == output.Output();
    }

    /** log() by thread t: every way out takes its own counts back; a blocked producer stays counted as
        active. An accepted record is behind everything accepted before. */
    method Log(t: nat, level: nat, text: Text, spuriousFailures: nat) returns (r: LogResult)
      requires Valid()
      modifies this`pendingCount, this`activeProducers, this`acceptedCount, this`droppedCount, queue, queue.cells
      ensures Valid()
      ensures r == (if level < minLevel then Filtered
                    else if life != Alive(Running) then Refused
                    else if |old(Queued())| < queue.cells.Length then Logged(flushOnError && level >= errorLevel)
                    else if policy == DropNewest then Dropped else MustWait)
      ensures Queued() == if r.Logged? then old(Queued()) + [text] else old(Queued())
      ensures Total() == if r.Logged? then old(Total()) + Rotation.Clipped(text) else old(Total())
      ensures activeProducers == old(activeProducers) + (if r == MustWait then 1 else 0)
      ensures droppedCount == old(droppedCount) + (if r == Dropped then 1 else 0)
    {
      hide Mpsc.Quiet, Mpsc.Inv, Mpsc.Queue, Formatted, Rotation.Clipped, Rotation.Backups;
      if level < minLevel {
        return Filtered;
      }
      if life != Alive(Running) {
        return Refused;
      }
      activeProducers := activeProducers + 1;
      pendingCount := pendingCount + 1;
      var ok := Offer(t, text, spuriousFailures);
      if !ok {
        pendingCount := pendingCount - 1;
        if policy == DropNewest {
          droppedCount := droppedCount + 1;
          activeProducers := activeProducers - 1;
          return Dropped;
        }
        return MustWait;
      }
      acceptedCount := acceptedCount + 1;
      activeProducers := activeProducers - 1;
      Associate(old(output.Output()), old(Formatted(Queued())), Rotation.Clipped(text));
      return Logged(flushOnError && level >= errorLevel);
    }

    /** The attempt to enqueue. */
    method Offer(t: nat, text: Text, spuriousFailures: nat) returns (ok: bool)
      requires Mpsc.Quiet(queue.Value())
      modifies queue, queue.cells
      ensures Mpsc.Quiet(queue.Value())
      ensures ok == (|old(Queued())| < queue.cells.Length)
      ensures Queued() == if ok then old(Queued()) + [text] else old(Queued())
      ensures Formatted(Queued()) ==
              if ok then old(Formatted(Queued())) + Rotation.Clipped(text) else old(Formatted(Queued()))
    {
      FormattedOne(Queued(), text);
      hide Mpsc.Quiet, Mpsc.Inv, Mpsc.Queue, Formatted, Rotation.Clipped;
      ok := queue.TryEnqueue(t, text, spuriousFailures);
    }

    /** The attempt to dequeue. */
    method TakeNext() returns (ok: bool, text: Text)
      requires Mpsc.Quiet(queue.Value())
      modifies queue, queue.cells
      ensures Mpsc.Quiet(queue.Value())
      ensures ok == (old(Queued()) != [])
      ensures if ok then old(Queued()) == [text] + Queued() else Queued() == []
      ensures ok ==> old(Formatted(Queued())) == Rotation.Clipped(text) + Formatted(Queued())
    {
      ghost var before := Queued();
      hide Mpsc.Quiet, Mpsc.Inv, Mpsc.Queue, Formatted, Rotation.Clipped;
      ok, text := queue.TryDequeue(BLANK);
      if ok {
        FormattedHead(text, Queued());
      }
    }

    /** One pass of the worker: drain the ring into the buffer and the file, decide, flush when due.
        True means the worker returns. When it returns on a stop, everything accepted is in the file. */
    method WorkerPass(flushRequested: bool) returns (exits: bool)
      requires Valid() && life.Alive?
      modifies this`pendingCount, this`lastFlushedCount, queue, queue.cells, output, output.activeBuffer, output.writeBuffer
      ensures Valid() && Queued() == [] && Total() == old(Total())
      ensures exits == (life.phase == Failed || (life.phase == Stopping && activeProducers == 0))
      ensures flushRequested || (exits && life.phase == Stopping) ==>
                output.activeBufferSize == 0 && lastFlushedCount == output.writtenCount == acceptedCount
    {
      DrainQueue();
      var stoppingAndDrained := life.phase == Stopping && pendingCount == 0 && activeProducers == 0;
      if flushRequested || stoppingAndDrained {
        output.WriteActiveBuffer();
        lastFlushedCount := output.writtenCount;
      }
      return stoppingAndDrained || life.phase == Failed;
    }

    /** The inner loop of the worker. */
    method DrainQueue()
      requires Valid()
      modifies this`pendingCount, queue, queue.cells, output, output.activeBuffer, output.writeBuffer
      ensures Valid() && Queued() == [] && Total() == old(Total())
      ensures {output.activeBuffer, output.writeBuffer} == {old(output.activeBuffer), old(output.writeBuffer)}
    {
      ghost var total := Total();
      var more := true;
      while more
        invariant Valid() && Total() == total && (!more ==> Queued() == [])
        invariant {output.activeBuffer, output.writeBuffer} == {old(output.activeBuffer), old(output.writeBuffer)}
        decreases more, |Queued()|
      {
        more := MoveOne();
      }
    }

    /** One record from the ring to the output; false when there is none. */
    method MoveOne() returns (moved: bool)
      requires Valid()
      modifies this`pendingCount, queue, queue.cells, output, output.activeBuffer, output.writeBuffer
      ensures Valid() && Total() == old(Total())
      ensures {output.activeBuffer, output.writeBuffer} == {old(output.activeBuffer), old(output.writeBuffer)}
      ensures if moved then |Queued()| < |old(Queued())| else Queued() == []
    {
      hide Mpsc.Quiet, Mpsc.Inv, Mpsc.Queue, Formatted, Rotation.Clipped, Rotation.Backups;
      ghost var bytes := output.Output();
      var ok, record := TakeNext();
      if !ok {
        return false;
      }
      pendingCount := pendingCount - 1;
      ghost var rest := Queued();
      output.AppendRecord(record);
      assert Queued() == rest;
      Associate(bytes, Rotation.Clipped(record), Formatted(rest));
      return true;
    }

    /** False where the source throws: started before, or stopped. */
    method Start() returns (started: bool)
      requires Valid()
      modifies this`life
      ensures Valid() && started == (old(life) == Created)
      ensures life == if started then Alive(Running) else old(life)
    {
      started := life == Created;
      if started {
        life := Alive(Running);
      }
    }

    /** stop() up to waking the worker; true means there is a worker to join. */
    method RequestStop() returns (joins: bool)
      requires Valid()
      modifies this`life
      ensures Valid() && joins == (old(life) != Created && old(life) != Alive(Stopped))
      ensures life == if old(life) == Created then Alive(Stopped)
                      else if old(life) == Alive(Running) then Alive(Stopping) else old(life)
    {
      if life == Created {
        life := Alive(Stopped);
        return false;
      }
      if life == Alive(Stopped) {
        return false;
      }
      if life == Alive(Running) {
        life := Alive(Stopping);
      }
      return true;
    }
  }
}
