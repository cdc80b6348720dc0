/**
 The logger's output side: the batch buffer, the current file and the numbered backups.

 A file is the sequence of its bytes; index 0 is the current file and index i the backup with suffix
 i. Every file operation succeeds.
 */
module LogRotation {
  import opened Basics

  const FORMATTED_RECORD_SIZE: nat := 1024
  const NEWLINE: Byte := 10

  /** What format_record leaves in its buffer: a text too long is cut and ends in a newline. */
  function Clipped(text: seq<Byte>): (r: seq<Byte>)
    requires text != []
    ensures 0 < |r| < FORMATTED_RECORD_SIZE
    ensures |text| < FORMATTED_RECORD_SIZE ==> r == text
    ensures |text| >= FORMATTED_RECORD_SIZE ==>
              |r| == FORMATTED_RECORD_SIZE - 1 && r[|r| - 1] == NEWLINE && r[..|r| - 1] <= text
  {
    if |text| >= FORMATTED_RECORD_SIZE then text[..FORMATTED_RECORD_SIZE - 2] + [NEWLINE] else text
  }

  type Files = map<nat, seq<Byte>>

  function Content(files: Files, index: nat): seq<Byte> {
    if index in files then files[index] else []
  }

  /** The backups n, n - 1, ..., 1 one after the other: oldest first. */
  function Backups(files: Files, n: nat): seq<Byte> {
    if n == 0 then [] else Content(files, n) + Backups(files, n - 1)
  }

  /** Every backup has moved up by one and the current file has become backup 1. */
  ghost predicate ShiftedUp(before: Files, after: Files, max: nat) {
    && (forall i :: 1 <= i <= max ==> Content(after, i) == Content(before, i - 1))
    && (forall i :: i > max ==> Content(after, i) == Content(before, i))
  }

  lemma {:induction false} ShiftKeepsBytes(before: Files, after: Files, n: nat)
    requires n >= 1
    requires forall i :: 1 <= i <= n ==> Content(after, i) == Content(before, i - 1)
    ensures Backups(after, n) == Backups(before, n - 1) + Content(before, 0)
  {
    if n == 1 {
      assert Backups(after, 1) == Content(after, 1) + [];
    } else {
      ShiftKeepsBytes(before, after, n - 1);
      assert Content(before, n - 1) + (Backups(before, n - 2) + Content(before, 0))
          == (Content(before, n - 1) + Backups(before, n - 2)) + Content(before, 0);
    }
  }

  class LogFile {
    const maxFileSize: nat
    const maxBackupFiles: nat
    var files: Files
    var activeBuffer: array<Byte>
    var writeBuffer: array<Byte>
    var activeBufferSize: nat
    var activeRecordCount: nat
    var currentFileSize: nat
    var writtenCount: nat
    ghost var dropped: seq<Byte>      // everything rotation has thrown away
    ghost var appended: nat           // records appended so far

    ghost predicate Valid()
      reads this
    {
      && activeBuffer != writeBuffer
      && activeBuffer.Length == writeBuffer.Length >= FORMATTED_RECORD_SIZE
      && activeBufferSize <= activeBuffer.Length
      && (activeBufferSize == 0 <==> activeRecordCount == 0)
      && 0 in files && currentFileSize == |files[0]|
      && writtenCount + activeRecordCount == appended
    }

    ghost function Active(): seq<Byte>
      reads this, activeBuffer
      requires Valid()
    {
      activeBuffer[..activeBufferSize]
    }

    /** The records since the last rotation. */
    ghost function Generation(): seq<Byte>
      reads this, activeBuffer
      requires Valid()
    {
      files[0] + Active()
    }

    /** All output in order: what was thrown away, the backups oldest first, the current generation. */
    ghost function Output(): seq<Byte>
      reads this, activeBuffer
      requires Valid()
    {
      dropped + Backups(files, maxBackupFiles) + Generation()
    }

    /** start(): takes over the files that are there. */
    constructor (existing: Files, maxFileSize: nat, maxBackupFiles: nat, batchBufferSize: nat)
      requires batchBufferSize >= FORMATTED_RECORD_SIZE
      ensures Valid() && fresh(activeBuffer) && fresh(writeBuffer)
      ensures this.maxFileSize == maxFileSize && this.maxBackupFiles == maxBackupFiles
      ensures Output() == Backups(existing, maxBackupFiles) + Content(existing, 0) && dropped == []
      ensures appended == 0 && writtenCount == 0
    {
      this.maxFileSize, this.maxBackupFiles := maxFileSize, maxBackupFiles;
      files := existing[0 := Content(existing, 0)];
      currentFileSize := |Content(existing, 0)|;
      activeBuffer := new Byte[batchBufferSize](_ => 0);
      writeBuffer := new Byte[batchBufferSize](_ => 0);
      activeBufferSize, activeRecordCount, writtenCount := 0, 0, 0;
      dropped, appended := [], 0;
      new;
      SameBackups(existing, files, maxBackupFiles);
      assert Active() == [] && [] + Backups(files, maxBackupFiles) == Backups(files, maxBackupFiles);
      assert Generation() == Content(existing, 0);
    }

    method WriteActiveBuffer()
      requires Valid()
      modifies this
      ensures Valid() && activeBufferSize == 0 && {activeBuffer, writeBuffer} == {old(activeBuffer), old(writeBuffer)}
      ensures files == old(files)[0 := old(Generation())] && Generation() == old(Generation())
      ensures dropped == old(dropped) && appended == old(appended) && writtenCount >= old(writtenCount)
      ensures Output() == old(Output())
    {
      if activeBufferSize == 0 {
        assert files[0] == Generation();
        return;
      }
      ghost var was := Active();
      activeBuffer, writeBuffer := writeBuffer, activeBuffer;
      var writeSize, writeRecords := activeBufferSize, activeRecordCount;
      activeBufferSize, activeRecordCount := 0, 0;
      files := files[0 := files[0] + writeBuffer[..writeSize]];
      currentFileSize := currentFileSize + writeSize;
      writtenCount := writtenCount + writeRecords;
      SameBackups(old(files), files, maxBackupFiles);
      assert Generation() == files[0];
    }

    /** Removes the oldest backup and renames the others, last first, so that no rename overwrites. */
    method RenameBackups()
      requires maxBackupFiles > 0 && 0 in files
      modifies `files
      ensures 0 in files && files[0] == old(files[0]) && 1 !in files
      ensures forall i :: 2 <= i <= maxBackupFiles ==> Content(files, i) == Content(old(files), i - 1)
      ensures forall i :: i > maxBackupFiles ==> Content(files, i) == Content(old(files), i)
    {
      ghost var before := files;
      files := files - {maxBackupFiles};
      var index := maxBackupFiles;
      while index > 1
        invariant 1 <= index <= maxBackupFiles && index !in files
        invariant forall i :: index < i <= maxBackupFiles ==> Content(files, i) == Content(before, i - 1)
        invariant forall i :: i > maxBackupFiles ==> Content(files, i) == Content(before, i)
        invariant forall i :: 0 <= i < index ==> (i in files <==> i in before) && Content(files, i) == Content(before, i)
      {
        ghost var previous := files;
        assert Content(previous, index - 1) == Content(before, index - 1);
        if index - 1 in files {
          var renamed := files[index := files[index - 1]];
          files := renamed - {index - 1};
        }
        forall i | i > index ensures Content(files, i) == Content(previous, i) {
        }
        index := index - 1;
      }
    }

    /** The current file becomes backup 1, every backup moves up by one, the oldest is dropped. */
    method ShiftBackups()
      requires Valid() && maxBackupFiles > 0 && activeBufferSize == 0
      modifies `files, `currentFileSize, `dropped
      ensures Valid() && files[0] == []
      ensures ShiftedUp(old(files), files, maxBackupFiles)
      ensures dropped == old(dropped) + Content(old(files), maxBackupFiles)
      ensures Output() == old(Output())
    {
      ghost var before := files;
      dropped := dropped + Content(files, maxBackupFiles);
      RenameBackups();
      ghost var renamed := files;
      files := files[1 := files[0]];
      files := files[0 := []];
      currentFileSize := 0;
      forall i | 1 <= i <= maxBackupFiles ensures Content(files, i) == Content(before, i - 1) {
        assert i > 1 ==> Content(renamed, i) == Content(before, i - 1);
      }
      ShiftKeepsBytes(before, files, maxBackupFiles);
      assert old(Generation()) == before[0] && Generation() == [];
      Reassociate(old(dropped), Content(before, maxBackupFiles), Backups(before, maxBackupFiles - 1), before[0]);
    }

    lemma Reassociate(a: seq<Byte>, b: seq<Byte>, c: seq<Byte>, d: seq<Byte>)
      ensures (a + b) + (c + d) == a + (b + c) + d
      ensures (a + b) + (c + d) + [] == a + (b + c) + d
    {
    }

    /** Starts a new file when the next record would push this generation over the limit. */
    method RotateIfNeeded(nextRecordSize: nat)
      requires Valid()
      modifies this
      ensures Valid() && {activeBuffer, writeBuffer} == {old(activeBuffer), old(writeBuffer)}
      ensures appended == old(appended) && writtenCount >= old(writtenCount)
      ensures Output() == old(Output())
      ensures var full := maxFileSize > 0 && old(Generation()) != [] && |old(Generation())| + nextRecordSize > maxFileSize;
              if !full then Generation() == old(Generation()) && files == old(files) && dropped == old(dropped)
              else
                && Generation() == []
                && (if maxBackupFiles == 0 then dropped == old(dropped) + old(Generation())
                    else dropped == old(dropped) + Content(old(files), maxBackupFiles)
                         && ShiftedUp(old(files)[0 := old(Generation())], files, maxBackupFiles))
    {
      if || maxFileSize == 0
         || (currentFileSize == 0 && activeBufferSize == 0)
         || (&& currentFileSize <= maxFileSize
             && activeBufferSize <= maxFileSize - currentFileSize
             && nextRecordSize <= maxFileSize - currentFileSize - activeBufferSize)
      {
        return;
      }
      WriteActiveBuffer();
      if maxBackupFiles == 0 {
        dropped := dropped + files[0];
        files := files[0 := []];
        currentFileSize := 0;
        assert Generation() == [];
        return;
      }
      ShiftBackups();
      assert Generation() == [];
    }

    method PutInBuffer(formatted: seq<Byte>)
      requires Valid() && 0 < |formatted| && activeBufferSize + |formatted| <= activeBuffer.Length
      modifies `activeBufferSize, `activeRecordCount, `appended, activeBuffer
      ensures Valid() && appended == old(appended) + 1
      ensures Generation() == old(Generation()) + formatted
      ensures Output() == old(Output()) + formatted
    {
      var end := activeBufferSize + |formatted|;
      forall i | activeBufferSize <= i < end {
        activeBuffer[i] := formatted[i - activeBufferSize];
      }
      assert activeBuffer[..activeBufferSize] == old(Active());
      assert activeBuffer[..end] == activeBuffer[..activeBufferSize] + formatted;
      activeBufferSize := end;
      activeRecordCount := activeRecordCount + 1;
      appended := appended + 1;
      assert Generation() == old(Generation()) + formatted;
    }

    /** One record goes out. Nothing is lost or reordered but what rotation drops; with a size limit
        the generation stays within it or holds just this record. */
    method AppendRecord(text: seq<Byte>)
      requires Valid() && text != []
      modifies this, activeBuffer, writeBuffer
      ensures Valid() && {activeBuffer, writeBuffer} == {old(activeBuffer), old(writeBuffer)}
      ensures Output() == old(Output()) + Clipped(text)
      ensures appended == old(appended) + 1 && writtenCount >= old(writtenCount)
      ensures old(dropped) <= dropped
      ensures maxFileSize > 0 ==> |Generation()| <= maxFileSize || Generation() == Clipped(text)
      ensures var full := maxFileSize > 0 && old(Generation()) != []
                          && |old(Generation())| + |Clipped(text)| > maxFileSize;
              Generation() == (if full then Clipped(text) else old(Generation()) + Clipped(text))
              && (!full ==> dropped == old(dropped))
    {
      var formatted := Clipped(text);
      RotateIfNeeded(|formatted|);
      if activeBufferSize + |formatted| > activeBuffer.Length {
        WriteActiveBuffer();
      }
      PutInBuffer(formatted);
    }
  }

  lemma {:induction false} SameBackups(before: Files, after: Files, n: nat)
    requires forall i :: 1 <= i <= n ==> Content(after, i) == Content(before, i)
    ensures Backups(after, n) == Backups(before, n)
  {
    if n > 0 {
      SameBackups(before, after, n - 1);
    }
  }
}
