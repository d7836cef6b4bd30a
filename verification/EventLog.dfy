/**
 The rotating event log. A log is a row of files: number 0 is written to, number i is backup i. Rotation
 renames every file one place up, in place, with input and output errors possible at every point.

 A file is modelled as the chunks appended to it, one chunk per write call, so that a write cut short by
 an error is visible as a shorter chunk. Rename replaces its target atomically, and stat is exact.
 */
module EventLog {

  type Byte = b: int | 0 <= b < 256

  /** The bytes that one write call put into the file. */
  type Chunk = seq<Byte>

  type Disk = map<nat, seq<Chunk>>

  const DEFAULT_MAX_BYTES: nat := 8 * 1024 * 1024
  const DEFAULT_MAX_BACKUPS: nat := 5

  datatype Settings = Settings(maxBytes: nat, maxBackups: nat) {
    predicate Valid() {
      maxBytes > 0 && maxBackups > 0
    }
  }

  /** Non-positive options mean the defaults. */
  function SettingsFor(maxBytes: int, maxBackups: int): (r: Settings)
    ensures r.Valid()
    ensures r.maxBytes == maxBytes || (maxBytes <= 0 && r.maxBytes == DEFAULT_MAX_BYTES)
    ensures r.maxBackups == maxBackups || (maxBackups <= 0 && r.maxBackups == DEFAULT_MAX_BACKUPS)
  {
    Settings(if maxBytes <= 0 then DEFAULT_MAX_BYTES else maxBytes,
             if maxBackups <= 0 then DEFAULT_MAX_BACKUPS else maxBackups)
  }

  // ----- what a reader finds -----

  function Part(d: Disk, i: nat): seq<Chunk> {
    if i in d then d[i] else []
  }

  /** Backups from the oldest to the newest, then the current file. */
  function Retained(d: Disk, top: nat): seq<Chunk> {
    Part(d, top) + if top == 0 then [] else Retained(d, top - 1)
  }

  predicate IsSuffix<T(==)>(a: seq<T>, b: seq<T>) {
    |a| <= |b| && b[|b| - |a|..] == a
  }

  function Size(chunks: seq<Chunk>): nat {
    if chunks == [] then 0 else |chunks[0]| + Size(chunks[1..])
  }

  // ----- the state of a logger, and everything an observer ever saw -----

  datatype Snapshot = Snapshot(files: Disk, history: seq<Chunk>)

  /** `history` holds every chunk ever appended, `seen` every state of the disk with the history so far. */
  datatype Log = Log(files: Disk, open: bool, history: seq<Chunk>, seen: seq<Snapshot>)

  function Observe(l: Log): Log {
    l.(seen := l.seen + [Snapshot(l.files, l.history)])
  }

  /** Opening a log creates the current file if it is missing and takes what is there as its history. */
  function Open(d: Disk, maxBackups: nat): Log {
    var files := d[0 := Part(d, 0)];
    Observe(Log(files, true, Retained(files, maxBackups), []))
  }

  function Remove(l: Log, i: nat): Log {
    Observe(l.(files := l.files - {i}))
  }

  /** Rename file i to i+1, replacing what was there. */
  function Shift(l: Log, i: nat): Log
    requires i in l.files
  {
    Observe(l.(files := (l.files - {i})[i + 1 := l.files[i]]))
  }

  function Create(l: Log): Log {
    Observe(l.(files := l.files[0 := Part(l.files, 0)], open := true))
  }

  /** How much of a write reached the file. */
  datatype WriteOutcome = Full | Torn(kept: nat)

  function Kept(data: Chunk, w: WriteOutcome): Chunk {
    match w
    case Full => data
    case Torn(k) => if k < |data| then data[..k] else data
  }

  function Append(l: Log, data: Chunk, w: WriteOutcome): Log {
    var chunk := Kept(data, w);
    if chunk == [] then l
    else Observe(l.(files := l.files[0 := Part(l.files, 0) + [chunk]], history := l.history + [chunk]))
  }

  // ----- one write with its errors -----

  /** The outcome of every call to the file system that one Write may make. */
  datatype Io = Io(
    statOk: bool,
    closeOk: bool,
    openAfterFailedClose: bool,
    removeOk: bool,
    failingRename: int,
    reopenOk: bool,
    openOk: bool,
    marshalOk: bool,
    rotationRecord: Chunk,
    rotationWrite: WriteOutcome,
    rotationSyncOk: bool,
    write: WriteOutcome,
    syncOk: bool)

  const NO_FAILING_RENAME := -1

  predicate Clean(io: Io) {
    && io.statOk && io.closeOk && io.removeOk && io.failingRename == NO_FAILING_RENAME && io.openOk && io.marshalOk
    && io.rotationRecord != [] && io.rotationWrite.Full? && io.rotationSyncOk && io.write.Full? && io.syncOk
  }

  /** The descending loop over the backups, from backup i; the result says whether it got through. */
  function ShiftFrom(l: Log, n: nat, i: nat, io: Io): (Log, bool)
    decreases i
  {
    if i == 0 then (l, true)
    else if i == n then ShiftFrom(if io.removeOk then Remove(l, i) else l, n, i - 1, io)
    else if i !in l.files then ShiftFrom(l, n, i - 1, io)
    else if io.failingRename == i then (l, false)
    else ShiftFrom(Shift(l, i), n, i - 1, io)
  }

  function Reopen(l: Log, io: Io): Log {
    if io.reopenOk then Create(l) else l
  }

  predicate NeedsRotation(l: Log, c: Settings, next: nat) {
    Size(Part(l.files, 0)) + next > c.maxBytes
  }

  /** The part of rotation after every file has moved up. */
  function StartFile(l: Log, io: Io): (Log, bool) {
    if !io.openOk then (l, false)
    else if !io.marshalOk then (Create(l), false)
    else (Append(Create(l), io.rotationRecord, io.rotationWrite), io.rotationWrite.Full? && io.rotationSyncOk)
  }

  function MoveFiles(l: Log, n: nat, io: Io): (Log, bool) {
    var (shifted, ok) := ShiftFrom(l, n, n, io);
    if !ok then (shifted, false)
    else if 0 !in shifted.files then (shifted, true)
    else if io.failingRename == 0 then (shifted, false)
    else (Shift(shifted, 0), true)
  }

  function Rotated(l: Log, c: Settings, next: nat, io: Io): (Log, bool) {
    if !io.statOk || !l.open then (l, false)
    else if !NeedsRotation(l, c, next) then (l, true)
    else if !io.closeOk then (l.(open := io.openAfterFailedClose), false)
    else
      var (moved, ok) := MoveFiles(l.(open := false), c.maxBackups, io);
      if !ok then (Reopen(moved, io), false)
      else StartFile(moved, io)
  }

  function Written(l: Log, c: Settings, data: Chunk, io: Io): (Log, bool) {
    var (r, ok) := Rotated(l, c, |data|, io);
    if !ok then (r, false) else (Append(r, data, io.write), io.write.Full? && io.syncOk)
  }

  /** Any number of writes, each with its own errors. */
  function Run(l: Log, c: Settings, writes: seq<(Chunk, Io)>): Log {
    if writes == [] then l
    else
      var k := |writes| - 1;
      Written(Run(l, c, writes[..k]), c, writes[k].0, writes[k].1).0
  }

  // ----- suffixes -----

  lemma {:induction false} SuffixTrans<T>(a: seq<T>, b: seq<T>, c: seq<T>)
    requires IsSuffix(a, b) && IsSuffix(b, c)
    ensures IsSuffix(a, c)
  {
    assert c[|c| - |a|..] == c[|c| - |b|..][|b| - |a|..];
  }

  lemma {:induction false} SuffixAppend<T>(a: seq<T>, b: seq<T>, x: seq<T>)
    requires IsSuffix(a, b)
    ensures IsSuffix(a + x, b + x)
  {
    assert (b + x)[|b + x| - |a + x|..] == b[|b| - |a|..] + x;
  }

  lemma {:induction false} SuffixOfConcat<T>(a: seq<T>, b: seq<T>)
    ensures IsSuffix(b, a + b)
  {
  }

  // ----- reading and the elementary operations -----

  lemma {:induction false} RetainedSame(d: Disk, e: Disk, top: nat)
    requires forall j: nat :: j <= top ==> Part(d, j) == Part(e, j)
    ensures Retained(d, top) == Retained(e, top)
  {
    if top > 0 {
      RetainedSame(d, e, top - 1);
    }
  }

  lemma {:induction false} RetainedMonotone(d: Disk, low: nat, top: nat)
    requires low <= top
    ensures IsSuffix(Retained(d, low), Retained(d, top))
    decreases top
  {
    if low < top {
      RetainedMonotone(d, low, top - 1);
      SuffixOfConcat(Part(d, top), Retained(d, top - 1));
      SuffixTrans(Retained(d, low), Retained(d, top - 1), Retained(d, top));
    }
  }

  /** Moving file i into an empty place i+1 changes nothing for a reader. */
  lemma {:induction false} ShiftIntoGap(l: Log, i: nat, top: nat)
    requires i in l.files && Part(l.files, i + 1) == [] && i < top
    ensures Retained(Shift(l, i).files, top) == Retained(l.files, top)
    decreases top
  {
    var d, e := l.files, Shift(l, i).files;
    if i + 1 < top {
      ShiftIntoGap(l, i, top - 1);
    } else {
      assert Part(e, i + 1) == Part(d, i) && Part(e, i) == [];
      if i > 0 {
        RetainedSame(d, e, i - 1);
      }
    }
  }

  /** Moving a file onto the last backup drops that backup and nothing else. */
  lemma {:induction false} ShiftOntoLast(l: Log, i: nat)
    requires i in l.files
    ensures Retained(Shift(l, i).files, i + 1) == Retained(l.files, i)
  {
    var d, e := l.files, Shift(l, i).files;
    assert Part(e, i + 1) == Part(d, i) && Part(e, i) == [];
    if i == 0 {
      assert Retained(e, 0) == [];
    } else {
      RetainedSame(d, e, i - 1);
      assert Retained(e, i) == [] + Retained(d, i - 1);
      assert Retained(d, i) == Part(d, i) + Retained(d, i - 1);
    }
    assert Retained(e, i + 1) == Part(e, i + 1) + Retained(e, i);
  }

  // ----- at every moment, a suffix of everything ever appended -----

  ghost predicate Faithful(d: Disk, history: seq<Chunk>, n: nat) {
    IsSuffix(Retained(d, n), history)
  }

  /** What an earlier look at the disk found, was true then; the history has only grown since. */
  ghost predicate FaithfulSnapshot(s: Snapshot, history: seq<Chunk>, n: nat) {
    Faithful(s.files, s.history, n) && s.history <= history
  }

  ghost predicate Good(l: Log, n: nat) {
    && Faithful(l.files, l.history, n)
    && (forall k :: 0 <= k < |l.seen| ==> FaithfulSnapshot(l.seen[k], l.history, n))
    && (l.open ==> 0 in l.files)
  }

  lemma {:induction false} OpenGood(d: Disk, n: nat)
    ensures Good(Open(d, n), n)
  {
  }

  lemma {:induction false} RemoveReads(d: Disk, n: nat)
    requires n > 0
    ensures Retained(d - {n}, n) == Retained(d, n - 1)
  {
    RetainedSame(d, d - {n}, n - 1);
    assert Part(d - {n}, n) == [];
  }

  /** Recording the present state of the disk needs only that it is faithful now. */
  lemma {:induction false} ObserveGood(l: Log, m: Log, n: nat)
    requires Good(l, n) && m.seen == l.seen && l.history <= m.history
    requires Faithful(m.files, m.history, n) && (m.open ==> 0 in m.files)
    ensures Good(Observe(m), n)
  {
    forall k | 0 <= k < |Observe(m).seen|
      ensures FaithfulSnapshot(Observe(m).seen[k], m.history, n)
    {
      if k < |l.seen| {
        assert FaithfulSnapshot(l.seen[k], l.history, n);
      }
    }
  }

  lemma {:induction false} RemoveGood(l: Log, n: nat)
    requires Good(l, n) && n > 0
    ensures Good(Remove(l, n), n)
  {
    RemoveReads(l.files, n);
    RetainedMonotone(l.files, n - 1, n);
    SuffixTrans(Retained(l.files, n - 1), Retained(l.files, n), l.history);
    ObserveGood(l, l.(files := l.files - {n}), n);
  }

  lemma {:induction false} ShiftGood(l: Log, n: nat, i: nat)
    requires Good(l, n) && i in l.files && i < n && !l.open
    requires i + 1 == n || i + 1 !in l.files
    ensures Good(Shift(l, i), n)
  {
    if i + 1 !in l.files {
      ShiftIntoGap(l, i, n);
    } else {
      ShiftOntoLast(l, i);
      RetainedMonotone(l.files, i, n);
      SuffixTrans(Retained(l.files, i), Retained(l.files, n), l.history);
    }
    ObserveGood(l, l.(files := (l.files - {i})[i + 1 := l.files[i]]), n);
  }

  lemma {:induction false} CreateGood(l: Log, n: nat)
    requires Good(l, n)
    ensures Good(Create(l), n)
  {
    var files := l.files[0 := Part(l.files, 0)];
    RetainedSame(l.files, files, n);
    ObserveGood(l, l.(files := files, open := true), n);
  }

  lemma {:induction false} AppendReads(d: Disk, chunk: Chunk, top: nat)
    ensures Retained(d[0 := Part(d, 0) + [chunk]], top) == Retained(d, top) + [chunk]
  {
    var e := d[0 := Part(d, 0) + [chunk]];
    if top > 0 {
      AppendReads(d, chunk, top - 1);
      assert Part(e, top) == Part(d, top);
      calc {
        Retained(e, top);
        Part(d, top) + Retained(e, top - 1);
        Part(d, top) + (Retained(d, top - 1) + [chunk]);
        (Part(d, top) + Retained(d, top - 1)) + [chunk];
        Retained(d, top) + [chunk];
      }
    }
  }

  lemma {:induction false} AppendGood(l: Log, n: nat, data: Chunk, w: WriteOutcome)
    requires Good(l, n)
    ensures Good(Append(l, data, w), n)
  {
    var chunk := Kept(data, w);
    if chunk != [] {
      AppendReads(l.files, chunk, n);
      SuffixAppend(Retained(l.files, n), l.history, [chunk]);
      ObserveGood(l, l.(files := l.files[0 := Part(l.files, 0) + [chunk]], history := l.history + [chunk]), n);
    }
  }

  /** The loop: when backup i is handled, place i+1 is free or is the last one. */
  lemma {:induction false} ShiftFromGood(l: Log, n: nat, i: nat, io: Io)
    requires Good(l, n) && !l.open && i <= n && n > 0
    requires i + 1 < n ==> i + 1 !in l.files
    ensures var (r, ok) := ShiftFrom(l, n, i, io); Good(r, n) && !r.open && (ok ==> n == 1 || 1 !in r.files)
    decreases i
  {
    if i > 0 {
      if i == n {
        if io.removeOk {
          RemoveGood(l, n);
        }
        ShiftFromGood(if io.removeOk then Remove(l, i) else l, n, i - 1, io);
      } else if i !in l.files {
        ShiftFromGood(l, n, i - 1, io);
      } else if io.failingRename != i {
        ShiftGood(l, n, i);
        ShiftFromGood(Shift(l, i), n, i - 1, io);
      }
    }
  }

  lemma {:induction false} MoveFilesGood(l: Log, n: nat, io: Io)
    requires Good(l, n) && !l.open && n > 0
    ensures Good(MoveFiles(l, n, io).0, n) && !MoveFiles(l, n, io).0.open
  {
    ShiftFromGood(l, n, n, io);
    var (shifted, ok) := ShiftFrom(l, n, n, io);
    if ok && 0 in shifted.files && io.failingRename != 0 {
      ShiftGood(shifted, n, 0);
    }
  }

  /** One write, whatever fails in it, keeps every snapshot faithful. */
  lemma {:induction false} WrittenGood(l: Log, c: Settings, data: Chunk, io: Io)
    requires Good(l, c.maxBackups) && c.Valid()
    ensures Good(Written(l, c, data, io).0, c.maxBackups)
  {
    var n := c.maxBackups;
    var (r, ok) := Rotated(l, c, |data|, io);
    if io.statOk && l.open && NeedsRotation(l, c, |data|) && io.closeOk {
      MoveFilesGood(l.(open := false), n, io);
      var (moved, moveOk) := MoveFiles(l.(open := false), n, io);
      CreateGood(moved, n);
      AppendGood(Create(moved), n, io.rotationRecord, io.rotationWrite);
    }
    if ok {
      AppendGood(r, n, data, io.write);
    }
  }

  /**
   The log refines an append-only sequence: in every state of the disk that any run of writes passes
   through, with errors anywhere, a reader of the backups and the current file finds a suffix, in order,
   of everything appended until then.
   */
  lemma {:induction false} AlwaysASuffix(d: Disk, c: Settings, writes: seq<(Chunk, Io)>)
    requires c.Valid()
    ensures
      var l := Run(Open(d, c.maxBackups), c, writes);
      && Faithful(l.files, l.history, c.maxBackups)
      && (forall k :: 0 <= k < |l.seen| ==> FaithfulSnapshot(l.seen[k], l.history, c.maxBackups))
    decreases |writes|
  {
    RunGood(Open(d, c.maxBackups), c, writes);
  }

  lemma {:induction false} RunGood(l: Log, c: Settings, writes: seq<(Chunk, Io)>)
    requires Good(l, c.maxBackups) && c.Valid()
    ensures Good(Run(l, c, writes), c.maxBackups)
    decreases |writes|
  {
    if writes != [] {
      var k := |writes| - 1;
      RunGood(l, c, writes[..k]);
      WrittenGood(Run(l, c, writes[..k]), c, writes[k].0, writes[k].1);
    }
  }
}
