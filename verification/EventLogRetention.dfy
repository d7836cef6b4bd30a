/**
 How long a record stays and how much space the log takes, and the logger object itself.
 */
module EventLogRetention {
  import opened EventLog

  // ----- files above the highest backup number are never touched -----

  /** In every state of the disk so far, place j held p. */
  ghost predicate Holds(l: Log, j: nat, p: seq<Chunk>) {
    Part(l.files, j) == p && forall k :: 0 <= k < |l.seen| ==> Part(l.seen[k].files, j) == p
  }

  lemma {:induction false} ShiftFromHolds(l: Log, n: nat, i: nat, io: Io, j: nat, p: seq<Chunk>)
    requires i <= n && j > n && Holds(l, j, p)
    ensures Holds(ShiftFrom(l, n, i, io).0, j, p)
    decreases i
  {
    if i > 0 {
      if i == n {
        ShiftFromHolds(if io.removeOk then Remove(l, i) else l, n, i - 1, io, j, p);
      } else if i !in l.files {
        ShiftFromHolds(l, n, i - 1, io, j, p);
      } else if io.failingRename != i {
        ShiftFromHolds(Shift(l, i), n, i - 1, io, j, p);
      }
    }
  }

  lemma {:induction false} RotatedHolds(l: Log, c: Settings, next: nat, io: Io, j: nat, p: seq<Chunk>)
    requires c.Valid() && j > c.maxBackups && Holds(l, j, p)
    ensures Holds(Rotated(l, c, next, io).0, j, p)
  {
    hide ShiftFrom;
    var closed := l.(open := false);
    assert Holds(closed, j, p);
    ShiftFromHolds(closed, c.maxBackups, c.maxBackups, io, j, p);
    var moved := MoveFiles(closed, c.maxBackups, io).0;
    assert Holds(moved, j, p);
    assert Holds(Create(moved), j, p);
  }

  lemma {:induction false} RunHolds(l: Log, c: Settings, writes: seq<(Chunk, Io)>, j: nat, p: seq<Chunk>)
    requires c.Valid() && j > c.maxBackups && Holds(l, j, p)
    ensures Holds(Run(l, c, writes), j, p)
    decreases |writes|
  {
    if writes != [] {
      hide Rotated;
      var k := |writes| - 1;
      RunHolds(l, c, writes[..k], j, p);
      RotatedHolds(Run(l, c, writes[..k]), c, |writes[k].0|, writes[k].1, j, p);
    }
  }

  /** Reading more places finds the same exactly if the additional places hold nothing. */
  lemma {:induction false} ReadingFurther(d: Disk, n: nat, m: nat)
    requires n <= m
    ensures |Retained(d, n)| <= |Retained(d, m)|
    ensures |Retained(d, n)| == |Retained(d, m)| <==> forall j: nat :: n < j <= m ==> Part(d, j) == []
    ensures (forall j: nat :: n < j <= m ==> Part(d, j) == []) ==> Retained(d, m) == Retained(d, n)
    decreases m
  {
    if n < m {
      ReadingFurther(d, n, m - 1);
      assert |Retained(d, m)| == |Part(d, m)| + |Retained(d, m - 1)|;
      if forall j: nat :: n < j <= m ==> Part(d, j) == [] {
        assert Part(d, m) == [];
      }
      if |Retained(d, n)| == |Retained(d, m)| {
        assert Part(d, m) == [];
      }
    }
  }

  /**
   A reader of five backups and the current file finds, in every state of the disk during any run, exactly
   what the logger retains, if and only if the disk held no backup beyond the logger's highest number.
   */
  lemma {:induction false} ReaderSeesAllIff(d: Disk, c: Settings, writes: seq<(Chunk, Io)>)
    requires c.Valid() && c.maxBackups <= DEFAULT_MAX_BACKUPS
    ensures
      var l := Run(Open(d, c.maxBackups), c, writes);
      && l.seen != []
      && forall k :: 0 <= k < |l.seen| ==>
           (Retained(l.seen[k].files, DEFAULT_MAX_BACKUPS) == Retained(l.seen[k].files, c.maxBackups) <==>
            forall j: nat :: c.maxBackups < j <= DEFAULT_MAX_BACKUPS ==> Part(d, j) == [])
  {
    var first := Open(d, c.maxBackups);
    var l := Run(first, c, writes);
    RunSees(first, c, writes);
    forall k | 0 <= k < |l.seen|
      ensures Retained(l.seen[k].files, DEFAULT_MAX_BACKUPS) == Retained(l.seen[k].files, c.maxBackups) <==>
              forall j: nat :: c.maxBackups < j <= DEFAULT_MAX_BACKUPS ==> Part(d, j) == []
    {
      ReadingFurther(l.seen[k].files, c.maxBackups, DEFAULT_MAX_BACKUPS);
      forall j: nat | c.maxBackups < j
        ensures Part(l.seen[k].files, j) == Part(d, j)
      {
        RunHolds(first, c, writes, j, Part(d, j));
      }
    }
  }

  /** The last thing an observer saw is the disk as it is. */
  ghost predicate UpToDate(l: Log) {
    l.seen != [] && l.seen[|l.seen| - 1] == Snapshot(l.files, l.history)
  }

  lemma {:induction false} ShiftFromSees(l: Log, n: nat, i: nat, io: Io)
    requires UpToDate(l)
    ensures UpToDate(ShiftFrom(l, n, i, io).0)
    decreases i
  {
    if i > 0 {
      if i == n {
        ShiftFromSees(if io.removeOk then Remove(l, i) else l, n, i - 1, io);
      } else if i !in l.files {
        ShiftFromSees(l, n, i - 1, io);
      } else if io.failingRename != i {
        ShiftFromSees(Shift(l, i), n, i - 1, io);
      }
    }
  }

  lemma {:induction false} RotatedSees(l: Log, c: Settings, next: nat, io: Io)
    requires UpToDate(l)
    ensures UpToDate(Rotated(l, c, next, io).0)
  {
    hide ShiftFrom;
    var closed := l.(open := false);
    ShiftFromSees(closed, c.maxBackups, c.maxBackups, io);
    var moved := MoveFiles(closed, c.maxBackups, io).0;
    assert UpToDate(moved);
    assert UpToDate(Create(moved));
  }

  lemma {:induction false} RunSees(l: Log, c: Settings, writes: seq<(Chunk, Io)>)
    requires UpToDate(l)
    ensures UpToDate(Run(l, c, writes))
    decreases |writes|
  {
    if writes != [] {
      hide Rotated;
      var k := |writes| - 1;
      RunSees(l, c, writes[..k]);
      RotatedSees(Run(l, c, writes[..k]), c, |writes[k].0|, writes[k].1);
    }
  }

  /** What stands in the places above n, up to place top. */
  function Leftovers(d: Disk, n: nat, top: nat): seq<Chunk> {
    if top <= n then [] else Part(d, top) + Leftovers(d, n, top - 1)
  }

  lemma {:induction false} RetainedSplits(d: Disk, e: Disk, n: nat, top: nat)
    requires n <= top && forall j: nat :: n < j ==> Part(e, j) == Part(d, j)
    ensures Retained(e, top) == Leftovers(d, n, top) + Retained(e, n)
    decreases top
  {
    if n < top {
      RetainedSplits(d, e, n, top - 1);
    }
  }

  function Min(a: nat, b: nat): nat {
    if a < b then a else b
  }

  /**
   In every state of the disk, during any run, the reader finds a suffix of everything appended until then,
   after whatever lay in places that the logger does not use when it was opened.
   */
  lemma {:induction false} ReaderAlwaysSeesSuffix(d: Disk, c: Settings, writes: seq<(Chunk, Io)>)
    requires c.Valid()
    ensures
      var l := Run(Open(d, c.maxBackups), c, writes);
      var used := Min(c.maxBackups, DEFAULT_MAX_BACKUPS);
      && UpToDate(l)
      && forall k :: 0 <= k < |l.seen| ==>
           && FaithfulSnapshot(l.seen[k], l.history, used)
           && Retained(l.seen[k].files, DEFAULT_MAX_BACKUPS) ==
              Leftovers(d, c.maxBackups, DEFAULT_MAX_BACKUPS) + Retained(l.seen[k].files, used)
  {
    hide Run, Leftovers;
    AlwaysASuffix(d, c, writes);
    RunSees(Open(d, c.maxBackups), c, writes);
    var l := Run(Open(d, c.maxBackups), c, writes);
    forall k | 0 <= k < |l.seen|
      ensures
        && FaithfulSnapshot(l.seen[k], l.history, Min(c.maxBackups, DEFAULT_MAX_BACKUPS))
        && Retained(l.seen[k].files, DEFAULT_MAX_BACKUPS) ==
           Leftovers(d, c.maxBackups, DEFAULT_MAX_BACKUPS)
           + Retained(l.seen[k].files, Min(c.maxBackups, DEFAULT_MAX_BACKUPS))
    {
      assert FaithfulSnapshot(l.seen[k], l.history, c.maxBackups);
      ReaderAtMoment(d, c, writes, k);
    }
  }

  lemma {:induction false} ReaderAtMoment(d: Disk, c: Settings, writes: seq<(Chunk, Io)>, k: nat)
    requires c.Valid() && k < |Run(Open(d, c.maxBackups), c, writes).seen|
    requires
      var s := Run(Open(d, c.maxBackups), c, writes).seen[k];
      Faithful(s.files, s.history, c.maxBackups)
    ensures
      var s := Run(Open(d, c.maxBackups), c, writes).seen[k];
      var used := Min(c.maxBackups, DEFAULT_MAX_BACKUPS);
      && Faithful(s.files, s.history, used)
      && Retained(s.files, DEFAULT_MAX_BACKUPS) ==
         Leftovers(d, c.maxBackups, DEFAULT_MAX_BACKUPS) + Retained(s.files, used)
  {
    hide Run, Retained;
    var first, n := Open(d, c.maxBackups), c.maxBackups;
    var s := Run(first, c, writes).seen[k];
    if n <= DEFAULT_MAX_BACKUPS {
      forall j: nat | n < j ensures Part(s.files, j) == Part(d, j) {
        RunHolds(first, c, writes, j, Part(d, j));
      }
      RetainedSplits(d, s.files, n, DEFAULT_MAX_BACKUPS);
    } else {
      RetainedMonotone(s.files, DEFAULT_MAX_BACKUPS, n);
      SuffixTrans(Retained(s.files, DEFAULT_MAX_BACKUPS), Retained(s.files, n), s.history);
      assert [] + Retained(s.files, DEFAULT_MAX_BACKUPS) == Retained(s.files, DEFAULT_MAX_BACKUPS);
    }
  }

  // ----- when a write reports success, exactly -----

  /** A rename that the rotation comes to fails: there is a file to rename, and the system refuses. */
  predicate RenameFails(d: Disk, n: nat, io: Io) {
    0 <= io.failingRename < n && io.failingRename in d
  }

  lemma {:induction false} ShiftFromSucceeds(l: Log, n: nat, i: nat, io: Io)
    requires i <= n && n > 0
    ensures
      var (r, ok) := ShiftFrom(l, n, i, io);
      && (ok <==> !(RenameFails(l.files, n, io) && 0 < io.failingRename <= i))
      && (0 in r.files <==> 0 in l.files)
    decreases i
  {
    if i > 0 {
      if i == n {
        ShiftFromSucceeds(if io.removeOk then Remove(l, i) else l, n, i - 1, io);
      } else if i !in l.files {
        ShiftFromSucceeds(l, n, i - 1, io);
      } else if io.failingRename != i {
        ShiftFromSucceeds(Shift(l, i), n, i - 1, io);
      }
    }
  }

  lemma {:induction false} MoveFilesSucceeds(l: Log, n: nat, io: Io)
    requires n > 0
    ensures MoveFiles(l, n, io).1 <==> !RenameFails(l.files, n, io)
  {
    hide ShiftFrom;
    ShiftFromSucceeds(l, n, n, io);
  }

  /** A write that finds room moves no file. A write that does not must get through a whole rotation first. */
  lemma {:induction false} WriteSucceedsExactly(l: Log, c: Settings, data: Chunk, io: Io)
    requires c.Valid()
    ensures
      var (r, ok) := Written(l, c, data, io);
      var room := Size(Part(l.files, 0)) + |data| <= c.maxBytes;
      && (ok <==>
          && io.statOk && l.open && io.write.Full? && io.syncOk
          && (room || (&& io.closeOk && !RenameFails(l.files, c.maxBackups, io) && io.openOk && io.marshalOk
                       && io.rotationWrite.Full? && io.rotationSyncOk)))
      && (ok && data != [] ==> r.history != [] && r.history[|r.history| - 1] == data)
      && (ok && data != [] ==> Part(r.files, 0) != [] && Part(r.files, 0)[|Part(r.files, 0)| - 1] == data)
      && (io.statOk && l.open && room && Kept(data, io.write) != [] ==>
            && r.files == l.files[0 := Part(l.files, 0) + [Kept(data, io.write)]]
            && r.history == l.history + [Kept(data, io.write)])
  {
    hide MoveFiles;
    MoveFilesSucceeds(l.(open := false), c.maxBackups, io);
  }

  // ----- without errors: what a rotation does, exactly -----

  lemma {:induction false} CleanShift(l: Log, n: nat, i: nat, io: Io)
    requires Clean(io) && i <= n && n > 0
    requires 0 < i < n ==> i + 1 !in l.files
    ensures
      var (r, ok) := ShiftFrom(l, n, i, io);
      && ok && r.history == l.history && r.open == l.open
      && (0 in r.files <==> 0 in l.files) && Part(r.files, 0) == Part(l.files, 0)
      && (forall j: nat :: 1 <= j <= i && j < n ==> Part(r.files, j + 1) == Part(l.files, j))
      && (forall j: nat :: i + 1 < j ==> Part(r.files, j) == Part(l.files, j))
      && (i > 0 ==> 1 !in r.files)
    decreases i
  {
    if i > 0 {
      if i == n {
        var m := Remove(l, n);
        CleanShift(m, n, n - 1, io);
        assert forall j: nat :: j != n ==> Part(m.files, j) == Part(l.files, j);
      } else if i !in l.files {
        CleanShift(l, n, i - 1, io);
        assert Part(l.files, i) == [] == Part(l.files, i + 1);
      } else {
        var m := Shift(l, i);
        CleanShift(m, n, i - 1, io);
        assert forall j: nat :: j != i && j != i + 1 ==> Part(m.files, j) == Part(l.files, j);
        assert Part(m.files, i + 1) == Part(l.files, i);
      }
    }
  }

  /** A clean write that rotates: every file moves up one place, and a new file holds the two new records. */
  lemma {:induction false} CleanRotation(l: Log, c: Settings, data: Chunk, io: Io)
    requires c.Valid() && Clean(io) && data != [] && l.open && 0 in l.files && NeedsRotation(l, c, |data|)
    ensures
      var (r, ok) := Written(l, c, data, io);
      && ok && r.open && 0 in r.files
      && r.history == l.history + [io.rotationRecord, data]
      && Part(r.files, 0) == [io.rotationRecord, data]
      && (forall j: nat :: 1 <= j <= c.maxBackups ==> Part(r.files, j) == Part(l.files, j - 1))
  {
    var n := c.maxBackups;
    var closed := l.(open := false);
    CleanShift(closed, n, n, io);
    var (shifted, _) := ShiftFrom(closed, n, n, io);
    var moved := Shift(shifted, 0);
    assert Part(moved.files, 0) == [] && Part(moved.files, 1) == Part(l.files, 0);
    assert forall j: nat :: 2 <= j ==> Part(moved.files, j) == Part(shifted.files, j);
    forall j: nat | 1 <= j <= n
      ensures Part(moved.files, j) == Part(l.files, j - 1)
    {
      if j >= 2 {
        assert Part(shifted.files, (j - 1) + 1) == Part(l.files, j - 1);
      }
    }
    var started := Append(Create(moved), io.rotationRecord, Full);
    assert Part(started.files, 0) == [] + [io.rotationRecord];
  }

  lemma {:induction false} CleanAppend(l: Log, c: Settings, data: Chunk, io: Io)
    requires c.Valid() && Clean(io) && data != [] && l.open && 0 in l.files && !NeedsRotation(l, c, |data|)
    ensures
      var (r, ok) := Written(l, c, data, io);
      && ok && r.open && 0 in r.files
      && r.history == l.history + [data]
      && r.files == l.files[0 := Part(l.files, 0) + [data]]
  {
  }

  ghost predicate CleanWrites(writes: seq<(Chunk, Io)>) {
    forall i :: 0 <= i < |writes| ==> Clean(writes[i].1) && writes[i].0 != []
  }

  /** How many of the writes rotate the log. */
  function Rotations(l: Log, c: Settings, writes: seq<(Chunk, Io)>): nat {
    if writes == [] then 0
    else
      var k := |writes| - 1;
      Rotations(l, c, writes[..k]) + if NeedsRotation(Run(l, c, writes[..k]), c, |writes[k].0|) then 1 else 0
  }

  /** Reading up to place t after k rotations: what stood k places lower, then everything added since. */
  ghost predicate Shifted(l: Log, m: Log, k: nat, t: nat) {
    && l.history <= m.history
    && var added := m.history[|l.history|..];
       if k <= t then Retained(m.files, t) == Retained(l.files, t - k) + added
       else IsSuffix(Retained(m.files, t), added)
  }

  lemma {:induction false} RotationReads(l: Log, m: Log, c: Settings, two: seq<Chunk>, t: nat)
    requires t <= c.maxBackups && Part(m.files, 0) == two
    requires forall j: nat :: 1 <= j <= c.maxBackups ==> Part(m.files, j) == Part(l.files, j - 1)
    ensures Retained(m.files, t) == (if t == 0 then [] else Retained(l.files, t - 1)) + two
    decreases t
  {
    if t > 0 {
      RotationReads(l, m, c, two, t - 1);
      if t > 1 {
        assert Part(l.files, t - 1) + (Retained(l.files, t - 2) + two) == Retained(l.files, t - 1) + two;
      }
    }
  }

  lemma {:induction false} ShiftedByAppend(l: Log, m: Log, r: Log, k: nat, t: nat, data: Chunk)
    requires Shifted(l, m, k, t)
    requires r.history == m.history + [data] && r.files == m.files[0 := Part(m.files, 0) + [data]]
    ensures Shifted(l, r, k, t)
  {
    AppendReads(m.files, data, t);
    var added := m.history[|l.history|..];
    assert r.history[|l.history|..] == added + [data];
    if k <= t {
      assert (Retained(l.files, t - k) + added) + [data] == Retained(l.files, t - k) + (added + [data]);
    } else {
      SuffixAppend(Retained(m.files, t), added, [data]);
    }
  }

  lemma {:induction false} ShiftedByRotation(l: Log, m: Log, r: Log, c: Settings, k: nat, t: nat, two: seq<Chunk>)
    requires t <= c.maxBackups && l.history <= m.history
    requires t > 0 ==> Shifted(l, m, k, t - 1)
    requires r.history == m.history + two && Part(r.files, 0) == two
    requires forall j: nat :: 1 <= j <= c.maxBackups ==> Part(r.files, j) == Part(m.files, j - 1)
    ensures Shifted(l, r, k + 1, t)
  {
    hide Retained;
    RotationReads(m, r, c, two, t);
    var added := m.history[|l.history|..];
    assert r.history[|l.history|..] == added + two;
    if t == 0 {
      SuffixOfConcat(added, two);
      assert [] + two == two;
    } else if k + 1 <= t {
      var before := Retained(l.files, t - 1 - k);
      assert (before + added) + two == before + (added + two);
    } else {
      SuffixAppend(Retained(m.files, t - 1), added, two);
    }
  }

  /**
   Retention is exact. After a run of writes without errors that rotated k times, a reader finds what stood
   in the files up to number maxBackups - k, followed by everything added since; so the records of a file
   survive exactly maxBackups rotations after it was current, and are gone with the next one.
   */
  lemma {:induction false} RetentionExactly(l: Log, c: Settings, writes: seq<(Chunk, Io)>)
    requires c.Valid() && l.open && 0 in l.files && CleanWrites(writes)
    ensures
      var m := Run(l, c, writes);
      m.open && 0 in m.files && forall t: nat :: t <= c.maxBackups ==> Shifted(l, m, Rotations(l, c, writes), t)
    decreases |writes|
  {
    if writes == [] {
      forall t: nat | t <= c.maxBackups
        ensures Shifted(l, l, 0, t)
      {
        assert Retained(l.files, t) + [] == Retained(l.files, t);
      }
    } else {
      var i := |writes| - 1;
      var m, k := Run(l, c, writes[..i]), Rotations(l, c, writes[..i]);
      assert CleanWrites(writes[..i]);
      RetentionExactly(l, c, writes[..i]);
      var (data, io) := writes[i];
      var r := Written(m, c, data, io).0;
      assert Shifted(l, m, k, 0);
      if NeedsRotation(m, c, |data|) {
        CleanRotation(m, c, data, io);
        var next := k + 1;
        forall t: nat | t <= c.maxBackups
          ensures Shifted(l, r, next, t)
        {
          ShiftedByRotation(l, m, r, c, k, t, [io.rotationRecord, data]);
        }
      } else {
        CleanAppend(m, c, data, io);
        forall t: nat | t <= c.maxBackups
          ensures Shifted(l, r, k, t)
        {
          ShiftedByAppend(l, m, r, k, t, data);
        }
      }
    }
  }

  // ----- the space the log takes, with or without errors -----

  function Max(a: nat, b: nat): nat {
    if a < b then b else a
  }

  ghost predicate Fits(d: Disk, bound: nat) {
    forall i :: i in d ==> Size(d[i]) <= bound
  }

  lemma {:induction false} SizeConcat(a: seq<Chunk>, b: seq<Chunk>)
    ensures Size(a + b) == Size(a) + Size(b)
  {
    if a == [] {
      assert a + b == b;
    } else {
      assert (a + b)[1..] == a[1..] + b;
      SizeConcat(a[1..], b);
    }
  }

  /** The files fit, now and at every moment so far. */
  ghost predicate AlwaysFits(l: Log, bound: nat) {
    Fits(l.files, bound) && forall k :: 0 <= k < |l.seen| ==> Fits(l.seen[k].files, bound)
  }

  lemma {:induction false} ObserveFits(l: Log, m: Log, bound: nat)
    requires AlwaysFits(l, bound) && m.seen == l.seen && Fits(m.files, bound)
    ensures AlwaysFits(Observe(m), bound)
  {
    hide Fits;
  }

  lemma {:induction false} ShiftFromFits(l: Log, n: nat, i: nat, io: Io, bound: nat)
    requires AlwaysFits(l, bound)
    ensures AlwaysFits(ShiftFrom(l, n, i, io).0, bound)
    decreases i
  {
    hide AlwaysFits;
    if i > 0 {
      if i == n {
        RemoveFits(l, i, bound);
        ShiftFromFits(if io.removeOk then Remove(l, i) else l, n, i - 1, io, bound);
      } else if i !in l.files {
        ShiftFromFits(l, n, i - 1, io, bound);
      } else if io.failingRename != i {
        ShiftFits(l, i, bound);
        ShiftFromFits(Shift(l, i), n, i - 1, io, bound);
      }
    }
  }

  lemma RemoveFits(l: Log, i: nat, bound: nat)
    requires AlwaysFits(l, bound)
    ensures AlwaysFits(Remove(l, i), bound)
  {
    ObserveFits(l, l.(files := l.files - {i}), bound);
  }

  lemma ShiftFits(l: Log, i: nat, bound: nat)
    requires AlwaysFits(l, bound) && i in l.files
    ensures AlwaysFits(Shift(l, i), bound)
  {
    ObserveFits(l, l.(files := (l.files - {i})[i + 1 := l.files[i]]), bound);
  }

  lemma CreateFits(l: Log, bound: nat)
    requires AlwaysFits(l, bound)
    ensures AlwaysFits(Create(l), bound)
  {
    ObserveFits(l, l.(files := l.files[0 := Part(l.files, 0)], open := true), bound);
  }

  lemma {:induction false} AppendFits(l: Log, data: Chunk, w: WriteOutcome, bound: nat)
    requires AlwaysFits(l, bound) && Size(Part(l.files, 0)) + |data| <= bound
    ensures AlwaysFits(Append(l, data, w), bound)
    ensures Size(Part(Append(l, data, w).files, 0)) <= Size(Part(l.files, 0)) + |data|
  {
    var chunk := Kept(data, w);
    SizeConcat(Part(l.files, 0), [chunk]);
    assert Size([chunk]) == |chunk|;
    if chunk != [] {
      ObserveFits(l, l.(files := l.files[0 := Part(l.files, 0) + [chunk]], history := l.history + [chunk]), bound);
    }
  }

  lemma {:induction false} MoveFilesFits(l: Log, n: nat, io: Io, bound: nat)
    requires AlwaysFits(l, bound)
    ensures var (r, ok) := MoveFiles(l, n, io); AlwaysFits(r, bound) && (ok ==> Part(r.files, 0) == [])
  {
    hide AlwaysFits, ShiftFrom;
    ShiftFromFits(l, n, n, io, bound);
    var (shifted, ok) := ShiftFrom(l, n, n, io);
    if ok && 0 in shifted.files && io.failingRename != 0 {
      ShiftFits(shifted, 0, bound);
    }
  }

  lemma {:induction false} RotatedFits(l: Log, c: Settings, next: nat, io: Io, bound: nat)
    requires AlwaysFits(l, bound) && c.Valid() && bound >= |io.rotationRecord|
    ensures
      var (r, ok) := Rotated(l, c, next, io);
      && AlwaysFits(r, bound)
      && (ok ==> Size(Part(r.files, 0)) + next <= Max(c.maxBytes, |io.rotationRecord| + next))
  {
    var closed := l.(open := false);
    assert AlwaysFits(closed, bound) && AlwaysFits(l.(open := io.openAfterFailedClose), bound);
    hide AlwaysFits, MoveFiles;
    MoveFilesFits(closed, c.maxBackups, io, bound);
    var (moved, ok) := MoveFiles(closed, c.maxBackups, io);
    CreateFits(moved, bound);
    if ok {
      assert Part(Create(moved).files, 0) == [] && Size([]) == 0;
      AppendFits(Create(moved), io.rotationRecord, io.rotationWrite, bound);
    }
  }

  /** The lengths of the records in a run stay within what the bound was computed from. */
  ghost predicate Within(writes: seq<(Chunk, Io)>, rotationMax: nat, recordMax: nat) {
    forall i :: 0 <= i < |writes| ==> |writes[i].0| <= recordMax && |writes[i].1.rotationRecord| <= rotationMax
  }

  /** At no moment of a run does a file outgrow the bound, whatever fails. */
  lemma {:induction false} FilesStayBounded(
    l: Log, c: Settings, writes: seq<(Chunk, Io)>, rotationMax: nat, recordMax: nat)
    requires c.Valid() && Within(writes, rotationMax, recordMax)
    requires AlwaysFits(l, Max(c.maxBytes, rotationMax + recordMax))
    ensures AlwaysFits(Run(l, c, writes), Max(c.maxBytes, rotationMax + recordMax))
    decreases |writes|
  {
    hide AlwaysFits, Rotated;
    if writes != [] {
      var bound := Max(c.maxBytes, rotationMax + recordMax);
      var k := |writes| - 1;
      FilesStayBounded(l, c, writes[..k], rotationMax, recordMax);
      var (data, io) := writes[k];
      var m := Run(l, c, writes[..k]);
      RotatedFits(m, c, |data|, io, bound);
      var (r, ok) := Rotated(m, c, |data|, io);
      if ok {
        AppendFits(r, data, io.write, bound);
      }
    }
  }

  lemma {:induction false} TotalBounded(d: Disk, top: nat, bound: nat)
    requires Fits(d, bound)
    ensures Size(Retained(d, top)) <= (top + 1) * bound
  {
    assert Size(Part(d, top)) <= bound;
    if top == 0 {
      SizeConcat(Part(d, 0), []);
    } else {
      TotalBounded(d, top - 1, bound);
      SizeConcat(Part(d, top), Retained(d, top - 1));
      assert (top + 1) * bound == top * bound + bound;
    }
  }

  /** At every moment the retained log takes at most (maxBackups + 1) files of bounded size. */
  lemma {:induction false} RetainedSizeBounded(
    l: Log, c: Settings, writes: seq<(Chunk, Io)>, rotationMax: nat, recordMax: nat, k: nat)
    requires c.Valid() && Within(writes, rotationMax, recordMax)
    requires AlwaysFits(l, Max(c.maxBytes, rotationMax + recordMax))
    requires k < |Run(l, c, writes).seen|
    ensures Size(Retained(Run(l, c, writes).seen[k].files, c.maxBackups))
            <= (c.maxBackups + 1) * Max(c.maxBytes, rotationMax + recordMax)
  {
    FilesStayBounded(l, c, writes, rotationMax, recordMax);
    TotalBounded(Run(l, c, writes).seen[k].files, c.maxBackups, Max(c.maxBytes, rotationMax + recordMax));
  }

  // ----- the logger object -----

  class Logger {
    const settings: Settings
    var files: Disk
    var open: bool
    ghost var history: seq<Chunk>
    ghost var seen: seq<Snapshot>

    ghost function View(): Log
      reads this
    {
      Log(files, open, history, seen)
    }

    ghost predicate Valid()
      reads this
    {
      settings.Valid() && Good(View(), settings.maxBackups)
    }

    constructor (disk: Disk, maxBytes: int, maxBackups: int)
      ensures Valid()
      ensures settings == SettingsFor(maxBytes, maxBackups)
      ensures View() == Open(disk, settings.maxBackups)
    {
      settings := SettingsFor(maxBytes, maxBackups);
      var d := disk[0 := if 0 in disk then disk[0] else []];
      files := d;
      open := true;
      history := Retained(d, SettingsFor(maxBytes, maxBackups).maxBackups);
      seen := [] + [Snapshot(d, Retained(d, SettingsFor(maxBytes, maxBackups).maxBackups))];
      new;
      OpenGood(disk, settings.maxBackups);
    }

    method RenameUp(i: nat)
      requires i in files
      modifies this
      ensures View() == Shift(old(View()), i)
    {
      files := (files - {i})[i + 1 := files[i]];
      seen := seen + [Snapshot(files, history)];
    }

    method CreateCurrent()
      modifies this
      ensures View() == Create(old(View()))
    {
      files := files[0 := if 0 in files then files[0] else []];
      open := true;
      seen := seen + [Snapshot(files, history)];
    }

    method AppendChunk(data: Chunk, w: WriteOutcome)
      modifies this
      ensures View() == Append(old(View()), data, w)
    {
      var chunk := Kept(data, w);
      if chunk != [] {
        files := files[0 := (if 0 in files then files[0] else []) + [chunk]];
        history := history + [chunk];
        seen := seen + [Snapshot(files, history)];
      }
    }

    /** The descending loop over the backup numbers. */
    method ShiftBackups(io: Io) returns (ok: bool)
      modifies this
      ensures (View(), ok) == ShiftFrom(old(View()), settings.maxBackups, settings.maxBackups, io)
    {
      var i := settings.maxBackups;
      while i > 0
        invariant 0 <= i <= settings.maxBackups
        invariant ShiftFrom(View(), settings.maxBackups, i, io)
                  == ShiftFrom(old(View()), settings.maxBackups, settings.maxBackups, io)
      {
        if i == settings.maxBackups {
          if io.removeOk {
            files := files - {i};
            seen := seen + [Snapshot(files, history)];
          }
        } else if i in files {
          if io.failingRename == i {
            return false;
          }
          RenameUp(i);
        }
        i := i - 1;
      }
      return true;
    }

    method RotateIfNeeded(next: nat, io: Io) returns (ok: bool)
      modifies this
      ensures (View(), ok) == Rotated(old(View()), settings, next, io)
    {
      if !io.statOk || !open {
        return false;
      }
      if Size(Part(files, 0)) + next <= settings.maxBytes {
        return true;
      }
      if !io.closeOk {
        open := io.openAfterFailedClose;
        return false;
      }
      open := false;
      ok := ShiftBackups(io);
      if ok && 0 in files {
        if io.failingRename == 0 {
          ok := false;
        } else {
          RenameUp(0);
        }
      }
      if !ok {
        if io.reopenOk {
          CreateCurrent();
        }
        return false;
      }
      if !io.openOk {
        return false;
      }
      CreateCurrent();
      if !io.marshalOk {
        return false;
      }
      AppendChunk(io.rotationRecord, io.rotationWrite);
      return io.rotationWrite.Full? && io.rotationSyncOk;
    }

    /** Append one record; every disk state on the way, and the last, is a suffix of the history. */
    method Write(data: Chunk, io: Io) returns (ok: bool)
      requires Valid()
      modifies this
      ensures Valid()
      ensures (View(), ok) == Written(old(View()), settings, data, io)
    {
      WrittenGood(View(), settings, data, io);
      ok := RotateIfNeeded(|data|, io);
      if ok {
        AppendChunk(data, io.write);
        ok := io.write.Full? && io.syncOk;
      }
    }
  }
}
