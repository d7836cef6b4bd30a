/**
 The states of the disk one after the other: each is the one before it after a single change. Also the
 reader that takes no lock and opens file after file while such changes go on.
 */
module EventLogSteps {
  import opened Options
  import opened EventLog
  import opened EventLogRetention

  /** What one call to the file system does to the log. */
  datatype Change = Removed | Renamed(i: nat) | Created | Appended(chunk: Chunk)

  ghost predicate Changes(a: Snapshot, b: Snapshot, n: nat, change: Change) {
    match change
    case Removed => b == Snapshot(a.files - {n}, a.history)
    case Renamed(i) =>
      && i in a.files && i < n && (i + 1 == n || i + 1 !in a.files)
      && b == Snapshot((a.files - {i})[i + 1 := a.files[i]], a.history)
    case Created => b == Snapshot(a.files[0 := Part(a.files, 0)], a.history)
    case Appended(chunk) => b == Snapshot(a.files[0 := Part(a.files, 0) + [chunk]], a.history + [chunk])
  }

  ghost predicate Linked(a: Snapshot, b: Snapshot, n: nat) {
    exists change :: Changes(a, b, n, change)
  }

  ghost predicate Chained(l: Log, n: nat) {
    UpToDate(l) && forall k :: 1 <= k < |l.seen| ==> Linked(l.seen[k - 1], l.seen[k], n)
  }

  // ----- every run is a chain of changes -----

  lemma {:induction false} ObserveChained(l: Log, m: Log, n: nat, change: Change)
    requires Chained(l, n) && m.seen == l.seen
    requires Changes(Snapshot(l.files, l.history), Snapshot(m.files, m.history), n, change)
    ensures Chained(Observe(m), n)
  {
    hide Changes;
    var r := Observe(m);
    forall k | 1 <= k < |r.seen| ensures Linked(r.seen[k - 1], r.seen[k], n) {
      if k < |l.seen| {
        assert Linked(l.seen[k - 1], l.seen[k], n);
      }
    }
  }

  lemma {:induction false} ShiftFromChained(l: Log, n: nat, i: nat, io: Io)
    requires Chained(l, n) && i <= n && n > 0
    requires i + 1 < n ==> i + 1 !in l.files
    ensures var (r, ok) := ShiftFrom(l, n, i, io); Chained(r, n) && (ok ==> n == 1 || 1 !in r.files)
    decreases i
  {
    hide Chained;
    if i > 0 {
      if i == n {
        if io.removeOk {
          ObserveChained(l, l.(files := l.files - {n}), n, Removed);
        }
        ShiftFromChained(if io.removeOk then Remove(l, i) else l, n, i - 1, io);
      } else if i !in l.files {
        ShiftFromChained(l, n, i - 1, io);
      } else if io.failingRename != i {
        ObserveChained(l, l.(files := (l.files - {i})[i + 1 := l.files[i]]), n, Renamed(i));
        ShiftFromChained(Shift(l, i), n, i - 1, io);
      }
    }
  }

  lemma {:induction false} CreateChained(l: Log, n: nat)
    requires Chained(l, n)
    ensures Chained(Create(l), n)
  {
    hide Chained;
    ObserveChained(l, l.(files := l.files[0 := Part(l.files, 0)], open := true), n, Created);
  }

  lemma {:induction false} AppendChained(l: Log, n: nat, data: Chunk, w: WriteOutcome)
    requires Chained(l, n)
    ensures Chained(Append(l, data, w), n)
  {
    hide Chained;
    var chunk := Kept(data, w);
    if chunk != [] {
      ObserveChained(l, l.(files := l.files[0 := Part(l.files, 0) + [chunk]], history := l.history + [chunk]),
                     n, Appended(chunk));
    }
  }

  lemma {:induction false} MoveFilesChained(l: Log, n: nat, io: Io)
    requires Chained(l, n) && n > 0
    ensures Chained(MoveFiles(l, n, io).0, n)
  {
    hide Chained, ShiftFrom;
    ShiftFromChained(l, n, n, io);
    var (shifted, ok) := ShiftFrom(l, n, n, io);
    if ok && 0 in shifted.files && io.failingRename != 0 {
      ObserveChained(shifted, shifted.(files := (shifted.files - {0})[1 := shifted.files[0]]), n, Renamed(0));
    }
  }

  lemma {:induction false} WrittenChained(l: Log, c: Settings, data: Chunk, io: Io)
    requires Chained(l, c.maxBackups) && c.Valid()
    ensures Chained(Written(l, c, data, io).0, c.maxBackups)
  {
    hide MoveFiles, Append, Create, NeedsRotation;
    var n := c.maxBackups;
    var closed := l.(open := false);
    assert Chained(closed, n) && Chained(l.(open := io.openAfterFailedClose), n);
    MoveFilesChained(closed, n, io);
    var moved := MoveFiles(closed, n, io).0;
    hide Chained;
    CreateChained(moved, n);
    AppendChained(Create(moved), n, io.rotationRecord, io.rotationWrite);
    AppendChained(Rotated(l, c, |data|, io).0, n, data, io.write);
  }

  lemma {:induction false} RunChained(l: Log, c: Settings, writes: seq<(Chunk, Io)>)
    requires Chained(l, c.maxBackups) && c.Valid()
    ensures Chained(Run(l, c, writes), c.maxBackups)
    decreases |writes|
  {
    hide Chained;
    if writes != [] {
      var k := |writes| - 1;
      RunChained(l, c, writes[..k]);
      WrittenChained(Run(l, c, writes[..k]), c, writes[k].0, writes[k].1);
    }
  }

  // ----- where the files begin in the history -----

  /** The number of records that are older than everything in the files up to number p. */
  function Start(s: Snapshot, p: nat): int {
    |s.history| - |Retained(s.files, p)|
  }

  lemma {:induction false} RenamedLength(d: Disk, i: nat, p: nat)
    requires i in d
    ensures |Retained((d - {i})[i + 1 := d[i]], p)| ==
            |Retained(d, p)| - if p < i then 0 else if p == i then |Part(d, i)| else |Part(d, i + 1)|
    decreases p
  {
    var e := (d - {i})[i + 1 := d[i]];
    assert Part(e, p) == if p == i then [] else if p == i + 1 then d[i] else Part(d, p);
    if p > 0 {
      RenamedLength(d, i, p - 1);
    }
  }

  lemma {:induction false} RemovedLength(d: Disk, n: nat, p: nat)
    ensures |Retained(d - {n}, p)| == |Retained(d, p)| - if p < n then 0 else |Part(d, n)|
    decreases p
  {
    assert Part(d - {n}, p) == if p == n then [] else Part(d, p);
    if p > 0 {
      RemovedLength(d, n, p - 1);
    }
  }

  /** The file at place p is renamed to place p + 1, with something in it. */
  predicate Crosses(a: Snapshot, b: Snapshot, p: nat) {
    Part(a.files, p) != [] && p !in b.files
  }

  /** The border between the places above p and the others moves only forward, and only by a rename across it. */
  lemma {:induction false} StartMoves(a: Snapshot, b: Snapshot, n: nat, p: nat)
    requires Linked(a, b, n) && p < n
    ensures Start(a, p) <= Start(b, p)
    ensures Start(a, p) == Start(b, p) <==> !Crosses(a, b, p)
    ensures a.history <= b.history
  {
    hide Retained;
    var change :| Changes(a, b, n, change);
    match change
    case Removed => RemovedLength(a.files, n, p);
    case Renamed(i) => RenamedLength(a.files, i, p);
    case Created => RetainedSame(a.files, b.files, p);
    case Appended(chunk) => AppendReads(a.files, chunk, p);
  }

  /** From moment j to moment k no rename crosses the border above p. */
  ghost predicate Still(l: Log, j: nat, k: nat, p: nat) {
    forall m :: j < m <= k && m < |l.seen| ==> !Crosses(l.seen[m - 1], l.seen[m], p)
  }

  lemma {:induction false} StartOverTime(l: Log, n: nat, p: nat, j: nat, k: nat)
    requires Chained(l, n) && p < n && j <= k < |l.seen|
    ensures Start(l.seen[j], p) <= Start(l.seen[k], p)
    ensures Start(l.seen[j], p) == Start(l.seen[k], p) <==> Still(l, j, k, p)
    ensures l.seen[j].history <= l.seen[k].history
    decreases k
  {
    hide Linked, Crosses, Start;
    if j < k {
      StartOverTime(l, n, p, j, k - 1);
      assert Linked(l.seen[k - 1], l.seen[k], n);
      StartMoves(l.seen[k - 1], l.seen[k], n, p);
      assert Still(l, j, k, p) <==> Still(l, j, k - 1, p) && !Crosses(l.seen[k - 1], l.seen[k], p);
    }
  }

  /** A file is the stretch of the history between two borders. */
  lemma {:induction false} FileIsStretch(s: Snapshot, n: nat, p: nat)
    requires Faithful(s.files, s.history, n) && p <= n
    ensures
      var end := if p == 0 then |s.history| else Start(s, p - 1);
      0 <= Start(s, p) <= end <= |s.history| && Part(s.files, p) == s.history[Start(s, p)..end]
  {
    RetainedMonotone(s.files, p, n);
    SuffixTrans(Retained(s.files, p), Retained(s.files, n), s.history);
    var rest := if p == 0 then [] else Retained(s.files, p - 1);
    assert Retained(s.files, p) == Part(s.files, p) + rest;
    assert s.history[Start(s, p)..] == Part(s.files, p) + rest;
    assert s.history[Start(s, p)..][..|Part(s.files, p)|] == Part(s.files, p);
  }

  // ----- a reader that takes no lock -----

  /**
   A reader lists which files exist, and then opens the listed ones from high numbers down. `when[p]` is the
   moment at which it reads place p; the log goes on between these moments.
   */
  ghost predicate Schedule(l: Log, when: seq<nat>) {
    && (forall p :: 0 <= p < |when| ==> when[p] < |l.seen|)
    && (forall p :: 0 < p < |when| ==> when[p] <= when[p - 1])
  }

  function ReadAt(l: Log, when: seq<nat>, listed: set<nat>, p: nat): seq<Chunk>
    requires p < |when| && when[p] < |l.seen|
  {
    if p in listed then Part(l.seen[when[p]].files, p) else []
  }

  function ReadDown(l: Log, when: seq<nat>, listed: set<nat>, top: nat): seq<Chunk>
    requires top < |when| && forall p :: 0 <= p < |when| ==> when[p] < |l.seen|
  {
    ReadAt(l, when, listed, top) + if top == 0 then [] else ReadDown(l, when, listed, top - 1)
  }

  /** In order and without repetition: r picks the elements of h at the ascending positions `at`. */
  ghost predicate Picks(r: seq<Chunk>, h: seq<Chunk>, at: seq<nat>) {
    && |at| == |r|
    && (forall i :: 0 <= i < |at| ==> at[i] < |h| && r[i] == h[at[i]])
    && (forall i, j :: 0 <= i < j < |at| ==> at[i] < at[j])
  }

  function Stretch(from: nat, to: nat): (r: seq<nat>)
    requires from <= to
    ensures |r| == to - from && forall i :: 0 <= i < |r| ==> r[i] == from + i
  {
    seq(to - from, i requires 0 <= i => from + i)
  }

  ghost predicate PicksFrom(r: seq<Chunk>, h: seq<Chunk>, at: seq<nat>, low: int) {
    Picks(r, h, at) && forall i :: 0 <= i < |at| ==> low <= at[i]
  }

  lemma {:induction false} PicksMore(
    a: seq<Chunk>, b: seq<Chunk>, h: seq<Chunk>, from: nat, to: nat, at: seq<nat>, low: int)
    requires from <= to <= |h| && a == h[from..to] && PicksFrom(b, h, at, low) && to <= low
    ensures PicksFrom(a + b, h, Stretch(from, to) + at, from)
  {
  }

  lemma {:induction false} PicksLower(r: seq<Chunk>, h: seq<Chunk>, at: seq<nat>, low: int, lower: int)
    requires PicksFrom(r, h, at, low) && lower <= low
    ensures PicksFrom([] + r, h, at, lower)
  {
    assert [] + r == r;
  }

  /** What stood at place p at moment k, as a stretch of the history of that moment and of any later one. */
  lemma {:induction false} StretchAt(l: Log, n: nat, k: nat, p: nat, h: seq<Chunk>)
    requires Good(l, n) && k < |l.seen| && p <= n && l.seen[k].history <= h
    ensures
      var s := l.seen[k];
      var end := if p == 0 then |s.history| else Start(s, p - 1);
      0 <= Start(s, p) <= end <= |h| && Part(s.files, p) == h[Start(s, p)..end]
  {
    hide Start, Faithful;
    var s := l.seen[k];
    assert FaithfulSnapshot(s, l.history, n);
    FileIsStretch(s, n, p);
    var end := if p == 0 then |s.history| else Start(s, p - 1);
    assert s.history[Start(s, p)..end] == h[Start(s, p)..end];
  }

  lemma {:induction false} StretchOfAll(l: Log, n: nat, k: nat, p: nat)
    requires Good(l, n) && k < |l.seen| && p <= n
    ensures
      var s := l.seen[k];
      var end := if p == 0 then |s.history| else Start(s, p - 1);
      0 <= Start(s, p) <= end <= |l.history| && Part(s.files, p) == l.history[Start(s, p)..end]
  {
    hide Start, Faithful;
    assert FaithfulSnapshot(l.seen[k], l.history, n);
    StretchAt(l, n, k, p, l.history);
  }

  lemma {:induction false} ReadDownPicks(l: Log, n: nat, when: seq<nat>, listed: set<nat>, top: nat)
    returns (at: seq<nat>)
    requires Good(l, n) && Chained(l, n) && Schedule(l, when) && top < |when| && top <= n
    ensures PicksFrom(ReadDown(l, when, listed, top), l.history, at, Start(l.seen[when[top]], top))
    decreases top
  {
    hide Chained, Start, PicksFrom, Good, Still, Part, Stretch;
    var s := l.seen[when[top]];
    StretchOfAll(l, n, when[top], top);
    var from, to := Start(s, top), if top == 0 then |s.history| else Start(s, top - 1);
    var rest: seq<Chunk>, low := [], to;
    at := [];
    if top == 0 {
      PicksNothing(l.history, to);
    } else {
      rest := ReadDown(l, when, listed, top - 1);
      at := ReadDownPicks(l, n, when, listed, top - 1);
      StartOverTime(l, n, top - 1, when[top], when[top - 1]);
      low := Start(l.seen[when[top - 1]], top - 1);
    }
    if top in listed {
      PicksMore(Part(s.files, top), rest, l.history, from, to, at, low);
      at := Stretch(from, to) + at;
    } else {
      PicksLower(rest, l.history, at, low, from);
    }
  }

  lemma PicksNothing(h: seq<Chunk>, low: int)
    ensures PicksFrom([], h, [], low)
  {
  }

  /** How many records such a reader misses. */
  ghost function Missed(l: Log, when: seq<nat>, listed: set<nat>, top: nat): int
    requires top < |when| && forall p :: 0 <= p < |when| ==> when[p] < |l.seen|
  {
    (if top in listed then 0 else |Part(l.seen[when[top]].files, top)|)
    + if top == 0 then 0
      else Start(l.seen[when[top - 1]], top - 1) - Start(l.seen[when[top]], top - 1) + Missed(l, when, listed, top - 1)
  }

  /** Every place with something in it was listed, and no rename overtook the reader between two places. */
  ghost predicate Undisturbed(l: Log, when: seq<nat>, listed: set<nat>, top: nat)
    requires top < |when| && forall p :: 0 <= p < |when| ==> when[p] < |l.seen|
  {
    && (forall p :: 0 <= p <= top && p !in listed ==> Part(l.seen[when[p]].files, p) == [])
    && (forall p :: 0 < p <= top ==> Still(l, when[p], when[p - 1], p - 1))
  }

  lemma {:induction false} UndisturbedStep(l: Log, when: seq<nat>, listed: set<nat>, top: nat)
    requires 0 < top < |when| && forall p :: 0 <= p < |when| ==> when[p] < |l.seen|
    ensures Undisturbed(l, when, listed, top) <==>
      && Undisturbed(l, when, listed, top - 1)
      && (top !in listed ==> Part(l.seen[when[top]].files, top) == [])
      && Still(l, when[top], when[top - 1], top - 1)
  {
    hide Still, Part;
  }

  lemma {:induction false} MissedExactly(l: Log, n: nat, when: seq<nat>, listed: set<nat>, top: nat)
    requires Good(l, n) && Chained(l, n) && Schedule(l, when) && top < |when| && top <= n
    ensures Missed(l, when, listed, top) >= 0
    ensures Missed(l, when, listed, top) == 0 <==> Undisturbed(l, when, listed, top)
    ensures
      |ReadDown(l, when, listed, top)| + Missed(l, when, listed, top) ==
      |l.seen[when[0]].history| - Start(l.seen[when[top]], top)
    decreases top
  {
    StretchOfAll(l, n, when[top], top);
    hide Chained, Start, Still, Good, Part;
    if top > 0 {
      MissedExactly(l, n, when, listed, top - 1);
      StartOverTime(l, n, top - 1, when[top], when[top - 1]);
      UndisturbedStep(l, when, listed, top);
      hide Undisturbed;
    }
  }

  lemma {:induction false} TwoStretches(h: seq<Chunk>, a: seq<Chunk>, b: seq<Chunk>, from: nat, mid: nat)
    requires from <= mid <= |h| && a == h[from..mid] && IsSuffix(b, h) && |b| == |h| - mid
    ensures IsSuffix(a + b, h)
  {
    assert h[from..] == h[from..mid] + h[mid..];
  }

  lemma {:induction false} UndisturbedReads(l: Log, n: nat, when: seq<nat>, listed: set<nat>, top: nat)
    requires Good(l, n) && Chained(l, n) && Schedule(l, when) && top < |when| && top <= n
    requires Undisturbed(l, when, listed, top)
    ensures IsSuffix(ReadDown(l, when, listed, top), l.seen[when[0]].history)
    decreases top
  {
    hide Chained, Start, Still, Good, IsSuffix, Part;
    var s, last := l.seen[when[top]], l.seen[when[0]].history;
    WhenDescends(l, when, 0, top);
    HistoryOverTime(l, n, when[top], when[0]);
    StretchAt(l, n, when[top], top, last);
    if top == 0 {
      WholeIsSuffix(last, Start(s, 0));
      assert Part(s.files, 0) + [] == Part(s.files, 0);
    } else {
      UndisturbedReads(l, n, when, listed, top - 1);
      MissedExactly(l, n, when, listed, top - 1);
      StartOverTime(l, n, top - 1, when[top], when[top - 1]);
      TwoStretches(last, Part(s.files, top), ReadDown(l, when, listed, top - 1), Start(s, top), Start(s, top - 1));
    }
  }

  lemma WholeIsSuffix(h: seq<Chunk>, from: nat)
    requires from <= |h|
    ensures IsSuffix(h[from..|h|], h)
  {
  }

  lemma {:induction false} HistoryOverTime(l: Log, n: nat, j: nat, k: nat)
    requires Chained(l, n) && j <= k < |l.seen|
    ensures l.seen[j].history <= l.seen[k].history
    decreases k
  {
    if j < k {
      HistoryOverTime(l, n, j, k - 1);
      assert Linked(l.seen[k - 1], l.seen[k], n);
    }
  }

  lemma {:induction false} WhenDescends(l: Log, when: seq<nat>, p: nat, q: nat)
    requires Schedule(l, when) && p <= q < |when|
    ensures when[q] <= when[p]
    decreases q
  {
    if p < q {
      WhenDescends(l, when, p, q - 1);
    }
  }

  // ----- the whole reader: five backups and the current file -----

  /** The reader as it is: it gives up if a file that it listed is gone when it opens it. */
  function ReadListed(l: Log, when: seq<nat>, listed: set<nat>, top: nat): Option<seq<Chunk>>
    requires top < |when| && forall p :: 0 <= p < |when| ==> when[p] < |l.seen|
  {
    if top in listed && top !in l.seen[when[top]].files then None
    else
      var rest := if top == 0 then Some([]) else ReadListed(l, when, listed, top - 1);
      if rest.None? then None else Some(ReadAt(l, when, listed, top) + rest.value)
  }

  /** A listed file is gone at the moment the reader opens it. */
  ghost predicate GoneBefore(l: Log, when: seq<nat>, listed: set<nat>, top: nat)
    requires top < |when| && forall p :: 0 <= p < |when| ==> when[p] < |l.seen|
  {
    exists p: nat :: p <= top && p in listed && p !in l.seen[when[p]].files
  }

  lemma {:induction false} ReadListedExactly(l: Log, when: seq<nat>, listed: set<nat>, top: nat)
    requires top < |when| && forall p :: 0 <= p < |when| ==> when[p] < |l.seen|
    ensures ReadListed(l, when, listed, top) ==
      if GoneBefore(l, when, listed, top) then None else Some(ReadDown(l, when, listed, top))
    decreases top
  {
    hide ReadAt;
    if top > 0 {
      ReadListedExactly(l, when, listed, top - 1);
      assert GoneBefore(l, when, listed, top) <==>
          GoneBefore(l, when, listed, top - 1) || (top in listed && top !in l.seen[when[top]].files);
    }
  }

  /** What the reader finds in the places above n that it listed. */
  function ListedLeftovers(d: Disk, n: nat, top: nat, listed: set<nat>): seq<Chunk> {
    if top <= n then []
    else (if top in listed then Part(d, top) else []) + ListedLeftovers(d, n, top - 1, listed)
  }

  /** Places that the logger does not use look the same at every moment. */
  ghost predicate AboveIs(l: Log, n: nat, d: Disk) {
    forall k, p: nat :: 0 <= k < |l.seen| && n < p ==> Part(l.seen[k].files, p) == Part(d, p)
  }

  lemma {:induction false} AboveIsKept(d: Disk, c: Settings, writes: seq<(Chunk, Io)>)
    requires c.Valid()
    ensures AboveIs(Run(Open(d, c.maxBackups), c, writes), c.maxBackups, d)
  {
    hide Run;
    var first := Open(d, c.maxBackups);
    forall k, p: nat | 0 <= k < |Run(first, c, writes).seen| && c.maxBackups < p
      ensures Part(Run(first, c, writes).seen[k].files, p) == Part(d, p)
    {
      RunHolds(first, c, writes, p, Part(d, p));
    }
  }

  lemma {:induction false} LeftoversFirst(l: Log, n: nat, d: Disk, when: seq<nat>, listed: set<nat>, top: nat)
    requires AboveIs(l, n, d) && top < |when| && forall p :: 0 <= p < |when| ==> when[p] < |l.seen|
    ensures ReadDown(l, when, listed, top) ==
            ListedLeftovers(d, n, top, listed) + ReadDown(l, when, listed, Min(n, top))
    decreases top
  {
    hide AboveIs, ReadAt, Part, ReadDown, ListedLeftovers;
    var rest := ReadDown(l, when, listed, Min(n, top));
    if top > n {
      LeftoversFirst(l, n, d, when, listed, top - 1);
      DownStep(l, when, listed, top);
      LeftoverStep(l, n, d, when, listed, top);
      Associates(ReadAt(l, when, listed, top), ListedLeftovers(d, n, top - 1, listed), rest);
    } else {
      NoLeftovers(d, n, top, listed, rest);
    }
  }

  lemma NoLeftovers(d: Disk, n: nat, top: nat, listed: set<nat>, rest: seq<Chunk>)
    requires top <= n
    ensures ListedLeftovers(d, n, top, listed) + rest == rest
  {
  }

  lemma LeftoverStep(l: Log, n: nat, d: Disk, when: seq<nat>, listed: set<nat>, top: nat)
    requires AboveIs(l, n, d) && n < top < |when| && when[top] < |l.seen|
    ensures ListedLeftovers(d, n, top, listed) ==
            ReadAt(l, when, listed, top) + ListedLeftovers(d, n, top - 1, listed)
  {
  }

  lemma Associates(a: seq<Chunk>, b: seq<Chunk>, c: seq<Chunk>)
    ensures a + (b + c) == (a + b) + c
  {
  }

  lemma DownStep(l: Log, when: seq<nat>, listed: set<nat>, top: nat)
    requires 0 < top < |when| && forall p :: 0 <= p < |when| ==> when[p] < |l.seen|
    ensures ReadDown(l, when, listed, top) == ReadAt(l, when, listed, top) + ReadDown(l, when, listed, top - 1)
  {
  }

  /**
   A reader that runs while the log is written and rotated, with errors anywhere. It fails exactly if a file that it
   listed is gone when it comes to open it. Otherwise it gets what lay in places the logger does not use, and then
   records of the history in order and none twice. These are a suffix without a gap exactly if it misses none, which
   is exactly if each place it did not list was empty when its turn came, and no file was renamed past it between two
   of its reads.
   */
  lemma ReaderWhileRotating(d: Disk, c: Settings, writes: seq<(Chunk, Io)>, when: seq<nat>, listed: set<nat>)
    requires c.Valid() && |when| == DEFAULT_MAX_BACKUPS + 1
    requires Schedule(Run(Open(d, c.maxBackups), c, writes), when)
    ensures
      var l := Run(Open(d, c.maxBackups), c, writes);
      var used := Min(c.maxBackups, DEFAULT_MAX_BACKUPS);
      var r := ReadDown(l, when, listed, used);
      && ReadListed(l, when, listed, DEFAULT_MAX_BACKUPS) ==
         (if GoneBefore(l, when, listed, DEFAULT_MAX_BACKUPS) then None
          else Some(ListedLeftovers(d, c.maxBackups, DEFAULT_MAX_BACKUPS, listed) + r))
      && (exists at :: Picks(r, l.history, at))
      && |r| + Missed(l, when, listed, used) == |l.seen[when[0]].history| - Start(l.seen[when[used]], used)
      && Missed(l, when, listed, used) >= 0
      && (Missed(l, when, listed, used) == 0 <==> Undisturbed(l, when, listed, used))
      && (Undisturbed(l, when, listed, used) ==> IsSuffix(r, l.seen[when[0]].history))
  {
    hide Run, Picks, Chained, Start, Undisturbed, Missed, ReadDown, ReadListed, GoneBefore, ListedLeftovers;
    var n := c.maxBackups;
    var first, used := Open(d, n), Min(n, DEFAULT_MAX_BACKUPS);
    OpenGood(d, n);
    OpenChained(d, n);
    RunGood(first, c, writes);
    RunChained(first, c, writes);
    AboveIsKept(d, c, writes);
    var l := Run(first, c, writes);
    ReadListedExactly(l, when, listed, DEFAULT_MAX_BACKUPS);
    LeftoversFirst(l, n, d, when, listed, DEFAULT_MAX_BACKUPS);
    var at := ReadDownPicks(l, n, when, listed, used);
    MissedExactly(l, n, when, listed, used);
    if Undisturbed(l, when, listed, used) {
      UndisturbedReads(l, n, when, listed, used);
    }
  }

  lemma OpenChained(d: Disk, n: nat)
    ensures Chained(Open(d, n), n)
  {
  }
}
