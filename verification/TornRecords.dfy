/**
 Records cut short by an error, and exactly when the log can still be read.

 Nothing repairs a record that was cut short, so the next record lands on the same line. What is asked of the
 JSON codec is that such a line does not decode.
 */
module TornRecords {
  import opened Options
  import opened EventLog
  import opened EventLogRetention
  import opened LogReader

  /** The beginning of an encoded record, or all of it, without the newline. */
  ghost predicate Fragment<E(!new)>(p: Chunk, encode: E -> Chunk) {
    p != [] && exists e :: p <= encode(e)
  }

  ghost predicate Fragments<E(!new)>(ps: seq<Chunk>, encode: E -> Chunk) {
    forall i :: 0 <= i < |ps| ==> Fragment(ps[i], encode)
  }

  /**
   A codec that notices damage: besides what `Codec` says, an encoded record is not empty and has no carriage
   return in it, no proper beginning of it decodes, and neither do several fragments on one line.
   */
  ghost predicate StrictCodec<E(!new)>(encode: E -> Chunk, decode: Decoder<E>) {
    && Codec(encode, decode)
    && (forall e :: encode(e) != [] && RETURN !in encode(e))
    && (forall e, p :: p < encode(e) ==> decode(p) == None)
    && (forall ps :: |ps| >= 2 && Fragments(ps, encode) ==> decode(Flatten(ps)) == None)
  }

  // ----- chunks -----

  ghost predicate Whole<E(!new)>(c: Chunk, encode: E -> Chunk) {
    exists e :: c == encode(e) + [NEWLINE]
  }

  /** A whole record but for its newline. */
  ghost predicate Unended<E(!new)>(c: Chunk, encode: E -> Chunk) {
    exists e :: c == encode(e)
  }

  /** What one write of one record can leave in a file. */
  ghost predicate Piece<E(!new)>(c: Chunk, encode: E -> Chunk) {
    c != [] && exists e :: c <= encode(e) + [NEWLINE]
  }

  ghost predicate Pieces<E(!new)>(cs: seq<Chunk>, encode: E -> Chunk) {
    forall i :: 0 <= i < |cs| ==> Piece(cs[i], encode)
  }

  /** Every chunk is whole, except that the last one may lack its newline. */
  ghost predicate Intact<E(!new)>(cs: seq<Chunk>, encode: E -> Chunk) {
    forall i :: 0 <= i < |cs| ==> Whole(cs[i], encode) || (i == |cs| - 1 && Unended(cs[i], encode))
  }

  /** The records that the chunks hold, each taken by itself. */
  function Values<E>(cs: seq<Chunk>, decode: Decoder<E>): seq<E> {
    if cs == [] then []
    else
      (match decode(TrimEnd(cs[0]))
       case Some(e) => [e]
       case None => []) + Values(cs[1..], decode)
  }

  lemma {:induction false} ValuesConcat<E>(a: seq<Chunk>, b: seq<Chunk>, decode: Decoder<E>)
    ensures Values(a + b, decode) == Values(a, decode) + Values(b, decode)
    decreases |a|
  {
    if a == [] {
      assert a + b == b;
    } else {
      assert (a + b)[1..] == a[1..] + b;
      ValuesConcat(a[1..], b, decode);
    }
  }

  lemma PieceIsWholeOrFragment<E(!new)>(c: Chunk, encode: E -> Chunk)
    requires Piece(c, encode)
    ensures Whole(c, encode) || Fragment(c, encode)
  {
    var e :| c <= encode(e) + [NEWLINE];
    var text := encode(e) + [NEWLINE];
    if |c| == |text| {
      assert c == text;
    } else {
      assert c == text[..|c|] == encode(e)[..|c|];
    }
  }

  lemma FragmentIsPlain<E(!new)>(p: Chunk, encode: E -> Chunk, decode: Decoder<E>)
    requires StrictCodec(encode, decode) && Fragment(p, encode)
    ensures NEWLINE !in p && RETURN !in p && !Whole(p, encode)
    ensures TrimEnd(p) == p
    ensures decode(p).Some? <==> Unended(p, encode)
  {
    var e :| p <= encode(e);
    assert NEWLINE !in encode(e) && RETURN !in encode(e);
    assert p[|p| - 1] == encode(e)[|p| - 1];
    forall f ensures p != encode(f) + [NEWLINE] {
      assert (encode(f) + [NEWLINE])[|encode(f)|] == NEWLINE;
    }
    if p != encode(e) {
      assert p < encode(e);
    }
    if Unended(p, encode) {
      var f :| p == encode(f);
      assert decode(encode(f)) == Some(f);
    }
  }

  // ----- the first line of a file that begins with a fragment -----

  /** The fragments on the first line. */
  function FirstLine(cs: seq<Chunk>): seq<Chunk> {
    if cs == [] then []
    else if cs[0] != [] && cs[0][|cs[0]| - 1] == NEWLINE then [cs[0][..|cs[0]| - 1]]
    else [cs[0]] + FirstLine(cs[1..])
  }

  lemma WholeStart<E(!new)>(c: Chunk, encode: E -> Chunk, decode: Decoder<E>) returns (e: E)
    requires StrictCodec(encode, decode) && Whole(c, encode)
    ensures c == encode(e) + [NEWLINE] && NEWLINE !in encode(e)
    ensures TrimEnd(c) == encode(e) && decode(encode(e)) == Some(e)
    ensures encode(e) != [] && RETURN !in encode(e)
  {
    e :| c == encode(e) + [NEWLINE];
    assert decode(encode(e)) == Some(e);
    TrimLine(encode(e));
  }

  lemma {:induction false} LineEndBeyond(a: Chunk, rest: Chunk)
    requires NEWLINE !in a
    ensures LineEnd(a + rest) == |a| + LineEnd(rest)
  {
    if a == [] {
      assert a + rest == rest;
    } else {
      assert (a + rest)[1..] == a[1..] + rest;
      LineEndBeyond(a[1..], rest);
    }
  }

  /** The first line, less its newline if it has one, is made of the fragments on it. */
  ghost predicate MadeOf<E(!new)>(text: Chunk, fragments: seq<Chunk>, encode: E -> Chunk) {
    var line, bare := text[..LineEnd(text)], Flatten(fragments);
    && Fragments(fragments, encode)
    && NEWLINE !in bare && RETURN !in bare
    && (line == bare || line == bare + [NEWLINE])
  }

  lemma LineOfWhole<E(!new)>(c: Chunk, rest: Chunk, encode: E -> Chunk, decode: Decoder<E>)
    requires StrictCodec(encode, decode) && Whole(c, encode)
    ensures MadeOf(c + rest, [c[..|c| - 1]], encode) && c[|c| - 1] == NEWLINE
  {
    var e := WholeStart(c, encode, decode);
    LineEndAt(encode(e), rest);
    assert c[..|c| - 1] == encode(e) <= encode(e);
    assert Fragment(encode(e), encode);
    assert Flatten([encode(e)]) == encode(e) + [] == encode(e);
    assert (c + rest)[..|c|] == c;
  }

  lemma LineOfFragment<E(!new)>(
    c: Chunk, rest: Chunk, fragments: seq<Chunk>, encode: E -> Chunk, decode: Decoder<E>)
    requires StrictCodec(encode, decode) && Fragment(c, encode) && MadeOf(rest, fragments, encode)
    ensures MadeOf(c + rest, [c] + fragments, encode) && c[|c| - 1] != NEWLINE
  {
    FragmentIsPlain(c, encode, decode);
    assert c[|c| - 1] in c;
    hide StrictCodec, Fragment;
    LineEndBeyond(c, rest);
    assert (c + rest)[..|c| + LineEnd(rest)] == c + rest[..LineEnd(rest)];
    assert ([c] + fragments)[1..] == fragments;
    assert Flatten([c] + fragments) == c + Flatten(fragments);
    assert c + (Flatten(fragments) + [NEWLINE]) == (c + Flatten(fragments)) + [NEWLINE];
  }

  lemma {:induction false} FirstLineText<E(!new)>(cs: seq<Chunk>, encode: E -> Chunk, decode: Decoder<E>)
    requires StrictCodec(encode, decode) && Pieces(cs, encode)
    ensures MadeOf(Flatten(cs), FirstLine(cs), encode)
    decreases |cs|
  {
    if cs != [] {
      hide StrictCodec, Piece, MadeOf, Whole, Fragment;
      var c, rest := cs[0], Flatten(cs[1..]);
      assert Piece(c, encode);
      PieceIsWholeOrFragment(c, encode);
      PieceIsNotEmpty(c, encode);
      if Whole(c, encode) {
        LineOfWhole(c, rest, encode, decode);
      } else {
        FirstLineText(cs[1..], encode, decode);
        LineOfFragment(c, rest, FirstLine(cs[1..]), encode, decode);
      }
    }
  }

  lemma PieceIsNotEmpty<E(!new)>(c: Chunk, encode: E -> Chunk)
    requires Piece(c, encode)
    ensures c != []
  {
  }

  lemma TrimPlain(line: Chunk)
    requires NEWLINE !in line && RETURN !in line
    ensures TrimEnd(line) == line && TrimEnd(line + [NEWLINE]) == line
  {
    assert (line + [NEWLINE])[..|line|] == line;
    assert line != [] ==> line[|line| - 1] in line;
  }

  /** A fragment with anything after it makes the file unreadable. */
  lemma {:induction false} FragmentThenMore<E(!new)>(cs: seq<Chunk>, encode: E -> Chunk, decode: Decoder<E>)
    requires StrictCodec(encode, decode) && Pieces(cs, encode) && |cs| >= 2 && Fragment(cs[0], encode)
    ensures Records(Flatten(cs), decode) == Err(BadLine)
  {
    FragmentIsPlain(cs[0], encode, decode);
    FirstLineText(cs, encode, decode);
    assert Piece(cs[1], encode);
    assert |FirstLine(cs)| >= 2;
    assert Flatten(cs) != [];
    TrimPlain(Flatten(FirstLine(cs)));
  }

  // ----- one file -----

  lemma {:induction false} WholeThenRest<E(!new)>(cs: seq<Chunk>, encode: E -> Chunk, decode: Decoder<E>)
    requires StrictCodec(encode, decode) && cs != [] && Whole(cs[0], encode)
    ensures
      Records(Flatten(cs), decode) ==
      Prefixed(Values([cs[0]], decode), Records(Flatten(cs[1..]), decode))
  {
    hide StrictCodec, Records;
    var e := WholeStart(cs[0], encode, decode);
    var rest := Flatten(cs[1..]);
    LineEndAt(encode(e), rest);
    assert Flatten(cs) == encode(e) + [NEWLINE] + rest;
    assert Flatten(cs)[..|cs[0]|] == cs[0] && Flatten(cs)[|cs[0]|..] == rest;
    RecordStep(Flatten(cs), decode, [], e);
    PrefixedByNothing(Records(Flatten(cs), decode));
    assert [] + [e] == [e] == Values([cs[0]], decode);
  }

  lemma {:induction false} OneFragment<E(!new)>(c: Chunk, encode: E -> Chunk, decode: Decoder<E>)
    requires StrictCodec(encode, decode) && Fragment(c, encode)
    ensures Records(c, decode) == if Unended(c, encode) then Ok(Values([c], decode)) else Err(BadLine)
  {
    FragmentIsPlain(c, encode, decode);
    LineEndBeyond(c, []);
    assert c + [] == c && c[..|c|] == c && c[|c|..] == [];
  }

  /** A file can be read exactly if it is intact, and then holds the records of its chunks. */
  lemma {:induction false} FileReadsExactly<E(!new)>(cs: seq<Chunk>, encode: E -> Chunk, decode: Decoder<E>)
    requires StrictCodec(encode, decode) && Pieces(cs, encode)
    ensures Records(Flatten(cs), decode) == if Intact(cs, encode) then Ok(Values(cs, decode)) else Err(BadLine)
    decreases |cs|
  {
    hide StrictCodec, Piece, Whole, Unended, Records, Fragment;
    if cs == [] {
      EmptyReads(decode);
    } else {
      assert Piece(cs[0], encode);
      PieceIsWholeOrFragment(cs[0], encode);
      assert cs == [cs[0]] + cs[1..];
      if Whole(cs[0], encode) {
        FileReadsExactly(cs[1..], encode, decode);
        WholeThenRest(cs, encode, decode);
        ValuesConcat([cs[0]], cs[1..], decode);
        IntactTail(cs, encode);
      } else {
        FragmentIsPlain(cs[0], encode, decode);
        if |cs| >= 2 {
          FragmentThenMore(cs, encode, decode);
          assert !Intact(cs, encode);
        } else {
          OneFragment(cs[0], encode, decode);
          assert cs == [cs[0]] && Flatten(cs) == cs[0] + [] == cs[0];
        }
      }
    }
  }

  lemma EmptyReads<E>(decode: Decoder<E>)
    ensures Records(Flatten([]), decode) == Ok([]) && Values([], decode) == []
  {
  }

  lemma IntactTail<E(!new)>(cs: seq<Chunk>, encode: E -> Chunk)
    requires cs != [] && Whole(cs[0], encode)
    ensures Intact(cs, encode) <==> Intact(cs[1..], encode)
  {
    hide Whole, Unended;
    if Intact(cs[1..], encode) {
      forall i | 0 < i < |cs| ensures Whole(cs[i], encode) || (i == |cs| - 1 && Unended(cs[i], encode)) {
        assert cs[i] == cs[1..][i - 1];
      }
    }
  }

  // ----- the whole log -----

  ghost predicate DiskPieces<E(!new)>(d: Disk, top: nat, encode: E -> Chunk) {
    forall j: nat :: j <= top ==> Pieces(Part(d, j), encode)
  }

  /** Every file that is read is intact. */
  ghost predicate Readable<E(!new)>(d: Disk, top: nat, encode: E -> Chunk) {
    forall j: nat :: j <= top ==> Intact(Part(d, j), encode)
  }

  /**
   The log can be read exactly if every retained chunk is whole, or is the last of its file and lacks only its
   newline.
   */
  lemma {:induction false} LogReadsExactly<E(!new)>(
    d: Disk, top: nat, encode: E -> Chunk, decode: Decoder<E>, keep: E -> bool)
    requires StrictCodec(encode, decode) && DiskPieces(d, top, encode)
    ensures FilesFrom(d, top, decode, keep) ==
            if Readable(d, top, encode) then Ok(Filter(Values(Retained(d, top), decode), keep)) else Err(BadLine)
    decreases top
  {
    hide StrictCodec, Pieces, Intact, Records, Filter, Values;
    var part := Part(d, top);
    assert Pieces(part, encode);
    FileReadsExactly(part, encode, decode);
    EmptyReads(decode);
    if top > 0 {
      assert DiskPieces(d, top - 1, encode);
      LogReadsExactly(d, top - 1, encode, decode, keep);
      assert Readable(d, top, encode) <==> Intact(part, encode) && Readable(d, top - 1, encode);
      var rest := Retained(d, top - 1);
      ValuesConcat(part, rest, decode);
      FilterConcat(Values(part, decode), Values(rest, decode), keep);
    } else {
      assert Readable(d, top, encode) <==> Intact(part, encode);
      assert part + [] == part;
    }
  }

  // ----- over whole runs -----

  /** Every write, and every rotation, is of one encoded record. */
  ghost predicate Recorded<E(!new)>(writes: seq<(Chunk, Io)>, encode: E -> Chunk) {
    forall i :: 0 <= i < |writes| ==> Whole(writes[i].0, encode) && Whole(writes[i].1.rotationRecord, encode)
  }

  lemma KeptIsPiece<E(!new)>(data: Chunk, w: WriteOutcome, encode: E -> Chunk)
    requires Whole(data, encode)
    ensures Kept(data, w) == [] || Piece(Kept(data, w), encode)
  {
    var e :| data == encode(e) + [NEWLINE];
    assert Kept(data, w) <= encode(e) + [NEWLINE];
  }

  lemma {:induction false} PiecesConcat<E(!new)>(a: seq<Chunk>, b: seq<Chunk>, encode: E -> Chunk)
    ensures Pieces(a + b, encode) <==> Pieces(a, encode) && Pieces(b, encode)
  {
    hide Piece;
    if Pieces(a + b, encode) {
      forall i | 0 <= i < |a| ensures Piece(a[i], encode) {
        assert a[i] == (a + b)[i];
      }
      forall i | 0 <= i < |b| ensures Piece(b[i], encode) {
        assert b[i] == (a + b)[|a| + i];
      }
    }
  }

  /** Renaming leaves the history alone. */
  lemma {:induction false} ShiftFromHistory(l: Log, n: nat, i: nat, io: Io)
    ensures ShiftFrom(l, n, i, io).0.history == l.history
    decreases i
  {
    if i > 0 {
      if i == n {
        ShiftFromHistory(if io.removeOk then Remove(l, i) else l, n, i - 1, io);
      } else if i !in l.files {
        ShiftFromHistory(l, n, i - 1, io);
      } else if io.failingRename != i {
        ShiftFromHistory(Shift(l, i), n, i - 1, io);
      }
    }
  }

  lemma {:induction false} RotatedHistory(l: Log, c: Settings, next: nat, io: Io)
    ensures
      var h := Rotated(l, c, next, io).0.history;
      h == l.history || h == l.history + [Kept(io.rotationRecord, io.rotationWrite)]
    ensures Rotated(l, c, next, io).0.history != l.history ==> Kept(io.rotationRecord, io.rotationWrite) != []
  {
    hide ShiftFrom;
    ShiftFromHistory(l.(open := false), c.maxBackups, c.maxBackups, io);
  }

  lemma {:induction false} RunPieces<E(!new)>(l: Log, c: Settings, writes: seq<(Chunk, Io)>, encode: E -> Chunk)
    requires Pieces(l.history, encode) && Recorded(writes, encode)
    ensures Pieces(Run(l, c, writes).history, encode)
    decreases |writes|
  {
    hide Piece, Whole, Rotated;
    if writes != [] {
      var k := |writes| - 1;
      var (data, io) := writes[k];
      assert Recorded(writes[..k], encode);
      RunPieces(l, c, writes[..k], encode);
      var m := Run(l, c, writes[..k]);
      RotatedHistory(m, c, |data|, io);
      KeptIsPiece(data, io.write, encode);
      KeptIsPiece(io.rotationRecord, io.rotationWrite, encode);
    }
  }

  lemma {:induction false} RetainedPieces<E(!new)>(d: Disk, top: nat, encode: E -> Chunk)
    ensures Pieces(Retained(d, top), encode) <==> DiskPieces(d, top, encode)
    decreases top
  {
    hide Pieces;
    if top > 0 {
      RetainedPieces(d, top - 1, encode);
      PiecesConcat(Part(d, top), Retained(d, top - 1), encode);
      assert DiskPieces(d, top, encode) <==> Pieces(Part(d, top), encode) && DiskPieces(d, top - 1, encode);
    } else {
      assert Retained(d, 0) == Part(d, 0);
      assert DiskPieces(d, 0, encode) <==> Pieces(Part(d, 0), encode);
    }
  }

  lemma SuffixPieces<E(!new)>(a: seq<Chunk>, b: seq<Chunk>, encode: E -> Chunk)
    requires IsSuffix(a, b) && Pieces(b, encode)
    ensures Pieces(a, encode)
  {
    hide Piece;
    forall i | 0 <= i < |a| ensures Piece(a[i], encode) {
      assert a[i] == b[|b| - |a| + i];
    }
  }

  lemma {:induction false} LeftoverPieces<E(!new)>(d: Disk, n: nat, top: nat, encode: E -> Chunk)
    requires DiskPieces(d, top, encode)
    ensures Pieces(Leftovers(d, n, top), encode)
    decreases top
  {
    hide Pieces;
    if top <= n {
      NoPieces(encode);
    } else {
      assert DiskPieces(d, top - 1, encode);
      LeftoverPieces(d, n, top - 1, encode);
      PiecesConcat(Part(d, top), Leftovers(d, n, top - 1), encode);
    }
  }

  lemma NoPieces<E(!new)>(encode: E -> Chunk)
    ensures Pieces([], encode)
  {
  }

  lemma {:induction false} SnapshotPieces<E(!new)>(
    d: Disk, c: Settings, writes: seq<(Chunk, Io)>, k: nat, encode: E -> Chunk)
    requires c.Valid() && Recorded(writes, encode)
    requires DiskPieces(d, Max(c.maxBackups, DEFAULT_MAX_BACKUPS), encode)
    requires k < |Run(Open(d, c.maxBackups), c, writes).seen|
    ensures DiskPieces(Run(Open(d, c.maxBackups), c, writes).seen[k].files, DEFAULT_MAX_BACKUPS, encode)
  {
    hide Run, Pieces, Retained, Leftovers, Recorded;
    var first := Open(d, c.maxBackups);
    var l := Run(first, c, writes);
    assert forall j: nat :: Part(first.files, j) == Part(d, j);
    RetainedPieces(first.files, c.maxBackups, encode);
    RunPieces(first, c, writes, encode);
    ReaderAlwaysSeesSuffix(d, c, writes);
    var used := Min(c.maxBackups, DEFAULT_MAX_BACKUPS);
    assert FaithfulSnapshot(l.seen[k], l.history, used);
    PrefixPieces(l.seen[k].history, l.history, encode);
    SuffixPieces(Retained(l.seen[k].files, used), l.seen[k].history, encode);
    assert DiskPieces(d, DEFAULT_MAX_BACKUPS, encode);
    LeftoverPieces(d, c.maxBackups, DEFAULT_MAX_BACKUPS, encode);
    PiecesConcat(Leftovers(d, c.maxBackups, DEFAULT_MAX_BACKUPS), Retained(l.seen[k].files, used), encode);
    RetainedPieces(l.seen[k].files, DEFAULT_MAX_BACKUPS, encode);
  }

  lemma PrefixPieces<E(!new)>(a: seq<Chunk>, b: seq<Chunk>, encode: E -> Chunk)
    requires a <= b && Pieces(b, encode)
    ensures Pieces(a, encode)
  {
    hide Piece;
    forall i | 0 <= i < |a| ensures Piece(a[i], encode) {
      assert a[i] == b[i];
    }
  }

  /**
   End to end, with torn records: after any run of writes with any errors, at any moment, reading succeeds if
   and only if every chunk on the disk is whole, or is the last of its file and lacks only its newline. Then
   the reader returns the matching ones of exactly the records that are on the disk.
   */
  lemma ReadBackExactly<E(!new)>(
    d: Disk, c: Settings, writes: seq<(Chunk, Io)>, k: nat, encode: E -> Chunk, decode: Decoder<E>, keep: E -> bool)
    requires c.Valid() && StrictCodec(encode, decode) && Recorded(writes, encode)
    requires DiskPieces(d, Max(c.maxBackups, DEFAULT_MAX_BACKUPS), encode)
    requires k < |Run(Open(d, c.maxBackups), c, writes).seen|
    ensures
      var files := Run(Open(d, c.maxBackups), c, writes).seen[k].files;
      FilesFrom(files, DEFAULT_MAX_BACKUPS, decode, keep) ==
        if Readable(files, DEFAULT_MAX_BACKUPS, encode)
        then Ok(Filter(Values(Retained(files, DEFAULT_MAX_BACKUPS), decode), keep)) else Err(BadLine)
  {
    hide Run, StrictCodec, Recorded, DiskPieces;
    SnapshotPieces(d, c, writes, k, encode);
    LogReadsExactly(Run(Open(d, c.maxBackups), c, writes).seen[k].files, DEFAULT_MAX_BACKUPS, encode, decode, keep);
  }

  /** What `ReadAll` answers at any moment of any run, with torn records anywhere. */
  lemma AnswerExactly<E(!new)>(
    d: Disk, c: Settings, writes: seq<(Chunk, Io)>, k: nat, encode: E -> Chunk, decode: Decoder<E>,
    keep: E -> bool, newestFirst: bool, limit: int, r: Result<seq<E>, ReadError>)
    requires c.Valid() && StrictCodec(encode, decode) && Recorded(writes, encode)
    requires DiskPieces(d, Max(c.maxBackups, DEFAULT_MAX_BACKUPS), encode)
    requires
      var l := Run(Open(d, c.maxBackups), c, writes);
      && k < |l.seen| && Exists(l.seen[k].files)
      && Answers(r, l.seen[k].files, decode, keep, newestFirst, limit)
    ensures
      var files := Run(Open(d, c.maxBackups), c, writes).seen[k].files;
      var records := Values(Retained(files, DEFAULT_MAX_BACKUPS), decode);
      if Readable(files, DEFAULT_MAX_BACKUPS, encode)
      then r.Ok? && Selected(r.value, Filter(records, keep), newestFirst, limit)
      else r == Err(BadLine)
  {
    hide Run, StrictCodec, Recorded, DiskPieces, Readable, Values, Filter, FilesFrom, Selected, Exists;
    ReadBackExactly(d, c, writes, k, encode, decode, keep);
  }

  // ----- at an input -----

  /** A write of which `kept` bytes arrive, into a new log with room for it. */
  function TornIo(io: Io, kept: nat): Io {
    io.(statOk := true, write := Torn(kept))
  }

  function WholeIo(io: Io): Io {
    io.(statOk := true, write := Full)
  }

  lemma FirstWrite(c: Settings, data: Chunk, io: Io)
    requires c.Valid() && |data| <= c.maxBytes && io.statOk && Kept(data, io.write) != []
    ensures
      var l := Run(Open(map[], c.maxBackups), c, [(data, io)]);
      l.open && l.files == map[0 := [Kept(data, io.write)]]
  {
    var first := Open(map[], c.maxBackups);
    assert first.files == map[0 := []] && Size(Part(first.files, 0)) == 0;
    var ws := [(data, io)];
    assert ws[..0] == [];
    assert Run(first, c, ws[..0]) == first;
    assert [] + [Kept(data, io.write)] == [Kept(data, io.write)];
  }

  lemma UnendedValue<E(!new)>(e: E, encode: E -> Chunk, decode: Decoder<E>)
    requires StrictCodec(encode, decode) && TrimEnd(encode(e)) == encode(e)
    ensures Unended(encode(e), encode) && Values([encode(e)], decode) == [e]
  {
    assert decode(encode(e)) == Some(e);
    assert [e] + [] == [e];
  }

  /** A record that lost its newline and nothing else is read back, as long as it is the last. */
  lemma UnendedReadsBack<E(!new)>(c: Settings, e: E, io: Io, encode: E -> Chunk, decode: Decoder<E>)
    requires c.Valid() && StrictCodec(encode, decode) && |encode(e)| < c.maxBytes
    ensures
      var l := Run(Open(map[], c.maxBackups), c, [(encode(e) + [NEWLINE], TornIo(io, |encode(e)|))]);
      Records(Flatten(Part(l.files, 0)), decode) == Ok([e])
  {
    var data := encode(e) + [NEWLINE];
    assert encode(e) != [];
    hide StrictCodec, Run, Records;
    assert Kept(data, Torn(|encode(e)|)) == encode(e);
    FirstWrite(c, data, TornIo(io, |encode(e)|));
    assert encode(e) <= encode(e);
    assert Fragment(encode(e), encode);
    OneFragment(encode(e), encode, decode);
    FragmentIsPlain(encode(e), encode, decode);
    UnendedValue(e, encode, decode);
    assert Flatten([encode(e)]) == encode(e) + [] == encode(e);
  }

  lemma SecondWrite(c: Settings, one: (Chunk, Io), two: (Chunk, Io))
    requires c.Valid() && |one.0| <= c.maxBytes && one.1.statOk && two.1.statOk && two.1.write.Full? && two.0 != []
    requires Kept(one.0, one.1.write) != [] && |Kept(one.0, one.1.write)| + |two.0| <= c.maxBytes
    ensures
      var l := Run(Open(map[], c.maxBackups), c, [one, two]);
      Part(l.files, 0) == [Kept(one.0, one.1.write), two.0]
  {
    hide Open;
    FirstWrite(c, one.0, one.1);
    assert [one, two][..1] == [one];
    var first := Open(map[], c.maxBackups);
    var m, piece := Run(first, c, [one]), Kept(one.0, one.1.write);
    assert Size([piece]) == |piece|;
    assert Run(first, c, [one, two]) == Written(m, c, two.0, two.1).0;
    assert [piece] + [two.0] == [piece, two.0];
  }

  /** "What was written can be read" fails: a record cut short anywhere and then a whole one spoil the file. */
  lemma TornThenWriteFails<E(!new)>(
    c: Settings, e: E, f: E, kept: nat, io: Io, io': Io, encode: E -> Chunk, decode: Decoder<E>)
    requires c.Valid() && StrictCodec(encode, decode)
    requires 0 < kept <= |encode(e)| && kept + |encode(f)| + 1 <= c.maxBytes && |encode(e)| < c.maxBytes
    ensures
      var writes := [(encode(e) + [NEWLINE], TornIo(io, kept)), (encode(f) + [NEWLINE], WholeIo(io'))];
      var l := Run(Open(map[], c.maxBackups), c, writes);
      Records(Flatten(Part(l.files, 0)), decode) == Err(BadLine)
  {
    hide StrictCodec, Run;
    var one, two := (encode(e) + [NEWLINE], TornIo(io, kept)), (encode(f) + [NEWLINE], WholeIo(io'));
    var piece := encode(e)[..kept];
    assert Kept(one.0, Torn(kept)) == piece;
    SecondWrite(c, one, two);
    var cs := [piece, two.0];
    assert piece <= encode(e) && Fragment(piece, encode);
    assert piece <= encode(e) + [NEWLINE] && Piece(piece, encode);
    assert two.0 <= encode(f) + [NEWLINE] && Piece(two.0, encode);
    FragmentThenMore(cs, encode, decode);
  }

  // ----- such codecs exist -----

  function SampleEncode(e: bool): Chunk {
    [1, if e then 2 else 3]
  }

  function SampleDecode(c: Chunk): Option<bool> {
    if c == [1, 2] then Some(true) else if c == [1, 3] then Some(false) else None
  }

  lemma StrictCodecExists()
    ensures StrictCodec(SampleEncode, SampleDecode)
  {
    forall ps | |ps| >= 2 && Fragments(ps, SampleEncode) ensures SampleDecode(Flatten(ps)) == None {
      var a, b := ps[0], ps[1];
      assert Fragment(a, SampleEncode) && Fragment(b, SampleEncode);
      assert b[0] == 1;
      assert Flatten(ps) == a + (b + Flatten(ps[1..][1..]));
      assert Flatten(ps)[|a|] == 1;
    }
    forall e, p | p < SampleEncode(e) ensures SampleDecode(p) == None {
      assert |p| < 2;
    }
  }
}
