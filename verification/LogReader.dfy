/**
 Reading the log back: lines, records, filters, reversal, limits and summaries.

 The JSON codec is a parameter. All that is asked of it is what one line of JSON gives: decoding undoes
 encoding, and an encoded record contains no newline and does not end in a carriage return.
 */
module LogReader {
  import opened Options
  import opened EventLog
  import opened EventLogRetention

  const NEWLINE: Byte := 10
  const RETURN: Byte := 13

  datatype ReadError = NoLog | BadLine

  type Decoder<!E> = Chunk -> Option<E>

  // ----- lines -----

  /** The position just after the first newline, or the end of the text. */
  function LineEnd(text: Chunk): (n: nat)
    ensures n <= |text| && (text != [] ==> n > 0)
  {
    if text == [] then 0 else if text[0] == NEWLINE then 1 else 1 + LineEnd(text[1..])
  }

  /** Strip newlines and carriage returns at the end. */
  function TrimEnd(line: Chunk): (r: Chunk)
    ensures r <= line
  {
    if line != [] && (line[|line| - 1] == NEWLINE || line[|line| - 1] == RETURN) then TrimEnd(line[..|line| - 1])
    else line
  }

  /** All records of a file, or the first line that does not decode. */
  function Records<E>(text: Chunk, decode: Decoder<E>): Result<seq<E>, ReadError> {
    if text == [] then Ok([])
    else
      var n := LineEnd(text);
      match decode(TrimEnd(text[..n]))
      case None => Err(BadLine)
      case Some(e) =>
        match Records(text[n..], decode)
        case Err(x) => Err(x)
        case Ok(rest) => Ok([e] + rest)
  }

  function Filter<E>(es: seq<E>, keep: E -> bool): seq<E> {
    if es == [] then []
    else (if keep(es[0]) then [es[0]] else []) + Filter(es[1..], keep)
  }

  /** Filtering file by file is filtering the whole. */
  lemma {:induction false} FilterConcat<E>(a: seq<E>, b: seq<E>, keep: E -> bool)
    ensures Filter(a + b, keep) == Filter(a, keep) + Filter(b, keep)
  {
    if a == [] {
      assert a + b == b;
    } else {
      assert (a + b)[0] == a[0] && (a + b)[1..] == a[1..] + b;
      FilterConcat(a[1..], b, keep);
      var one := if keep(a[0]) then [a[0]] else [];
      assert one + (Filter(a[1..], keep) + Filter(b, keep)) == (one + Filter(a[1..], keep)) + Filter(b, keep);
    }
  }

  /** The filter keeps every matching record, as often as it occurs, and no other. */
  lemma {:induction false} FilterExactly<E>(es: seq<E>, keep: E -> bool, e: E)
    ensures multiset(Filter(es, keep))[e] == if keep(e) then multiset(es)[e] else 0
  {
    if es != [] {
      assert es == [es[0]] + es[1..];
      FilterExactly(es[1..], keep, e);
    }
  }

  /** A result with the records read before it. */
  function Prefixed<E>(before: seq<E>, r: Result<seq<E>, ReadError>): Result<seq<E>, ReadError> {
    match r
    case Err(x) => Err(x)
    case Ok(rest) => Ok(before + rest)
  }

  lemma PrefixedByNothing<E>(r: Result<seq<E>, ReadError>)
    ensures Prefixed([], r) == r
  {
    if r.Ok? {
      assert [] + r.value == r.value;
    }
  }

  /** The first line up to and including its newline. */
  method ReadLine(text: Chunk, start: nat) returns (end: nat)
    requires start <= |text|
    ensures end == start + LineEnd(text[start..])
  {
    end := start;
    while end < |text| && text[end] != NEWLINE
      invariant start <= end <= |text|
      invariant end + LineEnd(text[end..]) == start + LineEnd(text[start..])
    {
      assert text[end..][1..] == text[end + 1..];
      end := end + 1;
    }
    if end < |text| {
      assert text[end..][0] == NEWLINE;
      end := end + 1;
    }
  }

  lemma FilterOneMore<E>(es: seq<E>, e: E, keep: E -> bool)
    ensures Filter(es + [e], keep) == if keep(e) then Filter(es, keep) + [e] else Filter(es, keep)
  {
    FilterConcat(es, [e], keep);
    assert Filter([e], keep) == if keep(e) then [e] else [];
  }

  lemma {:induction false} RecordStep<E>(text: Chunk, decode: Decoder<E>, before: seq<E>, e: E)
    requires text != [] && decode(TrimEnd(text[..LineEnd(text)])) == Some(e)
    ensures Prefixed(before, Records(text, decode)) == Prefixed(before + [e], Records(text[LineEnd(text)..], decode))
  {
    var rest := Records(text[LineEnd(text)..], decode);
    if rest.Ok? {
      assert before + ([e] + rest.value) == (before + [e]) + rest.value;
    }
  }

  /** The reading loop over one file. */
  method ReadOne<E>(text: Chunk, decode: Decoder<E>, keep: E -> bool) returns (r: Result<seq<E>, ReadError>)
    ensures Records(text, decode).Ok? <==> r.Ok?
    ensures r.Ok? ==> r.value == Filter(Records(text, decode).value, keep)
    ensures r.Err? ==> r.error == BadLine
  {
    var events: seq<E> := [];
    ghost var all: seq<E> := [];
    var pos := 0;
    assert text[0..] == text;
    PrefixedByNothing(Records(text, decode));
    while pos < |text|
      invariant pos <= |text|
      invariant events == Filter(all, keep)
      invariant Records(text, decode) ==
                Prefixed(all, Records(text[pos..], decode))
    {
      var end := ReadLine(text, pos);
      assert text[pos..][..end - pos] == text[pos..end] && text[pos..][end - pos..] == text[end..];
      match decode(TrimEnd(text[pos..end])) {
        case None =>
          return Err(BadLine);
        case Some(e) =>
          FilterOneMore(all, e, keep);
          RecordStep(text[pos..], decode, all, e);
          if keep(e) {
            events := events + [e];
          }
          all := all + [e];
          pos := end;
      }
    }
    assert text[pos..] == [];
    assert all + [] == all;
    return Ok(events);
  }

  // ----- what was written comes back -----

  function Flatten(chunks: seq<Chunk>): Chunk {
    if chunks == [] then [] else chunks[0] + Flatten(chunks[1..])
  }

  /** What is assumed of the JSON codec. */
  ghost predicate Codec<E(!new)>(encode: E -> Chunk, decode: Decoder<E>) {
    forall e :: && decode(encode(e)) == Some(e)
                && NEWLINE !in encode(e)
                && (encode(e) != [] ==> encode(e)[|encode(e)| - 1] != RETURN)
  }

  /** Chunk by chunk, the text holds these records, one per line. */
  ghost predicate Encodes<E>(chunks: seq<Chunk>, es: seq<E>, encode: E -> Chunk) {
    |chunks| == |es| && forall i :: 0 <= i < |es| ==> chunks[i] == encode(es[i]) + [NEWLINE]
  }

  lemma {:induction false} LineEndAt(line: Chunk, rest: Chunk)
    requires NEWLINE !in line
    ensures LineEnd(line + [NEWLINE] + rest) == |line| + 1
  {
    var text := line + [NEWLINE] + rest;
    if line != [] {
      assert text[1..] == line[1..] + [NEWLINE] + rest;
      LineEndAt(line[1..], rest);
    }
  }

  lemma TrimLine(line: Chunk)
    requires NEWLINE !in line && (line != [] ==> line[|line| - 1] != RETURN)
    ensures TrimEnd(line + [NEWLINE]) == line
  {
    assert (line + [NEWLINE])[..|line|] == line;
  }

  /** Round trip: the bytes of appended records read back as exactly these records, in order. */
  lemma {:induction false} RecordsOfChunks<E(!new)>(
    chunks: seq<Chunk>, es: seq<E>, encode: E -> Chunk, decode: Decoder<E>)
    requires Codec(encode, decode) && Encodes(chunks, es, encode)
    ensures Records(Flatten(chunks), decode) == Ok(es)
    decreases |chunks|
  {
    if chunks != [] {
      var line, rest := encode(es[0]), Flatten(chunks[1..]);
      var text := Flatten(chunks);
      assert text == line + [NEWLINE] + rest;
      assert NEWLINE !in encode(es[0]);
      LineEndAt(line, rest);
      assert text[..|line| + 1] == line + [NEWLINE] && text[|line| + 1..] == rest;
      TrimLine(line);
      RecordsOfChunks(chunks[1..], es[1..], encode, decode);
      assert [es[0]] + es[1..] == es;
    }
  }

  // ----- the whole log -----

  /** Decode and filter the files from place `top` down to the current one. */
  function FilesFrom<E>(d: Disk, top: nat, decode: Decoder<E>, keep: E -> bool): Result<seq<E>, ReadError> {
    match (if top in d then Records(Flatten(d[top]), decode) else Ok([]))
    case Err(x) => Err(x)
    case Ok(part) =>
      if top == 0 then Ok(Filter(part, keep))
      else
        match FilesFrom(d, top - 1, decode, keep)
        case Err(x) => Err(x)
        case Ok(rest) => Ok(Filter(part, keep) + rest)
  }

  function Reversed<E>(es: seq<E>): (r: seq<E>)
    ensures |r| == |es|
    ensures forall i :: 0 <= i < |es| ==> r[i] == es[|es| - 1 - i]
  {
    if es == [] then [] else Reversed(es[1..]) + [es[0]]
  }

  /**
   What a caller asked for: all matching records in file order if there is no limit, else that many; from the oldest
   on, or from the newest back.
   */
  ghost predicate Selected<E(!new)>(r: seq<E>, all: seq<E>, newestFirst: bool, limit: int) {
    && |r| == (if limit <= 0 || |all| < limit then |all| else limit)
    && (!newestFirst ==> forall i :: 0 <= i < |r| ==> r[i] == all[i])
    && (newestFirst ==> forall i :: 0 <= i < |r| ==> r[i] == all[|all| - 1 - i])
  }

  method Reverse<E>(a: array<E>)
    modifies a
    ensures a[..] == Reversed(old(a[..]))
  {
    var i, j := 0, a.Length - 1;
    while i < j
      invariant 0 <= i <= a.Length && j == a.Length - 1 - i
      invariant i <= j + 1
      invariant forall k :: 0 <= k < i ==> a[k] == old(a[a.Length - 1 - k]) && a[a.Length - 1 - k] == old(a[k])
      invariant forall k :: i <= k <= j ==> a[k] == old(a[k])
    {
      a[i], a[j] := a[j], a[i];
      i, j := i + 1, j - 1;
    }
    forall k | 0 <= k < a.Length
      ensures a[k] == Reversed(old(a[..]))[k]
    {
      assert old(a[..])[a.Length - 1 - k] == old(a[a.Length - 1 - k]);
      if k < i {
      } else if k <= j {
        assert a.Length - 1 - k == k;
      } else {
        var m := a.Length - 1 - k;
        assert a[a.Length - 1 - m] == old(a[m]);
      }
    }
  }

  /** The log has at least one file that a reader looks for. */
  predicate Exists(d: Disk) {
    exists i: nat :: i <= DEFAULT_MAX_BACKUPS && i in d
  }

  /** The answer to a request for the matching records: an error, or the selection. */
  ghost predicate Answers<E(!new)>(
    r: Result<seq<E>, ReadError>, d: Disk, decode: Decoder<E>, keep: E -> bool, newestFirst: bool, limit: int)
  {
    if !Exists(d) then r == Err(NoLog)
    else
      match FilesFrom(d, DEFAULT_MAX_BACKUPS, decode, keep)
      case Err(_) => r == Err(BadLine)
      case Ok(all) => r.Ok? && Selected(r.value, all, newestFirst, limit)
  }

  /** Read five backups from the oldest on and the current file, then order and cut. */
  method ReadAll<E(!new)>(d: Disk, decode: Decoder<E>, keep: E -> bool, newestFirst: bool, limit: int)
    returns (r: Result<seq<E>, ReadError>)
    ensures Answers(r, d, decode, keep, newestFirst, limit)
  {
    hide Records, Filter, Flatten, Selected;
    EmptyFilter(keep);
    var events: seq<E> := [];
    var found := false;
    var i := DEFAULT_MAX_BACKUPS + 1;
    ghost var whole := FilesFrom(d, DEFAULT_MAX_BACKUPS, decode, keep);
    PrefixedByNothing(whole);
    while i > 0
      invariant 0 <= i <= DEFAULT_MAX_BACKUPS + 1
      invariant found <==> exists j: nat :: i <= j <= DEFAULT_MAX_BACKUPS && j in d
      invariant i > 0 ==>
        whole == Prefixed(events, FilesFrom(d, i - 1, decode, keep))
      invariant i == 0 ==> whole == Ok(events)
    {
      i := i - 1;
      if i in d {
        found := true;
        var batch := ReadOne(Flatten(d[i]), decode, keep);
        if batch.Err? {
          RecordsError(Flatten(d[i]), decode);
          return Err(BadLine);
        }
        ghost var before := events;
        events := events + batch.value;
        if i > 0 && FilesFrom(d, i - 1, decode, keep).Ok? {
          var rest := FilesFrom(d, i - 1, decode, keep).value;
          assert before + (batch.value + rest) == events + rest;
        }
      } else {
        if i > 0 && FilesFrom(d, i - 1, decode, keep).Ok? {
          assert [] + FilesFrom(d, i - 1, decode, keep).value == FilesFrom(d, i - 1, decode, keep).value;
        } else {
          assert events + [] == events;
        }
      }
    }
    if !found {
      return Err(NoLog);
    }
    ghost var all := events;
    if newestFirst {
      if |events| > 0 {
        var a := new E[|events|](k requires 0 <= k < |events| => events[k]);
        assert a[..] == events;
        Reverse(a);
        events := a[..];
      }
    }
    ghost var ordered := events;
    if limit > 0 && |events| > limit {
      events := events[..limit];
    }
    CutSelects(events, ordered, all, newestFirst, limit);
    return Ok(events);
  }

  lemma CutSelects<E(!new)>(r: seq<E>, ordered: seq<E>, all: seq<E>, newestFirst: bool, limit: int)
    requires ordered == if newestFirst then Reversed(all) else all
    requires r == if limit > 0 && |ordered| > limit then ordered[..limit] else ordered
    ensures Selected(r, all, newestFirst, limit)
  {
  }

  lemma EmptyFilter<E>(keep: E -> bool)
    ensures Filter([], keep) == []
  {
  }

  lemma {:induction false} RecordsError<E>(text: Chunk, decode: Decoder<E>)
    ensures Records(text, decode).Err? ==> Records(text, decode).error == BadLine
    decreases |text|
  {
    if text != [] {
      RecordsError(text[LineEnd(text)..], decode);
    }
  }

  lemma {:induction false} EncodesSplit<E>(a: seq<Chunk>, b: seq<Chunk>, es: seq<E>, encode: E -> Chunk)
    returns (part: seq<E>, rest: seq<E>)
    requires Encodes(a + b, es, encode)
    ensures es == part + rest && Encodes(a, part, encode) && Encodes(b, rest, encode)
  {
    part, rest := es[..|a|], es[|a|..];
    forall i | 0 <= i < |a|
      ensures a[i] == encode(part[i]) + [NEWLINE]
    {
      assert (a + b)[i] == a[i];
    }
    forall i | 0 <= i < |b|
      ensures b[i] == encode(rest[i]) + [NEWLINE]
    {
      assert (a + b)[|a| + i] == b[i];
    }
  }

  lemma NothingEncoded<E>(es: seq<E>, encode: E -> Chunk)
    requires Encodes([], es, encode)
    ensures es == []
  {
  }

  lemma RetainedStep(d: Disk, top: nat)
    ensures Retained(d, top) == Part(d, top) + if top == 0 then [] else Retained(d, top - 1)
  {
  }

  /** Reading file by file is reading what is retained. */
  lemma {:induction false} FilesOfRetained<E(!new)>(
    d: Disk, top: nat, es: seq<E>, encode: E -> Chunk, decode: Decoder<E>, keep: E -> bool)
    requires Codec(encode, decode) && Encodes(Retained(d, top), es, encode)
    ensures FilesFrom(d, top, decode, keep) == Ok(Filter(es, keep))
    decreases top
  {
    hide Codec, Filter, Records, Flatten, FilesFrom, Part, Encodes, Retained;
    RetainedStep(d, top);
    if top == 0 {
      var part, rest := EncodesSplit(Part(d, 0), [], es, encode);
      RecordsOfChunks(Part(d, 0), part, encode, decode);
      NothingEncoded(rest, encode);
      FilesStep(d, 0, part, rest, decode, keep);
    } else {
      var part, rest := EncodesSplit(Part(d, top), Retained(d, top - 1), es, encode);
      RecordsOfChunks(Part(d, top), part, encode, decode);
      FilesOfRetained(d, top - 1, rest, encode, decode, keep);
      FilesStep(d, top, part, rest, decode, keep);
    }
  }

  lemma {:induction false} FilesStep<E>(
    d: Disk, top: nat, part: seq<E>, rest: seq<E>, decode: Decoder<E>, keep: E -> bool)
    requires Records(Flatten(Part(d, top)), decode) == Ok(part)
    requires if top == 0 then rest == [] else FilesFrom(d, top - 1, decode, keep) == Ok(Filter(rest, keep))
    ensures FilesFrom(d, top, decode, keep) == Ok(Filter(part + rest, keep))
  {
    hide Filter, Records, Flatten, FilesFrom, Part;
    FirstFile(d, top, part, decode, keep);
    FilterConcat(part, rest, keep);
    if top == 0 {
      assert part + rest == part;
    }
  }

  lemma {:induction false} FirstFile<E>(d: Disk, top: nat, part: seq<E>, decode: Decoder<E>, keep: E -> bool)
    requires Records(Flatten(Part(d, top)), decode) == Ok(part)
    ensures FilesFrom(d, top, decode, keep) ==
            if top == 0 then Ok(Filter(part, keep))
            else Prefixed(Filter(part, keep), FilesFrom(d, top - 1, decode, keep))
  {
    hide Filter;
    assert top !in d ==> Records(Flatten([]), decode) == Ok([]);
  }

  /**
   End to end: run any writes with any errors, look at the disk at any moment, and if the records that are
   still on it are whole, the reader returns exactly the matching ones, in the order of writing. What it reads
   are the latest of all records written, after leftovers in places that the logger does not use.
   */
  lemma {:induction false} ReadBackAnyMoment<E(!new)>(
    d: Disk, c: Settings, writes: seq<(Chunk, Io)>, k: nat,
    es: seq<E>, encode: E -> Chunk, decode: Decoder<E>, keep: E -> bool)
    requires c.Valid() && Codec(encode, decode)
    requires
      var l := Run(Open(d, c.maxBackups), c, writes);
      k < |l.seen| && Encodes(Retained(l.seen[k].files, DEFAULT_MAX_BACKUPS), es, encode)
    ensures
      var s := Run(Open(d, c.maxBackups), c, writes).seen[k];
      var kept := Retained(s.files, Min(c.maxBackups, DEFAULT_MAX_BACKUPS));
      && FilesFrom(s.files, DEFAULT_MAX_BACKUPS, decode, keep) == Ok(Filter(es, keep))
      && Retained(s.files, DEFAULT_MAX_BACKUPS) == Leftovers(d, c.maxBackups, DEFAULT_MAX_BACKUPS) + kept
      && IsSuffix(kept, s.history)
  {
    hide Run, Codec, Encodes;
    ReaderAlwaysSeesSuffix(d, c, writes);
    var l := Run(Open(d, c.maxBackups), c, writes);
    assert FaithfulSnapshot(l.seen[k], l.history, Min(c.maxBackups, DEFAULT_MAX_BACKUPS));
    FilesOfRetained(l.seen[k].files, DEFAULT_MAX_BACKUPS, es, encode, decode, keep);
  }

  /** What `ReadAll` answers at any moment of any run, if the records on the disk are whole. */
  lemma {:induction false} AnswerAnyMoment<E(!new)>(
    d: Disk, c: Settings, writes: seq<(Chunk, Io)>, k: nat, es: seq<E>, encode: E -> Chunk, decode: Decoder<E>,
    keep: E -> bool, newestFirst: bool, limit: int, r: Result<seq<E>, ReadError>)
    requires c.Valid() && Codec(encode, decode)
    requires
      var l := Run(Open(d, c.maxBackups), c, writes);
      && k < |l.seen| && Exists(l.seen[k].files)
      && Encodes(Retained(l.seen[k].files, DEFAULT_MAX_BACKUPS), es, encode)
      && Answers(r, l.seen[k].files, decode, keep, newestFirst, limit)
    ensures r.Ok? && Selected(r.value, Filter(es, keep), newestFirst, limit)
  {
    hide Run, Codec, Encodes, Filter, FilesFrom, Selected, Exists;
    ReadBackAnyMoment(d, c, writes, k, es, encode, decode, keep);
  }

  /** There is exactly one selection, so a caller knows what is returned. */
  lemma SelectedOnce<E(!new)>(a: seq<E>, b: seq<E>, all: seq<E>, newestFirst: bool, limit: int)
    requires Selected(a, all, newestFirst, limit) && Selected(b, all, newestFirst, limit)
    ensures a == b
  {
    assert forall i :: 0 <= i < |a| ==> a[i] == b[i];
  }

  /** Newest first and oldest first without a limit are each other's reversal. */
  lemma NewestFirst<E(!new)>(a: seq<E>, b: seq<E>, all: seq<E>, limit: int)
    requires Selected(a, all, true, limit) && Selected(b, all, false, 0)
    ensures b == all && |a| <= |b|
    ensures forall i :: 0 <= i < |a| ==> a[i] == b[|b| - 1 - i]
  {
    assert forall i :: 0 <= i < |b| ==> b[i] == all[i];
  }

  // ----- summaries -----

  /** The sum of all counts of a breakdown. */
  ghost function Total<K(!new)>(counts: map<K, nat>): nat
    decreases |counts|
  {
    if counts == map[] then 0
    else
      var k :| k in counts;
      counts[k] + Total(counts - {k})
  }

  /** The sum does not depend on the order in which the keys are taken. */
  lemma {:induction false} TotalByKey<K(!new)>(counts: map<K, nat>, k: K)
    requires k in counts
    ensures Total(counts) == counts[k] + Total(counts - {k})
    decreases |counts|
  {
    var j :| j in counts && Total(counts) == counts[j] + Total(counts - {j});
    if j != k {
      var both := counts - {j} - {k};
      assert counts - {k} - {j} == both;
      TotalByKey(counts - {j}, k);
      TotalByKey(counts - {k}, j);
    }
  }

  function Bumped<K>(counts: map<K, nat>, k: K): map<K, nat> {
    counts[k := (if k in counts then counts[k] else 0) + 1]
  }

  lemma {:induction false} TotalBumped<K(!new)>(counts: map<K, nat>, k: K)
    ensures Total(Bumped(counts, k)) == Total(counts) + 1
  {
    var after := Bumped(counts, k);
    TotalByKey(after, k);
    if k in counts {
      TotalByKey(counts, k);
      assert after - {k} == counts - {k};
    } else {
      assert after - {k} == counts;
    }
  }

  function Occurrences<K(==)>(ks: seq<K>, k: K): nat {
    if ks == [] then 0 else Occurrences(ks[..|ks| - 1], k) + if ks[|ks| - 1] == k then 1 else 0
  }

  /** Counts per key: right for every key, keys exactly those that occur, and adding up to the number of events. */
  ghost predicate Tally<K(!new)>(counts: map<K, nat>, ks: seq<K>) {
    && (forall k :: k in counts <==> k in ks)
    && (forall k :: k in counts ==> counts[k] == Occurrences(ks, k) && counts[k] > 0)
    && Total(counts) == |ks|
  }

  lemma {:induction false} NoOccurrence<K>(ks: seq<K>, k: K)
    requires k !in ks
    ensures Occurrences(ks, k) == 0
  {
    if ks != [] {
      NoOccurrence(ks[..|ks| - 1], k);
    }
  }

  lemma TallyOneMore<K(!new)>(counts: map<K, nat>, ks: seq<K>, k: K)
    requires Tally(counts, ks)
    ensures Tally(Bumped(counts, k), ks + [k])
  {
    TotalBumped(counts, k);
    assert (ks + [k])[..|ks|] == ks;
    if k !in counts {
      NoOccurrence(ks, k);
    }
  }

  lemma TallyNothing<K(!new)>()
    ensures Tally<K>(map[], [])
  {
  }

  lemma TallyTotal<K(!new)>(counts: map<K, nat>, ks: seq<K>)
    requires Tally(counts, ks)
    ensures Total(counts) == |ks|
  {
  }

  /** The three breakdowns of a summary. */
  method Summarize<K(==, !new)>(levels: seq<K>, names: seq<K>, components: seq<K>)
    returns (total: nat, byLevel: map<K, nat>, byEvent: map<K, nat>, byComponent: map<K, nat>)
    requires |levels| == |names| == |components|
    ensures total == |levels|
    ensures Tally(byLevel, levels) && Tally(byEvent, names) && Tally(byComponent, components)
    ensures Total(byLevel) == total && Total(byEvent) == total && Total(byComponent) == total
  {
    hide Tally, Total, Bumped;
    total := |levels|;
    TallyNothing<K>();
    byLevel, byEvent, byComponent := map[], map[], map[];
    var i := 0;
    while i < total
      invariant 0 <= i <= total
      invariant Tally(byLevel, levels[..i]) && Tally(byEvent, names[..i]) && Tally(byComponent, components[..i])
    {
      TallyOneMore(byLevel, levels[..i], levels[i]);
      TallyOneMore(byEvent, names[..i], names[i]);
      TallyOneMore(byComponent, components[..i], components[i]);
      byLevel := Bumped(byLevel, levels[i]);
      byEvent := Bumped(byEvent, names[i]);
      byComponent := Bumped(byComponent, components[i]);
      assert levels[..i + 1] == levels[..i] + [levels[i]];
      assert names[..i + 1] == names[..i] + [names[i]];
      assert components[..i + 1] == components[..i] + [components[i]];
      i := i + 1;
    }
    assert levels[..i] == levels && names[..i] == names && components[..i] == components;
    TallyTotal(byLevel, levels);
    TallyTotal(byEvent, names);
    TallyTotal(byComponent, components);
  }
}
