/**
 Which texts are unsafe to show to operators. Text is a sequence of Unicode characters.
 */
module ProviderText {

  const MARKERS: seq<string> := [
    "raw_prompt", "prompt", "payload", "request_body", "response_body", "body",
    "credential", "credentials", "secret", "client_secret", "token", "access_token",
    "refresh_token", "password", "passwd", "api_key", "apikey", "private_key",
    "privatekey", "bearer", "authorization", "jwt", "oauth", "authority",
    "authority_ref", "authority-use-ref", "authority_use_ref", "use_ref", "handle", "socket",
    "session", "signer", "path", "filepath", "file_path", "absolute_path"
  ]

  const REDACTED := "[redacted]"

  predicate IsSeparator(c: char) {
    c == '-' || c == ' ' || c == '.' || c == ':' || c == '_'
  }

  /** Lower case, for all characters whose lower case is a character of a marker. */
  function Lower(c: char): char {
    if 'A' <= c <= 'Z' then (c as int + 32) as char
    else if c == '\U{212A}' then 'k'
    else if c == '\U{0130}' then 'i'
    else c
  }

  function NormalChar(c: char): char {
    if IsSeparator(c) then '_' else Lower(c)
  }

  function Normalized(text: string): (r: string)
    ensures |r| == |text|
    ensures forall i :: 0 <= i < |text| ==> r[i] == NormalChar(text[i])
  {
    seq(|text|, i requires 0 <= i < |text| => NormalChar(text[i]))
  }

  predicate OccursAt(needle: string, text: string, i: nat) {
    i + |needle| <= |text| && text[i..i + |needle|] == needle
  }

  predicate Contains(text: string, needle: string) {
    exists i: nat :: i <= |text| && OccursAt(needle, text, i)
  }

  predicate Unsafe(text: string) {
    exists m: nat :: m < |MARKERS| && Contains(Normalized(text), MARKERS[m])
  }

  /** The scan of the marker list, as the program runs it. */
  method UnsafeProviderText(text: string) returns (unsafe: bool)
    ensures unsafe == Unsafe(text)
  {
    var normalized := Normalized(text);
    for m := 0 to |MARKERS|
      invariant forall k: nat :: k < m ==> !Contains(normalized, MARKERS[k])
    {
      var found := FindIn(normalized, MARKERS[m]);
      if found {
        return true;
      }
    }
    return false;
  }

  method FindIn(text: string, needle: string) returns (found: bool)
    ensures found == Contains(text, needle)
  {
    var i := 0;
    while i + |needle| <= |text|
      invariant 0 <= i
      invariant forall k: nat :: k < i ==> !OccursAt(needle, text, k)
    {
      if text[i..i + |needle|] == needle {
        assert OccursAt(needle, text, i);
        return true;
      }
      i := i + 1;
    }
    return false;
  }

  // ----- spaces and paths -----

  predicate IsSpace(c: char) {
    || '\t' <= c <= '\r' || c == ' ' || c == '\U{0085}' || c == '\U{00A0}' || c == '\U{1680}'
    || '\U{2000}' <= c <= '\U{200A}' || c == '\U{2028}' || c == '\U{2029}' || c == '\U{202F}' || c == '\U{205F}'
    || c == '\U{3000}'
  }

  function TrimLeft(text: string): (r: string)
    ensures |r| <= |text| && (r != "" ==> !IsSpace(r[0]))
  {
    if text != "" && IsSpace(text[0]) then TrimLeft(text[1..]) else text
  }

  function TrimRight(text: string): (r: string)
    ensures r <= text
  {
    if text != "" && IsSpace(text[|text| - 1]) then TrimRight(text[..|text| - 1]) else text
  }

  function TrimSpace(text: string): string {
    TrimRight(TrimLeft(text))
  }

  predicate IsAsciiLetter(c: char) {
    'a' <= c <= 'z' || 'A' <= c <= 'Z'
  }

  /** Starts as an absolute path of either kind of system; looks at three characters at most. */
  predicate StartsPrivate(t: string) {
    && t != ""
    && (t[0] == '/' || (|t| >= 3 && IsAsciiLetter(t[0]) && t[1] == ':' && (t[2] == '\\' || t[2] == '/')))
  }

  predicate LooksPrivate(text: string) {
    StartsPrivate(TrimSpace(text))
  }

  predicate Safe(text: string) {
    !Unsafe(text) && !LooksPrivate(text)
  }

  // ----- what makes a text unsafe survives context and spelling -----

  lemma NormalizedConcat(a: string, b: string)
    ensures Normalized(a + b) == Normalized(a) + Normalized(b)
  {
  }

  lemma OccursInContext(needle: string, before: string, text: string, after: string, i: nat)
    requires OccursAt(needle, text, i)
    ensures OccursAt(needle, before + text + after, |before| + i)
  {
    var whole, j := before + text + after, |before| + i;
    assert whole[j..j + |needle|] == text[i..i + |needle|];
  }

  /** Unsafe text stays unsafe inside any other text. */
  lemma UnsafeInContext(before: string, text: string, after: string)
    requires Unsafe(text)
    ensures Unsafe(before + text + after)
  {
    var m: nat :| m < |MARKERS| && Contains(Normalized(text), MARKERS[m]);
    var i: nat :| i <= |text| && OccursAt(MARKERS[m], Normalized(text), i);
    NormalizedConcat(before + text, after);
    NormalizedConcat(before, text);
    OccursInContext(MARKERS[m], Normalized(before), Normalized(text), Normalized(after), i);
    hide OccursAt, Normalized;
    assert Contains(Normalized(before + text + after), MARKERS[m]);
  }

  /** "Unsafe in any context" fails for paths, which are recognised only at the start of a text. */
  lemma PathHiddenByContext()
    ensures LooksPrivate("/etc/x") && Safe("at " + "/etc/x")
  {
    var text := "at " + "/etc/x";
    WithoutTellingLetters(text);
    assert TrimLeft(text) == text && TrimRight(text) == text;
    assert TrimLeft("/etc/x") == "/etc/x" && TrimRight("/etc/x") == "/etc/x";
  }

  /** Trimming on the right never takes away what makes a text look like a path. */
  lemma {:induction false} StartSurvivesTrim(t: string)
    ensures StartsPrivate(TrimRight(t)) == StartsPrivate(t)
  {
    if t != "" && IsSpace(t[|t| - 1]) {
      StartSurvivesTrim(t[..|t| - 1]);
    }
  }

  lemma {:induction false} TrimLeftConcat(a: string, b: string)
    ensures TrimLeft(a + b) == if TrimLeft(a) == "" then TrimLeft(b) else TrimLeft(a) + b
  {
    if a == "" {
      assert a + b == b;
    } else {
      assert (a + b)[1..] == a[1..] + b;
      if IsSpace(a[0]) {
        TrimLeftConcat(a[1..], b);
      }
    }
  }

  lemma BlankFromLeft(text: string)
    ensures TrimSpace(text) == "" <==> TrimLeft(text) == ""
  {
    var t := TrimLeft(text);
    if t != "" && TrimRight(t) == "" {
      TrimRightBlank(t);
    }
  }

  /**
   Exactly when a path is still recognised inside another text: if only blanks stand before it, or if what
   stands before it begins like a path itself.
   */
  lemma PathInContextExactly(before: string, text: string, after: string)
    requires LooksPrivate(text)
    ensures LooksPrivate(before + text + after) <==>
            TrimSpace(before) == "" || StartsPrivate(TrimLeft(before) + text)
  {
    var t := TrimLeft(before + text + after);
    StartSurvivesTrim(t);
    StartSurvivesTrim(TrimLeft(text));
    BlankFromLeft(before);
    TrimLeftConcat(before + text, after);
    TrimLeftConcat(before, text);
    var start := TrimLeft(before) + text;
    if TrimLeft(before) != "" && |start| < 3 {
      assert text == TrimLeft(text) == "/" && start[1] == '/';
    }
  }

  /** The same text up to the choice of separators and the case of letters. */
  predicate SameUpToSpelling(a: string, b: string) {
    |a| == |b| && forall i :: 0 <= i < |a| ==> SameCharUpToSpelling(a[i], b[i])
  }

  predicate SameCharUpToSpelling(x: char, y: char) {
    || x == y
    || (IsSeparator(x) && IsSeparator(y))
    || ('A' <= x <= 'Z' && y as int == x as int + 32)
    || ('A' <= y <= 'Z' && x as int == y as int + 32)
  }

  /** Other separators or another case never make a difference. */
  lemma SpellingDoesNotMatter(a: string, b: string)
    requires SameUpToSpelling(a, b)
    ensures Unsafe(a) == Unsafe(b)
  {
    forall i | 0 <= i < |a|
      ensures Normalized(a)[i] == Normalized(b)[i]
    {
      assert SameCharUpToSpelling(a[i], b[i]);
    }
    assert Normalized(a) == Normalized(b);
  }

  /** One marker of the list can never match: the text it is looked for in has no dashes left. */
  lemma DeadMarker(text: string)
    ensures !Contains(Normalized(text), "authority-use-ref")
  {
    var marker := "authority-use-ref";
    forall i: nat | i <= |text|
      ensures !OccursAt(marker, Normalized(text), i)
    {
      if i + |marker| <= |text| {
        assert Normalized(text)[i..i + |marker|][9] == NormalChar(text[i + 9]);
      }
    }
  }

  // ----- texts that are safe for sure -----

  /** Every marker has a letter among these. */
  predicate IsTelling(c: char) {
    c == 'p' || c == 's' || c == 'o' || c == 'b' || c == 'u' || c == 'h' || c == 'j' || c == 'n'
  }

  /** Where the first such letter of each marker is. */
  const TELLING_AT: seq<nat> := [
    4, 0, 0, 3, 2, 0,
    5, 5, 0, 4, 1, 4,
    5, 0, 0, 1, 1, 0,
    0, 0, 1, 0, 0, 1,
    1, 1, 1, 0, 0, 0,
    0, 0, 0, 4, 5, 1
  ]

  lemma MarkersAreTelling(m: nat)
    requires m < |MARKERS|
    ensures |TELLING_AT| == |MARKERS| && TELLING_AT[m] < |MARKERS[m]| && IsTelling(MARKERS[m][TELLING_AT[m]])
  {
  }

  lemma LetterMissing(text: string, marker: string, at: nat)
    requires at < |marker| && forall i :: 0 <= i < |text| ==> text[i] != marker[at]
    ensures !Contains(text, marker)
  {
    forall i: nat | i <= |text|
      ensures !OccursAt(marker, text, i)
    {
      if i + |marker| <= |text| {
        assert text[i..i + |marker|][at] == text[i + at];
      }
    }
  }

  lemma WithoutTellingLetters(text: string)
    requires forall i :: 0 <= i < |text| ==> !IsTelling(NormalChar(text[i]))
    ensures !Unsafe(text)
  {
    hide Contains;
    forall m: nat | m < |MARKERS|
      ensures !Contains(Normalized(text), MARKERS[m])
    {
      MarkersAreTelling(m);
      LetterMissing(Normalized(text), MARKERS[m], TELLING_AT[m]);
    }
  }

  lemma {:induction false} TrimRightBlank(text: string)
    requires TrimRight(text) == ""
    ensures forall i :: 0 <= i < |text| ==> IsSpace(text[i])
  {
    if text != "" {
      TrimRightBlank(text[..|text| - 1]);
    }
  }

  lemma {:induction false} TrimLeftBlank(text: string)
    requires TrimLeft(text) == ""
    ensures forall i :: 0 <= i < |text| ==> IsSpace(text[i])
  {
    if text != "" {
      TrimLeftBlank(text[1..]);
      assert text == [text[0]] + text[1..];
    }
  }

  /** Blank text is safe. */
  lemma BlankIsSafe(text: string)
    requires TrimSpace(text) == ""
    ensures Safe(text)
  {
    TrimRightBlank(TrimLeft(text));
    TrimLeftBlank(text);
    WithoutTellingLetters(text);
  }

  /** What replaces unsafe text is itself safe. */
  lemma RedactedIsSafe()
    ensures Safe(REDACTED) && !Unsafe("redacted")
  {
    WithoutTellingLetters(REDACTED);
    WithoutTellingLetters("redacted");
    assert TrimLeft(REDACTED) == REDACTED;
    assert TrimRight(REDACTED) == REDACTED;
  }

  // ----- the list of markers -----

  /** The markers that matter: every other one of the list contains one of these. */
  const ROOTS: seq<string> := [
    "prompt", "payload", "body", "credential", "secret", "token", "password", "passwd", "api_key", "apikey",
    "private_key", "privatekey", "bearer", "authorization", "jwt", "oauth", "authority", "use_ref", "handle",
    "socket", "session", "signer", "path"
  ]

  /** For each marker, which root it contains, and where. */
  const ROOT_OF: seq<(nat, nat)> := [
    (0, 4), (0, 0), (1, 0), (2, 8), (2, 9), (2, 0), (3, 0), (3, 0), (4, 0), (4, 7), (5, 0), (5, 7), (5, 8), (6, 0),
    (7, 0), (8, 0), (9, 0), (10, 0), (11, 0), (12, 0), (13, 0), (14, 0), (15, 0), (16, 0), (16, 0), (16, 0), (16, 0),
    (17, 0), (18, 0), (19, 0), (20, 0), (21, 0), (22, 0), (22, 4), (22, 5), (22, 9)
  ]

  lemma FirstMarkersHaveRoots(m: nat)
    requires m < 18
    ensures ROOT_OF[m].0 < |ROOTS| && OccursAt(ROOTS[ROOT_OF[m].0], MARKERS[m], ROOT_OF[m].1)
  {
  }

  lemma LastMarkersHaveRoots(m: nat)
    requires 18 <= m < 36
    ensures ROOT_OF[m].0 < |ROOTS| && OccursAt(ROOTS[ROOT_OF[m].0], MARKERS[m], ROOT_OF[m].1)
  {
  }

  lemma MarkersHaveRoots(m: nat)
    requires m < |MARKERS|
    ensures |ROOT_OF| == |MARKERS| && ROOT_OF[m].0 < |ROOTS|
    ensures OccursAt(ROOTS[ROOT_OF[m].0], MARKERS[m], ROOT_OF[m].1)
  {
    hide OccursAt;
    if m < 18 {
      FirstMarkersHaveRoots(m);
    } else {
      LastMarkersHaveRoots(m);
    }
  }

  /** Where each root stands in the list of markers. */
  const MARKER_OF: seq<nat> := [
    1, 2, 5, 6, 8, 10, 13, 14, 15, 16, 17, 18, 19, 20, 21, 22, 23, 27, 28, 29, 30, 31, 32
  ]

  lemma RootsAreMarkers(r: nat)
    requires r < |ROOTS|
    ensures |MARKER_OF| == |ROOTS| && MARKER_OF[r] < |MARKERS| && MARKERS[MARKER_OF[r]] == ROOTS[r]
  {
  }

  lemma OccursWithin(small: string, middle: string, text: string, i: nat, j: nat)
    requires OccursAt(small, middle, i) && OccursAt(middle, text, j)
    ensures OccursAt(small, text, j + i)
  {
    assert middle == text[j..j + |middle|] && small == middle[i..i + |small|];
    forall k | 0 <= k < |small| ensures text[j + i + k] == small[k] {
      assert middle[i + k] == text[j + (i + k)];
    }
  }

  /** A text is unsafe exactly if one of these 23 words stands in it, up to spelling. */
  lemma UnsafeByRoots(text: string)
    ensures Unsafe(text) <==> exists r: nat :: r < |ROOTS| && Contains(Normalized(text), ROOTS[r])
  {
    var n := Normalized(text);
    if Unsafe(text) {
      var m: nat :| m < |MARKERS| && Contains(n, MARKERS[m]);
      var j: nat :| j <= |n| && OccursAt(MARKERS[m], n, j);
      MarkersHaveRoots(m);
      OccursWithin(ROOTS[ROOT_OF[m].0], MARKERS[m], n, ROOT_OF[m].1, j);
      assert Contains(n, ROOTS[ROOT_OF[m].0]);
    }
    if r: nat :| r < |ROOTS| && Contains(n, ROOTS[r]) {
      RootsAreMarkers(r);
    }
  }

  /** Paths of both kinds of system, behind blanks too, and what only resembles them. */
  lemma PrivatePaths()
    ensures LooksPrivate("/x") && LooksPrivate("C:/x") && LooksPrivate("c:\\x") && LooksPrivate(" /x")
    ensures !LooksPrivate("") && !LooksPrivate("C:x") && !LooksPrivate("x/y") && !LooksPrivate("1:/x")
  {
    assert TrimLeft("/x") == "/x" && TrimRight("/x") == "/x";
    assert TrimLeft("C:/x") == "C:/x" && TrimRight("C:/x") == "C:/x";
    assert TrimLeft("c:\\x") == "c:\\x" && TrimRight("c:\\x") == "c:\\x";
    assert " /x"[1..] == "/x" && TrimLeft(" /x") == TrimLeft("/x");
    assert TrimLeft("C:x") == "C:x" && TrimRight("C:x") == "C:x";
    assert TrimLeft("x/y") == "x/y" && TrimRight("x/y") == "x/y";
    assert TrimLeft("1:/x") == "1:/x" && TrimRight("1:/x") == "1:/x";
  }
}
