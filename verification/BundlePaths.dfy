/**
 Paths of a bundle: the string test that keeps a path inside the bundle root, and the lists of path
 components that it is meant to compare.
 */
module BundlePaths {

  const SLASH := '/'

  predicate IsComponent(c: string) {
    c != "" && c != "." && c != ".." && SLASH !in c
  }

  /** A clean absolute path, as a list of names. */
  predicate IsPath(cs: seq<string>) {
    forall i :: 0 <= i < |cs| ==> IsComponent(cs[i])
  }

  /** Each name with the slash before it. */
  function Tail(cs: seq<string>): string {
    if cs == [] then "" else [SLASH] + cs[0] + Tail(cs[1..])
  }

  function Render(cs: seq<string>): (r: string)
    ensures r != "" && r[0] == SLASH
  {
    if cs == [] then [SLASH] else Tail(cs)
  }

  /** The test on strings. */
  predicate PathWithinRoot(root: string, path: string) {
    var rootWithSep := if root != "" && root[|root| - 1] == SLASH then root else root + [SLASH];
    path == root || rootWithSep <= path
  }

  // ----- splitting and cleaning -----

  /** The pieces between slashes, empty ones included. */
  function Split(p: string): (r: seq<string>)
    ensures |r| > 0 && forall i :: 0 <= i < |r| ==> SLASH !in r[i]
  {
    if p == "" then [""]
    else
      var rest := Split(p[1..]);
      if p[0] == SLASH then [""] + rest else [[p[0]] + rest[0]] + rest[1..]
  }

  /** One more piece: an empty one and "." change nothing, ".." takes the last name away. */
  function Extended(before: seq<string>, last: string): seq<string> {
    if last == "" || last == "." then before
    else if last == ".." then (if before == [] then [] else before[..|before| - 1])
    else before + [last]
  }

  /** Lexical cleaning of an absolute path. */
  function Clean(pieces: seq<string>): (r: seq<string>)
    requires forall i :: 0 <= i < |pieces| ==> SLASH !in pieces[i]
    ensures IsPath(r)
  {
    if pieces == [] then [] else Extended(Clean(pieces[..|pieces| - 1]), pieces[|pieces| - 1])
  }

  /** A declared path, taken relative to the root unless it is absolute. */
  function Absolute(root: seq<string>, p: string): (r: seq<string>)
    requires IsPath(root)
    ensures IsPath(r)
  {
    if p != "" && p[0] == SLASH then Clean(Split(p)) else Clean(root + Split(p))
  }

  // ----- the string test is the comparison of component lists -----

  lemma {:induction false} TailConcat(a: seq<string>, b: seq<string>)
    ensures Tail(a + b) == Tail(a) + Tail(b)
  {
    if a == [] {
      assert a + b == b;
    } else {
      assert (a + b)[1..] == a[1..] + b;
      TailConcat(a[1..], b);
    }
  }

  /** The length of the name a text begins with. */
  function NameLength(s: string): (n: nat)
    ensures n <= |s| && (n < |s| ==> s[n] == SLASH)
    ensures forall i :: 0 <= i < n ==> s[i] != SLASH
  {
    if s == "" || s[0] == SLASH then 0 else 1 + NameLength(s[1..])
  }

  lemma {:induction false} NameLengthOf(a: string, x: string)
    requires SLASH !in a && (x == "" || x[0] == SLASH)
    ensures NameLength(a + x) == |a|
  {
    var s, n := a + x, NameLength(a + x);
    assert forall i :: 0 <= i < |a| ==> s[i] == a[i];
    assert n < |s| ==> s[n] == SLASH;
    assert |a| < |s| ==> s[|a|] == x[0];
  }

  /** A name followed by a slash or the end can be read off in only one way. */
  lemma {:induction false} SameFirstName(a: string, x: string, b: string, y: string)
    requires SLASH !in a && SLASH !in b
    requires x == "" || x[0] == SLASH
    requires y == "" || y[0] == SLASH
    requires a + x == b + y
    ensures a == b && x == y
  {
    NameLengthOf(a, x);
    NameLengthOf(b, y);
    var s := a + x;
    assert a == s[..|a|] && b == s[..|b|] && x == s[|a|..] && y == s[|b|..];
  }

  lemma {:induction false} FirstNameOfPrefix(a: string, x: string, b: string, y: string)
    requires SLASH !in a && SLASH !in b
    requires x != "" && x[0] == SLASH
    requires y == "" || y[0] == SLASH
    requires a + x <= b + y
    ensures a == b && x <= y
  {
    var s, t := a + x, b + y;
    NameLengthOf(a, t[|a|..]) by {
      assert t[|a|..][0] == t[|a|] == s[|a|] == SLASH;
    }
    assert a + t[|a|..] == t by {
      assert a == s[..|a|] == t[..|a|];
    }
    SameFirstName(a, t[|a|..], b, y);
    assert x == s[|a|..];
  }

  lemma TailStarts(cs: seq<string>)
    ensures Tail(cs) == "" || Tail(cs)[0] == SLASH
    ensures cs == [] <==> Tail(cs) == ""
  {
  }

  /** Rendered names followed by a slash are a prefix exactly if the lists are. */
  lemma {:induction false} PrefixOfTails(a: seq<string>, b: seq<string>)
    requires IsPath(a) && IsPath(b)
    requires Tail(a) + [SLASH] <= Tail(b)
    ensures a <= b && |a| < |b|
  {
    TailStarts(b);
    if a != [] {
      var x, y := Tail(a[1..]) + [SLASH], Tail(b[1..]);
      TailStarts(a[1..]);
      TailStarts(b[1..]);
      assert Tail(a) + [SLASH] == [SLASH] + (a[0] + x);
      assert Tail(b) == [SLASH] + (b[0] + y);
      assert a[0] + x <= b[0] + y by {
        assert forall i :: 0 <= i < |a[0] + x| ==> (a[0] + x)[i] == (Tail(a) + [SLASH])[i + 1];
        assert forall i :: 0 <= i < |b[0] + y| ==> (b[0] + y)[i] == Tail(b)[i + 1];
      }
      FirstNameOfPrefix(a[0], x, b[0], y);
      PrefixOfTails(a[1..], b[1..]);
      assert a == [a[0]] + a[1..] && b == [b[0]] + b[1..];
    }
  }

  lemma {:induction false} TailInjective(a: seq<string>, b: seq<string>)
    requires IsPath(a) && IsPath(b) && Tail(a) == Tail(b)
    ensures a == b
  {
    TailStarts(a);
    TailStarts(b);
    if a != [] {
      var x, y := Tail(a[1..]), Tail(b[1..]);
      TailStarts(a[1..]);
      TailStarts(b[1..]);
      assert a[0] + x == b[0] + y by {
        assert Tail(a)[1..] == a[0] + x && Tail(b)[1..] == b[0] + y;
      }
      SameFirstName(a[0], x, b[0], y);
      TailInjective(a[1..], b[1..]);
      assert a == [a[0]] + a[1..] && b == [b[0]] + b[1..];
    }
  }

  lemma {:induction false} TailEnd(cs: seq<string>)
    requires IsPath(cs) && cs != []
    ensures Tail(cs) != "" && Tail(cs)[|Tail(cs)| - 1] != SLASH
  {
    var k := |cs| - 1;
    assert cs == cs[..k] + [cs[k]];
    TailConcat(cs[..k], [cs[k]]);
    assert Tail([cs[k]]) == [SLASH] + cs[k] + "";
    assert Tail(cs)[|Tail(cs)| - 1] == cs[k][|cs[k]| - 1];
  }

  /** For clean paths the string test says: the root's components are the first components of the path. */
  lemma WithinRootExactly(root: seq<string>, path: seq<string>)
    requires IsPath(root) && IsPath(path)
    ensures PathWithinRoot(Render(root), Render(path)) <==> root <= path
  {
    if root == [] {
      assert [SLASH] <= Render(path);
    } else {
      TailEnd(root);
      if root <= path {
        assert path == root + path[|root|..];
        TailConcat(root, path[|root|..]);
        TailStarts(path[|root|..]);
      }
      if Tail(root) + [SLASH] <= Render(path) {
        assert path != [];
        PrefixOfTails(root, path);
      }
      if Render(path) == Render(root) && path != [] {
        TailInjective(path, root);
      }
      if path == [] {
        assert Tail(root)[|Tail(root)| - 1] != SLASH;
      }
    }
  }

  // ----- component lists stand for strings -----

  lemma {:induction false} SplitName(a: string, x: string)
    requires SLASH !in a && (x == "" || x[0] == SLASH)
    ensures Split(a + x) == [a] + Split(x)[1..]
  {
    if a == "" {
      assert a + x == x;
      assert Split(x)[0] == "";
    } else {
      assert (a + x)[1..] == a[1..] + x;
      SplitName(a[1..], x);
      assert [a[0]] + a[1..] == a;
    }
  }

  lemma {:induction false} SplitTail(cs: seq<string>)
    requires IsPath(cs)
    ensures Split(Tail(cs)) == [""] + cs
  {
    if cs != [] {
      TailStarts(cs[1..]);
      SplitTail(cs[1..]);
      hide Split, Tail;
      assert IsComponent(cs[0]);
      SplitName(cs[0], Tail(cs[1..]));
      TailStep(cs);
      SplitSlash(cs[0] + Tail(cs[1..]));
      assert [cs[0]] + ([""] + cs[1..])[1..] == cs;
    } else {
      assert [""] + cs == [""];
    }
  }

  lemma TailStep(cs: seq<string>)
    requires cs != []
    ensures Tail(cs) == [SLASH] + (cs[0] + Tail(cs[1..]))
  {
  }

  lemma SplitSlash(rest: string)
    ensures Split([SLASH] + rest) == [""] + Split(rest)
  {
    assert ([SLASH] + rest)[1..] == rest;
  }

  lemma CleanStep(pieces: seq<string>, last: string)
    requires (forall i :: 0 <= i < |pieces| ==> SLASH !in pieces[i]) && SLASH !in last
    ensures Clean(pieces + [last]) == Extended(Clean(pieces), last)
  {
    assert (pieces + [last])[..|pieces|] == pieces;
  }

  lemma {:induction false} CleanOfPath(cs: seq<string>)
    requires IsPath(cs)
    ensures Clean([""] + cs) == cs
  {
    if cs == [] {
      assert ([""] + cs)[..0] == [];
    } else {
      var k := |cs| - 1;
      assert ([""] + cs)[..k + 1] == [""] + cs[..k];
      CleanOfPath(cs[..k]);
      assert IsComponent(cs[k]) && cs[..k] + [cs[k]] == cs;
    }
  }

  /** Round trip: splitting and cleaning a rendered path gives its components back. */
  lemma CleanUndoesRender(cs: seq<string>)
    requires IsPath(cs)
    ensures Clean(Split(Render(cs))) == cs
  {
    if cs == [] {
      assert Render(cs)[1..] == "";
      assert Split("") == [""] && Split(Render(cs)) == [""] + [""];
      assert ["", ""][..1] == [""] && [""][..0] == [];
    } else {
      SplitTail(cs);
      CleanOfPath(cs);
    }
  }

  /** Pieces that never go up end inside the root, below it by exactly the names among them. */
  lemma {:induction false} CleanBelowRoot(root: seq<string>, pieces: seq<string>)
    requires IsPath(root) && forall i :: 0 <= i < |pieces| ==> SLASH !in pieces[i] && pieces[i] != ".."
    ensures Clean(root + pieces) == root + Clean(pieces)
  {
    if pieces == [] {
      assert root + pieces == root;
      CleanOfPath(root);
      CleanSkipsEmpty(root);
      assert root + [] == root;
    } else {
      hide Clean;
      var k := |pieces| - 1;
      var last := pieces[k];
      CleanBelowRoot(root, pieces[..k]);
      assert pieces == pieces[..k] + [last] && root + pieces == (root + pieces[..k]) + [last];
      CleanStep(root + pieces[..k], last);
      CleanStep(pieces[..k], last);
      var below := Clean(pieces[..k]);
      assert (root + below) + [last] == root + (below + [last]);
    }
  }

  lemma {:induction false} CleanSkipsEmpty(cs: seq<string>)
    requires forall i :: 0 <= i < |cs| ==> SLASH !in cs[i]
    ensures Clean([""] + cs) == Clean(cs)
  {
    if cs == [] {
      assert ([""] + cs)[..0] == [];
    } else {
      hide Clean, Extended;
      var k := |cs| - 1;
      CleanSkipsEmpty(cs[..k]);
      assert cs == cs[..k] + [cs[k]] && [""] + cs == ([""] + cs[..k]) + [cs[k]];
      CleanStep([""] + cs[..k], cs[k]);
      CleanStep(cs[..k], cs[k]);
    }
  }

  /** An absolute path is taken as it is. */
  lemma AbsoluteIsItself(root: seq<string>, cs: seq<string>)
    requires IsPath(root) && IsPath(cs)
    ensures Absolute(root, Render(cs)) == cs
  {
    CleanUndoesRender(cs);
  }

  /** Going up from the root leaves it, unless the path comes straight back. */
  lemma ParentLeavesRoot(root: seq<string>, name: string)
    requires IsPath(root) && root != [] && IsComponent(name)
    ensures
      var cs, k := Absolute(root, "../" + name), |root| - 1;
      cs == root[..k] + [name] && (root <= cs <==> name == root[k])
  {
    var k := |root| - 1;
    SplitParent(name);
    assert root + ["..", name] == (root + [".."]) + [name];
    CleanStep(root + [".."], name);
    CleanStep(root, "..");
    CleanOfPath(root);
    CleanSkipsEmpty(root);
    assert root[..k] + [root[k]] == root;
  }

  lemma SplitParent(name: string)
    requires IsComponent(name)
    ensures Split("../" + name) == ["..", name]
  {
    assert "../" + name == ".." + ([SLASH] + name);
    SplitName("..", [SLASH] + name);
    SplitSlash(name);
    SplitName(name, "");
    assert name + "" == name;
    assert Split("") == [""];
  }
}
