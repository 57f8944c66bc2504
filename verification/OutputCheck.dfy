/** How the judge compares a program's output with the expected one. */
module OutputCheck {
  import opened Schemas

  // ---- Python's idea of lines and whitespace ----

  /** The characters that end a line for str.splitlines. */
  predicate IsBreak(c: char) {
    '\n' <= c <= '\r' || '\U{1C}' <= c <= '\U{1E}' || c == '\U{85}' || '\U{2028}' <= c <= '\U{2029}'
  }

  /** Whitespace that does not end a line. */
  predicate IsBlank(c: char) {
    || c == ' ' || c == '\t' || c == '\U{1F}' || c == '\U{A0}' || c == '\U{1680}'
    || '\U{2000}' <= c <= '\U{200A}' || c == '\U{202F}' || c == '\U{205F}' || c == '\U{3000}'
  }

  /** The characters str.rstrip removes. */
  predicate IsSpace(c: char) {
    IsBreak(c) || IsBlank(c)
  }

  /** Length of the line break that s starts with, if any; a carriage return and its line feed are one break. */
  function BreakLength(s: string): (k: nat)
    ensures k <= |s|
  {
    if s == "" || !IsBreak(s[0]) then 0
    else if s[0] == '\r' && |s| > 1 && s[1] == '\n' then 2
    else 1
  }

  /** Where the first line of s ends. */
  function LineEnd(s: string): (i: nat)
    ensures i <= |s|
    ensures i < |s| ==> IsBreak(s[i])
    ensures forall j :: 0 <= j < i ==> !IsBreak(s[j])
  {
    if s == "" || IsBreak(s[0]) then 0 else 1 + LineEnd(s[1..])
  }

  function SplitLines(s: string): (lines: seq<string>)
    ensures s == "" <==> lines == []
    ensures forall i :: 0 <= i < |lines| ==> OneLine(lines[i])
  {
    if s == "" then [] else
      var i := LineEnd(s);
      [s[..i]] + SplitLines(s[i + BreakLength(s[i..])..])
  }

  predicate OneLine(s: string) {
    forall i :: 0 <= i < |s| ==> !IsBreak(s[i])
  }

  function StripRight(s: string): (r: string)
    ensures r <= s
    ensures r == "" || !IsSpace(r[|r| - 1])
    ensures forall i :: |r| <= i < |s| ==> IsSpace(s[i])
  {
    if s == "" || !IsSpace(s[|s| - 1]) then s else StripRight(s[..|s| - 1])
  }

  function StripAll(lines: seq<string>): (r: seq<string>)
    ensures |r| == |lines|
  {
    if lines == [] then [] else [StripRight(lines[0])] + StripAll(lines[1..])
  }

  function Join(lines: seq<string>): string {
    if lines == [] then ""
    else if |lines| == 1 then lines[0]
    else lines[0] + "\n" + Join(lines[1..])
  }

  function Normalize(output: string): string {
    Join(StripAll(SplitLines(StripRight(output))))
  }

  // ---- What two outputs may differ in ----

  /** The text may be cut here: not between a carriage return and its line feed. */
  predicate Seam(u: string, v: string) {
    u == "" || v == "" || u[|u| - 1] != '\r' || v[0] != '\n'
  }

  predicate StartsBreak(v: string) {
    v != "" && IsBreak(v[0])
  }

  /** b is exactly one line break. */
  predicate IsLineBreak(b: string) {
    b != "" && BreakLength(b) == |b|
  }

  /** The text u + b + v really has the line break b at that place. */
  predicate Fits(u: string, b: string, v: string) {
    IsLineBreak(b) && Seam(u, b) && Seam(b, v)
  }

  /** t is s with one blank added at the end of some line. */
  ghost predicate AddsBlank(s: string, t: string, u: string, c: char, v: string) {
    s == u + v && t == u + [c] + v && IsBlank(c) && (v == "" || StartsBreak(v)) && Seam(u, v)
  }

  /** t is s with one line break added at the end of the text. */
  ghost predicate AddsFinalBreak(s: string, t: string, b: string) {
    t == s + b && Fits(s, b, "")
  }

  /** t is s with one line break written in another way. */
  ghost predicate RewritesBreak(s: string, t: string, u: string, b: string, d: string, v: string) {
    s == u + b + v && t == u + d + v && Fits(u, b, v) && Fits(u, d, v)
  }

  ghost predicate Edit(s: string, t: string) {
    || (exists u, c, v :: AddsBlank(s, t, u, c, v))
    || (exists b :: AddsFinalBreak(s, t, b))
    || (exists u, b, d, v :: RewritesBreak(s, t, u, b, d, v))
  }

  ghost predicate Adjacent(s: string, t: string) {
    Edit(s, t) || Edit(t, s)
  }

  ghost predicate IsPath(path: seq<string>) {
    path != [] && forall i {:trigger path[i]} :: 0 <= i && i + 1 < |path| ==> Adjacent(path[i], path[i + 1])
  }

  ghost predicate Joins(path: seq<string>, s: string, t: string) {
    IsPath(path) && path[0] == s && path[|path| - 1] == t
  }

  /** s turns into t by finitely many such edits, each made or undone. */
  ghost predicate SameOutput(s: string, t: string) {
    exists path :: Joins(path, s, t)
  }

  // ---- A canonical form, read off from the right ----

  function Canonical(s: string): string {
    var k := BreakLength(s);
    if s == "" then ""
    else if k > 0 then
      var r := Canonical(s[k..]);
      if r == "" then "" else "\n" + r
    else
      var r := Canonical(s[1..]);
      if IsBlank(s[0]) && (r == "" || r[0] == '\n') then r else [s[0]] + r
  }

  lemma DropWithin(u: string, v: string, n: nat)
    requires n <= |u|
    ensures (u + v)[n..] == u[n..] + v
  {
  }

  /** The canonical form of a text depends on its tail only through the tail's canonical form. */
  lemma {:induction false} CanonicalCongruence(u: string, v: string, w: string)
    requires Canonical(v) == Canonical(w)
    requires Seam(u, v) && Seam(u, w)
    ensures Canonical(u + v) == Canonical(u + w)
  {
    if u == "" {
      assert u + v == v && u + w == w;
    } else {
      var k := BreakLength(u + v);
      assert BreakLength(u + w) == k && k <= |u|;
      var n := if k > 0 then k else 1;
      CanonicalCongruence(u[n..], v, w);
      DropWithin(u, v, n);
      DropWithin(u, w, n);
    }
  }

  lemma CanonicalHeads(v: string)
    requires v == "" || StartsBreak(v)
    ensures Canonical(v) == "" || Canonical(v)[0] == '\n'
  {
  }

  lemma BreaksLookAlike(b: string, v: string)
    requires IsLineBreak(b) && Seam(b, v)
    ensures Canonical(b + v) == if Canonical(v) == "" then "" else "\n" + Canonical(v)
  {
    assert BreakLength(b + v) == |b|;
    assert (b + v)[|b|..] == v;
  }

  lemma BlankVanishes(u: string, c: char, v: string)
    requires IsBlank(c) && (v == "" || StartsBreak(v)) && Seam(u, v)
    ensures Canonical(u + v) == Canonical(u + [c] + v)
  {
    CanonicalHeads(v);
    assert ([c] + v)[1..] == v;
    assert Canonical([c] + v) == Canonical(v);
    CanonicalCongruence(u, v, [c] + v);
    assert u + ([c] + v) == u + [c] + v;
  }

  lemma FinalBreakVanishes(s: string, b: string)
    requires Fits(s, b, "")
    ensures Canonical(s + b) == Canonical(s)
  {
    BreaksLookAlike(b, "");
    assert b + "" == b && s + "" == s;
    CanonicalCongruence(s, b, "");
  }

  lemma RewritingIsInvisible(u: string, b: string, d: string, v: string)
    requires Fits(u, b, v) && Fits(u, d, v)
    ensures Canonical(u + b + v) == Canonical(u + d + v)
  {
    BreaksLookAlike(b, v);
    BreaksLookAlike(d, v);
    CanonicalCongruence(u, b + v, d + v);
    assert u + (b + v) == u + b + v && u + (d + v) == u + d + v;
  }

  lemma EditKeepsCanonical(s: string, t: string)
    requires Edit(s, t)
    ensures Canonical(s) == Canonical(t)
  {
    if u, c, v :| AddsBlank(s, t, u, c, v) {
      BlankVanishes(u, c, v);
    } else if b :| AddsFinalBreak(s, t, b) {
      FinalBreakVanishes(s, b);
    } else {
      var u, b, d, v :| RewritesBreak(s, t, u, b, d, v);
      RewritingIsInvisible(u, b, d, v);
    }
  }

  lemma {:induction false} PathKeepsCanonical(path: seq<string>)
    requires IsPath(path)
    ensures Canonical(path[0]) == Canonical(path[|path| - 1])
  {
    if |path| > 1 {
      var rest := path[1..];
      forall i | 0 <= i && i + 1 < |rest| ensures Adjacent(rest[i], rest[i + 1]) {
        assert Adjacent(path[i + 1], path[i + 2]);
      }
      PathKeepsCanonical(rest);
      assert Adjacent(path[0], path[1]);
      if Edit(path[0], path[1]) {
        EditKeepsCanonical(path[0], path[1]);
      } else {
        EditKeepsCanonical(path[1], path[0]);
      }
    }
  }

  // ---- Every text can be edited into its canonical form ----

  lemma Stay(s: string)
    ensures SameOutput(s, s)
  {
    assert Joins([s], s, s);
  }

  lemma Step(s: string, t: string)
    requires Adjacent(s, t)
    ensures SameOutput(s, t)
  {
    var path := [s, t];
    assert Adjacent(path[0], path[1]);
    assert Joins(path, s, t);
  }

  lemma Chain(s: string, t: string, r: string)
    requires SameOutput(s, t) && SameOutput(t, r)
    ensures SameOutput(s, r)
  {
    hide Edit, Adjacent;
    var p :| Joins(p, s, t);
    var q :| Joins(q, t, r);
    var path := p + q[1..];
    forall i | 0 <= i && i + 1 < |path| ensures Adjacent(path[i], path[i + 1]) {
      if i + 1 < |p| {
        assert Adjacent(p[i], p[i + 1]);
      } else {
        assert path[i] == q[i + 1 - |p|] && path[i + 1] == q[i + 2 - |p|];
        assert Adjacent(q[i + 1 - |p|], q[i + 2 - |p|]);
      }
    }
    assert Joins(path, s, r);
  }

  lemma Undo(s: string, t: string)
    requires SameOutput(s, t)
    ensures SameOutput(t, s)
  {
    hide Edit;
    var p :| Joins(p, s, t);
    var path := seq(|p|, i requires 0 <= i < |p| => p[|p| - 1 - i]);
    forall i | 0 <= i && i + 1 < |path| ensures Adjacent(path[i], path[i + 1]) {
      assert Adjacent(p[|p| - 2 - i], p[|p| - 2 - i + 1]);
    }
    assert Joins(path, t, s);
  }

  lemma EditBehind(c: char, s: string, t: string)
    requires c != '\r' && Edit(s, t)
    ensures Edit([c] + s, [c] + t)
  {
    if u, d, v :| AddsBlank(s, t, u, d, v) {
      assert AddsBlank([c] + s, [c] + t, [c] + u, d, v);
    } else if b :| AddsFinalBreak(s, t, b) {
      assert [c] + s + b == [c] + (s + b);
      assert AddsFinalBreak([c] + s, [c] + t, b);
    } else {
      var u, b, d, v :| RewritesBreak(s, t, u, b, d, v);
      assert RewritesBreak([c] + s, [c] + t, [c] + u, b, d, v);
    }
  }

  lemma SameBehind(c: char, s: string, t: string)
    requires c != '\r' && SameOutput(s, t)
    ensures SameOutput([c] + s, [c] + t)
  {
    hide Edit;
    var p :| Joins(p, s, t);
    var path := seq(|p|, i requires 0 <= i < |p| => [c] + p[i]);
    forall i | 0 <= i && i + 1 < |path| ensures Adjacent(path[i], path[i + 1]) {
      assert Adjacent(p[i], p[i + 1]);
      if Edit(p[i], p[i + 1]) {
        EditBehind(c, p[i], p[i + 1]);
      } else {
        EditBehind(c, p[i + 1], p[i]);
      }
    }
    assert Joins(path, [c] + s, [c] + t);
  }

  lemma HeadBreak(s: string)
    requires StartsBreak(s)
    ensures SameOutput(s, "\n" + s[BreakLength(s)..])
  {
    var k := BreakLength(s);
    var (b, v) := (s[..k], s[k..]);
    assert s == "" + b + v && "\n" + v == "" + "\n" + v;
    assert RewritesBreak(s, "\n" + v, "", b, "\n", v);
    Step(s, "\n" + v);
  }

  lemma DropFinalBreak(s: string)
    requires SameOutput(s, "\n")
    ensures SameOutput(s, "")
  {
    assert AddsFinalBreak("", "\n", "\n");
    Step("\n", "");
    Chain(s, "\n", "");
  }

  lemma DropBlank(s: string, c: char, r: string)
    requires SameOutput(s, [c] + r) && IsBlank(c) && (r == "" || r[0] == '\n')
    ensures SameOutput(s, r)
  {
    assert r == "" + r && [c] + r == "" + [c] + r;
    assert AddsBlank(r, [c] + r, "", c, r);
    Step([c] + r, r);
    Chain(s, [c] + r, r);
  }

  lemma {:induction false} ReachesCanonical(s: string)
    ensures SameOutput(s, Canonical(s))
  {
    hide SameOutput, IsBreak, IsBlank;
    var k := BreakLength(s);
    if s == "" {
      Stay(s);
    } else if k > 0 {
      HeadBreak(s);
      ReachesCanonical(s[k..]);
      SameBehind('\n', s[k..], Canonical(s[k..]));
      Chain(s, "\n" + s[k..], "\n" + Canonical(s[k..]));
      if Canonical(s[k..]) == "" {
        assert "\n" + "" == "\n";
        DropFinalBreak(s);
      }
    } else {
      var (c, r) := (s[0], Canonical(s[1..]));
      ReachesCanonical(s[1..]);
      assert c != '\r' by { NotABreak(s); }
      SameBehind(c, s[1..], r);
      assert [c] + s[1..] == s;
      if IsBlank(c) && (r == "" || r[0] == '\n') {
        DropBlank(s, c, r);
      }
    }
  }

  lemma NotABreak(s: string)
    requires s != "" && BreakLength(s) == 0
    ensures s[0] != '\r' && s[0] != '\n'
  {
  }

  // ---- _normalize computes the canonical form ----

  lemma {:induction false} SpacesVanish(w: string)
    requires forall i :: 0 <= i < |w| ==> IsSpace(w[i])
    ensures Canonical(w) == ""
  {
    if w != "" {
      SpacesVanish(w[if BreakLength(w) > 0 then BreakLength(w) else 1..]);
    }
  }

  lemma StrippingIsInvisible(s: string)
    ensures Canonical(StripRight(s)) == Canonical(s)
  {
    var u := StripRight(s);
    var w := s[|u|..];
    SpacesVanish(w);
    CanonicalCongruence(u, w, "");
    assert u + w == s && u + "" == u;
  }

  lemma {:induction false} StripFromLeft(c: char, s: string)
    ensures StripRight([c] + s)
         == if StripRight(s) == "" && IsSpace(c) then "" else [c] + StripRight(s)
  {
    if s != "" {
      var n := |s| - 1;
      assert ([c] + s)[..n + 1] == [c] + s[..n];
      StripFromLeft(c, s[..n]);
    } else {
      assert [c] + s == [c] && [c][..0] == "";
    }
  }

  lemma CanonicalOfInk(c: char, t: string)
    requires !IsBreak(c)
    ensures Canonical([c] + t)
         == var r := Canonical(t); if IsBlank(c) && (r == "" || r[0] == '\n') then r else [c] + r
  {
    assert ([c] + t)[1..] == t;
  }

  lemma StrippedHead(text: string)
    requires OneLine(text)
    ensures StripRight(text) != "" ==> StripRight(text)[0] != '\n'
  {
  }

  /** Stripping a character in front of a line, and folding it into the canonical form, agree. */
  lemma InkInFront(c: char, p: string, q: string)
    requires !IsBreak(c) && (p == "" || p[0] != '\n') && (q == "" || q[0] == '\n')
    ensures var r := p + q;
      (if IsBlank(c) && (r == "" || r[0] == '\n') then r else [c] + r)
      == (if p == "" && IsSpace(c) then "" else [c] + p) + q
  {
    hide IsBreak, IsBlank;
    assert [c] + (p + q) == [c] + p + q;
    if p == "" {
      assert p + q == q == "" + q;
    } else {
      assert (p + q)[0] == p[0];
    }
  }

  lemma {:induction false} LineOf(text: string, x: string)
    requires OneLine(text) && (x == "" || StartsBreak(x))
    ensures Canonical(text + x) == StripRight(text) + Canonical(x)
  {
    hide IsBreak, IsBlank, IsSpace, Canonical, StripRight;
    CanonicalHeads(x);
    if text == "" {
      assert text + x == x;
      assert StripRight("") == "";
    } else {
      var (c, rest) := (text[0], text[1..]);
      LineOf(rest, x);
      StripFromLeft(c, rest);
      StrippedHead(rest);
      CanonicalOfInk(c, rest + x);
      assert [c] + rest == text;
      assert [c] + (rest + x) == text + x;
      InkInFront(c, StripRight(rest), Canonical(x));
    }
  }

  lemma {:induction false} InkRemains(s: string)
    requires s != "" && !IsSpace(s[|s| - 1])
    ensures Canonical(s) != ""
  {
    var n := if BreakLength(s) > 0 then BreakLength(s) else 1;
    if n < |s| {
      InkRemains(s[n..]);
    }
  }

  lemma CanonicalOfBreak(x: string)
    requires StartsBreak(x)
    ensures var r := Canonical(x[BreakLength(x)..]); Canonical(x) == if r == "" then "" else "\n" + r
    ensures BreakLength(x) > 0 && IsSpace(x[BreakLength(x) - 1])
  {
  }

  lemma JoinFirst(text: string, later: seq<string>)
    ensures Join(StripAll([text] + later))
         == if later == [] then StripRight(text) else StripRight(text) + "\n" + Join(StripAll(later))
  {
    assert ([text] + later)[1..] == later;
    var all := StripAll([text] + later);
    assert all[1..] == StripAll(later);
  }

  lemma SplitFirst(s: string)
    requires s != ""
    ensures var i := LineEnd(s);
      && OneLine(s[..i])
      && (s[i..] == "" || StartsBreak(s[i..]))
      && SplitLines(s) == [s[..i]] + SplitLines(s[i + BreakLength(s[i..])..])
  {
    hide IsBreak, BreakLength, LineEnd;
  }

  /** A break in front of a line with ink on it belongs to the canonical form. */
  lemma RestOf(x: string)
    requires StartsBreak(x) && !IsSpace(x[|x| - 1])
    ensures var rest := x[BreakLength(x)..];
      && rest != "" && |rest| < |x|
      && !IsSpace(rest[|rest| - 1])
      && Canonical(x) == "\n" + Canonical(rest)
  {
    hide IsBreak, IsBlank, IsSpace, Canonical;
    CanonicalOfBreak(x);
    InkRemains(x[BreakLength(x)..]);
  }

  lemma NoLines()
    ensures Join(StripAll(SplitLines(""))) == "" == Canonical("")
  {
  }

  lemma {:induction false} LinesAreCanonical(s: string)
    requires s == "" || !IsSpace(s[|s| - 1])
    ensures Join(StripAll(SplitLines(s))) == Canonical(s)
  {
    hide *;
    NoLines();
    if s != "" {
      var i := LineEnd(s);
      var x := s[i..];
      var rest := s[i + BreakLength(x)..];
      SplitFirst(s);
      LineOf(s[..i], x);
      assert s == s[..i] + x;
      JoinFirst(s[..i], SplitLines(rest));
      if x != "" {
        RestOf(x);
        assert rest == x[BreakLength(x)..];
        LinesAreCanonical(rest);
      } else {
        assert rest == "";
      }
    }
  }

  lemma {:induction false} NormalizeIsCanonical(output: string)
    ensures Normalize(output) == Canonical(output)
  {
    LinesAreCanonical(StripRight(output));
    StrippingIsInvisible(output);
  }

  lemma NormalizeIsIdempotent(output: string)
    ensures Normalize(Normalize(output)) == Normalize(output)
  {
    NormalizeIsCanonical(output);
    NormalizeIsCanonical(Normalize(output));
    ReachesCanonical(output);
    var path :| Joins(path, output, Canonical(output));
    PathKeepsCanonical(path);
  }

  /** Two outputs compare equal exactly when only line-end whitespace tells them apart. */
  lemma ComparesEqualIff(s: string, t: string)
    ensures Normalize(s) == Normalize(t) <==> SameOutput(s, t)
  {
    NormalizeIsCanonical(s);
    NormalizeIsCanonical(t);
    if SameOutput(s, t) {
      var path :| Joins(path, s, t);
      PathKeepsCanonical(path);
    }
    if Canonical(s) == Canonical(t) {
      ReachesCanonical(s);
      ReachesCanonical(t);
      Undo(t, Canonical(t));
      Chain(s, Canonical(s), t);
    }
  }

  // ---- Which characters and which line ends ----

  /** The characters Python strips and splits at, by code point. */
  lemma CharactersAre(c: char)
    ensures IsBreak(c) <==> c as int in {10, 11, 12, 13, 28, 29, 30, 133, 8232, 8233}
    ensures IsBlank(c) <==> c as int in {9, 31, 32, 160, 5760, 8192, 8193, 8194, 8195, 8196, 8197, 8198, 8199, 8200,
                                         8201, 8202, 8239, 8287, 12288}
  {
  }

  /** The same text with the line ends of another system. */
  function WithCrLf(s: string): string {
    if s == "" then ""
    else if s[0] == '\n' then "\r\n" + WithCrLf(s[1..])
    else [s[0]] + WithCrLf(s[1..])
  }

  lemma {:induction false} CrLfIsCanonical(s: string)
    requires '\r' !in s
    ensures Canonical(WithCrLf(s)) == Canonical(s)
  {
    if s != "" {
      var (c, rest) := (s[0], s[1..]);
      assert forall x :: x in rest ==> x in s;
      CrLfIsCanonical(rest);
      assert s == [c] + rest && c in s;
      if c == '\n' {
        BreaksLookAlike("\r\n", WithCrLf(rest));
        BreaksLookAlike("\n", rest);
      } else if IsBreak(c) {
        BreaksLookAlike([c], WithCrLf(rest));
        BreaksLookAlike([c], rest);
      } else {
        CanonicalOfInk(c, WithCrLf(rest));
        CanonicalOfInk(c, rest);
      }
    }
  }

  /** A carriage return with its line feed is one line end: a text compares equal to itself written that way. */
  lemma LineEndsOfOtherSystems(s: string)
    requires '\r' !in s
    ensures Normalize(WithCrLf(s)) == Normalize(s)
  {
    CrLfIsCanonical(s);
    NormalizeIsCanonical(s);
    NormalizeIsCanonical(WithCrLf(s));
  }

  /** The lines are split at line feeds, and an inner empty line is a line: texts of clean lines that end in ink
      compare equal only when they are the same. */
  lemma {:induction false} CleanTextStays(s: string)
    requires forall i :: 0 <= i < |s| ==> s[i] == '\n' || !IsSpace(s[i])
    requires s == "" || s[|s| - 1] != '\n'
    ensures Normalize(s) == s
  {
    NormalizeIsCanonical(s);
    CleanIsCanonical(s);
  }

  lemma {:induction false} CleanIsCanonical(s: string)
    requires forall i :: 0 <= i < |s| ==> s[i] == '\n' || !IsSpace(s[i])
    requires s == "" || s[|s| - 1] != '\n'
    ensures Canonical(s) == s
  {
    if s != "" {
      CleanIsCanonical(s[1..]);
      assert s == [s[0]] + s[1..];
    }
  }

  // ---- The verdict on one run ----

  datatype SandboxResult = SandboxResult(
    stdout: string,
    stderr: string,
    exitCode: int,
    timedOut: bool,
    oomKilled: bool,
    executionTimeMs: int,
    outputLimitExceeded: bool)

  function DetermineVerdict(run: SandboxResult, expected: string): Verdict {
    if run.timedOut then TLE
    else if run.oomKilled then MLE
    else if run.outputLimitExceeded then OLE
    else if run.exitCode != 0 then RE
    else if Normalize(run.stdout) == Normalize(expected) then AC
    else WA
  }

  /** Which answer a run gets: the first thing that went wrong, in this order, and only then the output. */
  lemma VerdictIs(run: SandboxResult, expected: string)
    ensures var v := DetermineVerdict(run, expected);
      var stopped := run.timedOut || run.oomKilled || run.outputLimitExceeded;
      && (v == TLE <==> run.timedOut)
      && (v == MLE <==> run.oomKilled && !run.timedOut)
      && (v == OLE <==> run.outputLimitExceeded && !run.timedOut && !run.oomKilled)
      && (v == RE <==> run.exitCode != 0 && !stopped)
      && (v == WA <==> run.exitCode == 0 && !stopped && !SameOutput(run.stdout, expected))
      && (v == AC <==> run.exitCode == 0 && !stopped && SameOutput(run.stdout, expected))
      && v != CE
  {
    ComparesEqualIff(run.stdout, expected);
    hide SameOutput, Normalize;
  }

  /** A run is accepted exactly when it ended cleanly and said the expected thing, line-end whitespace aside. */
  lemma {:induction false} AcceptedIff(run: SandboxResult, expected: string)
    ensures DetermineVerdict(run, expected) == AC
       <==> && !run.timedOut && !run.oomKilled && !run.outputLimitExceeded
            && run.exitCode == 0
            && SameOutput(run.stdout, expected)
  {
    ComparesEqualIff(run.stdout, expected);
  }
}
