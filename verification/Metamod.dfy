/** internal/runtime/runtime.go: insertMetamodSearchPath, the rewrite of gameinfo.gi. The two regular
    expressions, which never match across a newline, are line predicates. */
module Metamod {
  import opened Basics

  const CSGO := "csgo"
  const METAMOD := "csgo/addons/metamod"

  // ---- newlines ----

  predicate HasCRLF(s: string) {
    exists i :: 0 <= i < |s| - 1 && s[i] == '\r' && s[i + 1] == '\n'
  }

  /** strings.ReplaceAll(s, "\r\n", "\n") */
  function Normalize(s: string): string {
    if s == "" then ""
    else if |s| >= 2 && s[0] == '\r' && s[1] == '\n' then ['\n'] + Normalize(s[2..])
    else [s[0]] + Normalize(s[1..])
  }

  /** strings.ReplaceAll(s, "\n", newline) */
  function Expand(s: string, newline: string): string {
    if s == "" then "" else ExpandChar(s[0], newline) + Expand(s[1..], newline)
  }

  function ExpandChar(c: char, newline: string): string { if c == '\n' then newline else [c] }

  function Newline(content: string): string { if HasCRLF(content) then ['\r', '\n'] else ['\n'] }

  // ---- lines ----

  function LineEnd(s: string): (i: nat)
    ensures i <= |s| && (i < |s| ==> s[i] == '\n')
    ensures forall k :: 0 <= k < i ==> s[k] != '\n'
  {
    if s == "" || s[0] == '\n' then 0 else 1 + LineEnd(s[1..])
  }

  function Lines(s: string): (r: seq<string>)
    ensures r != []
    decreases |s|
  {
    var i := LineEnd(s);
    if i == |s| then [s] else [s[..i]] + Lines(s[i + 1..])
  }

  /** Where line k starts in the text with these lines. */
  function Offset(lines: seq<string>, k: nat): nat
    requires k <= |lines|
  {
    if k == 0 then 0 else |lines[0]| + 1 + Offset(lines[1..], k - 1)
  }

  function LeadingBlanks(s: string): (n: nat)
    ensures n <= |s|
    ensures forall k :: 0 <= k < n ==> s[k] == ' ' || s[k] == '\t'
    ensures n < |s| ==> s[n] != ' ' && s[n] != '\t'
  {
    if s != "" && (s[0] == ' ' || s[0] == '\t') then 1 + LeadingBlanks(s[1..]) else 0
  }

  /** [ \t]*(//.*)? up to the end of the line. */
  predicate IsTrailer(s: string) {
    var rest := s[LeadingBlanks(s)..];
    rest == "" || (|rest| >= 2 && rest[0] == '/' && rest[1] == '/')
  }

  /** A search path line: indentation, Game, blanks, and the rest of the line. */
  datatype Entry = Entry(indent: string, gap: string, rest: string)

  predicate IsGame(word: string) {
    |word| == 4 && word[0] == 'G' && word[1] == 'a' && word[2] == 'm' && word[3] == 'e'
  }

  function Parse(line: string): Option<Entry> {
    var n := LeadingBlanks(line);
    var tail := line[n..];
    if |tail| < 4 || !IsGame(tail[..4]) then None
    else
      var gap := LeadingBlanks(tail[4..]);
      if gap == 0 then None else Some(Entry(line[..n], tail[4..4 + gap], tail[4 + gap..]))
  }

  /** ^([ \t]*)Game([ \t]+)path([ \t]*(//.*)?)?$ */
  predicate IsEntry(line: string, path: string) {
    var e := Parse(line);
    e.Some? && path <= e.value.rest && IsTrailer(e.value.rest[|path|..])
  }

  function FirstTrue(marks: seq<bool>, n: nat): (k: nat)
    requires n <= |marks|
    ensures n <= k <= |marks|
    ensures k < |marks| ==> marks[k]
    ensures forall i :: n <= i < k ==> !marks[i]
    decreases |marks| - n
  {
    if n == |marks| || marks[n] then n else FirstTrue(marks, n + 1)
  }

  /** Which lines are entries for the path. */
  function Marks(lines: seq<string>, path: string): (r: seq<bool>)
    ensures |r| == |lines| && forall i :: 0 <= i < |r| ==> r[i] == IsEntry(lines[i], path)
  {
    seq(|lines|, i requires 0 <= i < |lines| => IsEntry(lines[i], path))
  }

  /** The first line that is an entry for the path, or the number of lines. */
  function FirstEntry(lines: seq<string>, path: string): (k: nat)
    ensures k <= |lines|
    ensures k < |lines| ==> IsEntry(lines[k], path)
    ensures forall i :: 0 <= i < k ==> !IsEntry(lines[i], path)
  {
    FirstTrue(Marks(lines, path), 0)
  }

  function Written(e: Entry, game: string): string { e.indent + (game + (e.gap + e.rest)) }

  function MetamodLine(line: string): string
    requires Parse(line).Some?
  {
    Written(Parse(line).value.(rest := METAMOD), "Game")
  }

  datatype Error = SearchPathNotFound

  /** normalized[:match[0]] + line + "\n" + normalized[match[0]:], for a match on line k. */
  function WithLine(normalized: string, k: nat): string
    requires k < |Lines(normalized)| && IsEntry(Lines(normalized)[k], CSGO)
  {
    var start := Offset(Lines(normalized), k);
    assert start <= |normalized| by { OffsetInside(normalized, k); }
    normalized[..start] + MetamodLine(Lines(normalized)[k]) + ['\n'] + normalized[start..]
  }

  /** The new content and whether it changed. */
  function InsertMetamodSearchPath(content: string): Result<(string, bool), Error> {
    var normalized := Normalize(content);
    var lines := Lines(normalized);
    if FirstEntry(lines, METAMOD) < |lines| then Ok((content, false))
    else
      var k := FirstEntry(lines, CSGO);
      if k == |lines| then Err(SearchPathNotFound)
      else Ok((Expand(WithLine(normalized, k), Newline(content)), true))
  }

  lemma OffsetInside(s: string, k: nat)
    requires k < |Lines(s)|
    ensures Offset(Lines(s), k) <= |s|
    ensures Offset(Lines(s), k) > 0 ==> s[Offset(Lines(s), k) - 1] == '\n'
  {
    JoinLines(s);
    JoinCut(Lines(s), k);
  }

  // ---- newline conversions undo each other ----

  /** CRLF normalization undoes the final expansion, lone CRs included. */
  lemma {:induction false} NormalizeExpand(u: string)
    ensures Normalize(Expand(u, ['\r', '\n'])) == u
  {
    if u == "" {
    } else {
      var rest := Expand(u[1..], ['\r', '\n']);
      NormalizeExpand(u[1..]);
      assert u[1..] != "" ==> rest[0] != '\n';
      if u[0] == '\n' {
        assert (['\r', '\n'] + rest)[2..] == rest;
      } else {
        assert ([u[0]] + rest)[1..] == rest;
      }
    }
  }

  lemma {:induction false} NormalizeLF(s: string)
    requires !HasCRLF(s)
    ensures Normalize(s) == s
  {
    if s == "" {
    } else {
      assert forall i :: 0 <= i < |s[1..]| ==> s[1..][i] == s[i + 1];
      NormalizeLF(s[1..]);
    }
  }

  lemma {:induction false} ExpandLF(s: string)
    ensures Expand(s, ['\n']) == s
  {
    if s == "" {
    } else {
      ExpandLF(s[1..]);
    }
  }

  lemma {:induction false} ExpandAppend(a: string, b: string, newline: string)
    ensures Expand(a + b, newline) == Expand(a, newline) + Expand(b, newline)
  {
    if a == "" {
      assert a + b == b;
    } else {
      Behead(a, b);
      ExpandAppend(a[1..], b, newline);
      Associate(ExpandChar(a[0], newline), Expand(a[1..], newline), Expand(b, newline));
    }
  }

  /** Every LF directly follows a CR. */
  ghost predicate NoLoneLF(s: string) {
    forall i :: 0 <= i < |s| && s[i] == '\n' ==> i > 0 && s[i - 1] == '\r'
  }

  /** All line breaks are LF, or all are CRLF. */
  ghost predicate Uniform(s: string) { !HasCRLF(s) || NoLoneLF(s) }

  lemma {:induction false} ExpandNormalizeIff(s: string)
    ensures Expand(Normalize(s), ['\r', '\n']) == s <==> NoLoneLF(s)
    decreases |s|
  {
    var crlf := ['\r', '\n'];
    if s == "" {
    } else if |s| >= 2 && s[0] == '\r' && s[1] == '\n' {
      var t := s[2..];
      ExpandNormalizeIff(t);
      assert (['\n'] + Normalize(t))[1..] == Normalize(t);
      assert s == crlf + t;
      assert crlf + Expand(Normalize(t), crlf) == s <==> Expand(Normalize(t), crlf) == t by {
        assert (crlf + Expand(Normalize(t), crlf))[2..] == Expand(Normalize(t), crlf);
      }
      NoLoneLFTail(s, 2);
    } else {
      var t := s[1..];
      ExpandNormalizeIff(t);
      assert ([s[0]] + Normalize(t))[1..] == Normalize(t);
      if s[0] == '\n' {
        assert Expand(Normalize(s), crlf)[0] == '\r';
        assert !NoLoneLF(s);
      } else {
        assert s == [s[0]] + t;
        assert [s[0]] + Expand(Normalize(t), crlf) == s <==> Expand(Normalize(t), crlf) == t by {
          assert ([s[0]] + Expand(Normalize(t), crlf))[1..] == Expand(Normalize(t), crlf);
        }
        NoLoneLFTail(s, 1);
      }
    }
  }

  lemma NoLoneLFTail(s: string, n: nat)
    requires 0 < n <= |s|
    requires n < |s| && s[n] == '\n' ==> s[n - 1] != '\r'
    requires forall i :: 0 <= i < n && s[i] == '\n' ==> i > 0 && s[i - 1] == '\r'
    ensures NoLoneLF(s) <==> NoLoneLF(s[n..])
  {
    var t := s[n..];
    assert forall i :: 0 <= i < |t| ==> t[i] == s[n + i];
    if NoLoneLF(t) {
      forall i | 0 <= i < |s| && s[i] == '\n' ensures i > 0 && s[i - 1] == '\r' {
        if i >= n {
          assert t[i - n] == '\n';
          assert t[i - n - 1] == s[i - 1];
        }
      }
    }
    if NoLoneLF(s) {
      forall i | 0 <= i < |t| && t[i] == '\n' ensures i > 0 && t[i - 1] == '\r' {
        assert s[n + i] == '\n';
        assert i > 0 ==> t[i - 1] == s[n + i - 1];
      }
    }
  }

  // ---- the inserted line ----

  function Join(lines: seq<string>): string
    requires lines != []
  {
    if |lines| == 1 then lines[0] else lines[0] + (['\n'] + Join(lines[1..]))
  }

  ghost predicate Unbroken(lines: seq<string>) { forall line :: line in lines ==> '\n' !in line }

  lemma JoinCons(line: string, lines: seq<string>)
    requires lines != []
    ensures Join([line] + lines) == line + (['\n'] + Join(lines))
  {
    assert ([line] + lines)[1..] == lines;
  }

  lemma NoBreakBefore(s: string, i: nat)
    requires i == LineEnd(s)
    ensures '\n' !in s[..i]
  {
    forall k | 0 <= k < i ensures s[..i][k] != '\n' {
    }
  }

  /** Lines and Join undo each other. */
  lemma {:induction false} JoinLines(s: string)
    ensures Join(Lines(s)) == s && Unbroken(Lines(s))
    decreases |s|
  {
    var i := LineEnd(s);
    if i == |s| {
      assert Lines(s) == [s];
    } else {
      NoBreakBefore(s, i);
      JoinLines(s[i + 1..]);
      JoinCons(s[..i], Lines(s[i + 1..]));
      CutAround(s, i);
    }
  }

  lemma CutAround(s: string, i: nat)
    requires i < |s| && s[i] == '\n'
    ensures s[..i] + (['\n'] + s[i + 1..]) == s
  {
  }

  lemma {:induction false} LinesJoin(lines: seq<string>)
    requires lines != [] && Unbroken(lines)
    ensures Lines(Join(lines)) == lines
  {
    if |lines| == 1 {
      WholeLine(lines[0]);
      assert lines == [lines[0]];
    } else {
      assert lines == [lines[0]] + lines[1..];
      LinesJoin(lines[1..]);
      FirstLine(lines[0], Join(lines[1..]));
    }
  }

  lemma WholeLine(line: string)
    requires '\n' !in line
    ensures Lines(line) == [line]
  {
    forall i | 0 <= i < |line| ensures line[i] != '\n' {
      assert line[i] in line;
    }
  }

  lemma FirstLine(x: string, rest: string)
    requires '\n' !in x
    ensures Lines(x + (['\n'] + rest)) == [x] + Lines(rest)
  {
    EndOfFirst(x, ['\n'] + rest);
    Split(x, ['\n'] + rest);
    var s := x + (['\n'] + rest);
    assert s[|x| + 1..] == rest;
  }

  lemma EndOfFirst(x: string, rest: string)
    requires '\n' !in x && rest != "" && rest[0] == '\n'
    ensures LineEnd(x + rest) == |x|
  {
    var s := x + rest;
    assert s[|x|] == '\n';
    assert forall k :: 0 <= k < |x| ==> s[k] == x[k] && x[k] in x;
  }

  /** A line's offset cuts the text between two lines. */
  lemma {:induction false} JoinCut(lines: seq<string>, k: nat)
    requires k < |lines|
    ensures var at := Offset(lines, k);
            && at <= |Join(lines)|
            && Join(lines)[at..] == Join(lines[k..])
            && (at > 0 ==> Join(lines)[at - 1] == '\n')
  {
    if k == 0 {
      Nothing(lines);
      Nothing(Join(lines));
    } else {
      JoinCut(lines[1..], k - 1);
      CutLater(lines[0] + ['\n'], Join(lines[1..]), Offset(lines[1..], k - 1));
      Associate(lines[0], ['\n'], Join(lines[1..]));
      CutTwice(lines, 1, k);
    }
  }

  lemma CutLater(a: string, b: string, n: nat)
    requires n <= |b| && a != "" && a[|a| - 1] == '\n'
    ensures (a + b)[|a| + n..] == b[n..] && (a + b)[..|a| + n] == a + b[..n]
    ensures n == 0 ==> (a + b)[|a| + n - 1] == '\n'
    ensures n > 0 ==> (a + b)[|a| + n - 1] == b[n - 1]
  {
  }

  lemma Nothing<T>(s: seq<T>)
    ensures s[0..] == s && s[..0] + s == s
  {
  }

  lemma CutTwice<T>(s: seq<T>, i: nat, j: nat)
    requires i <= j <= |s|
    ensures s[i..][j - i..] == s[j..]
  {
  }

  /** The text before a line's offset is what joins to whatever lines follow. */
  lemma {:induction false} JoinPrefix(lines: seq<string>, k: nat, more: seq<string>)
    requires k < |lines| && more != [] && Offset(lines, k) <= |Join(lines)|
    ensures Join(lines)[..Offset(lines, k)] + Join(more) == Join(lines[..k] + more)
  {
    if k == 0 {
      NoLines(Join(lines), lines, Join(more), more);
    } else {
      var n := Offset(lines[1..], k - 1);
      JoinCut(lines[1..], k - 1);
      JoinPrefix(lines[1..], k - 1, more);
      Associate(lines[0], ['\n'], Join(lines[1..]));
      CutLater(lines[0] + ['\n'], Join(lines[1..]), n);
      Associate(lines[0] + ['\n'], Join(lines[1..])[..n], Join(more));
      Associate(lines[0], ['\n'], Join(lines[1..][..k - 1] + more));
      JoinCons(lines[0], lines[1..][..k - 1] + more);
      HeadPrefix(lines, k, more);
    }
  }

  lemma NoLines(a: string, b: seq<string>, c: string, d: seq<string>)
    ensures a[..0] + c == c && b[..0] + d == d
  {
  }

  lemma HeadPrefix<T>(s: seq<T>, k: nat, t: seq<T>)
    requires 0 < k <= |s|
    ensures [s[0]] + (s[1..][..k - 1] + t) == s[..k] + t
  {
    assert s[..k] == [s[0]] + s[1..][..k - 1];
  }

  lemma LinesInsert(s: string, k: nat, x: string)
    requires k < |Lines(s)| && '\n' !in x
    ensures var at := Offset(Lines(s), k);
            at <= |s| && Lines(s[..at] + x + ['\n'] + s[at..]) == Lines(s)[..k] + [x] + Lines(s)[k..]
  {
    var lines := Lines(s);
    JoinLines(s);
    JoinCut(lines, k);
    JoinInsert(lines, k, x);
    forall line | line in lines[..k] + [x] + lines[k..] ensures '\n' !in line {
      assert line == x || line in lines;
    }
    LinesJoin(lines[..k] + [x] + lines[k..]);
  }

  lemma JoinInsert(lines: seq<string>, k: nat, x: string)
    requires k < |lines| && Offset(lines, k) <= |Join(lines)|
    ensures var s := Join(lines);
            var at := Offset(lines, k);
            s[..at] + x + ['\n'] + s[at..] == Join(lines[..k] + [x] + lines[k..])
  {
    var s, at := Join(lines), Offset(lines, k);
    JoinCut(lines, k);
    JoinPrefix(lines, k, [x] + lines[k..]);
    JoinCons(x, lines[k..]);
    Associate(lines[..k], [x], lines[k..]);
    Regroup(s[..at], x, ['\n'], s[at..]);
  }

  lemma Regroup<T>(a: seq<T>, b: seq<T>, c: seq<T>, d: seq<T>)
    ensures a + b + c + d == a + (b + (c + d))
  {
  }

  predicate AllBlank(s: string) { forall k :: 0 <= k < |s| ==> s[k] == ' ' || s[k] == '\t' }

  predicate StartsInk(s: string) { s != "" && s[0] != ' ' && s[0] != '\t' }

  lemma {:induction false} BlanksPrefix(blanks: string, rest: string)
    requires AllBlank(blanks) && StartsInk(rest)
    ensures LeadingBlanks(blanks + rest) == |blanks|
  {
    if blanks == "" {
      assert blanks + rest == rest;
    } else {
      BlanksPrefix(blanks[1..], rest);
      Behead(blanks, rest);
    }
  }

  lemma ParseEntry(e: Entry, game: string)
    requires IsGame(game)
    requires AllBlank(e.indent) && AllBlank(e.gap) && e.gap != "" && StartsInk(e.rest)
    ensures Parse(Written(e, game)) == Some(e)
  {
    var body := e.gap + e.rest;
    var tail := game + body;
    var line := e.indent + tail;
    assert tail[0] == game[0] == 'G';
    BlanksPrefix(e.indent, tail);
    BlanksPrefix(e.gap, e.rest);
    Split(e.indent, tail);
    Split(game, body);
    Split(e.gap, e.rest);
    assert tail[4..4 + |e.gap|] == body[..|e.gap|] && tail[4 + |e.gap|..] == body[|e.gap|..];
  }

  lemma Split<T>(a: seq<T>, b: seq<T>)
    ensures (a + b)[..|a|] == a && (a + b)[|a|..] == b
  {
  }

  /** The new line is itself a metamod entry with the indentation and gap of its model. */
  lemma MetamodLineParses(line: string)
    requires Parse(line).Some?
    ensures Parse(MetamodLine(line)) == Some(Parse(line).value.(rest := METAMOD))
    ensures IsEntry(MetamodLine(line), METAMOD)
    ensures '\n' !in MetamodLine(line) && '\r' !in MetamodLine(line)
  {
    BlankParts(line);
    MetamodIsPath();
    WrittenParses(Parse(line).value.(rest := METAMOD), "Game");
  }

  lemma MetamodIsPath()
    ensures StartsInk(METAMOD) && '\n' !in METAMOD && '\r' !in METAMOD
  {
  }

  lemma WrittenParses(e: Entry, game: string)
    requires IsGame(game) && StartsInk(e.rest) && '\n' !in e.rest && '\r' !in e.rest
    requires AllBlank(e.indent) && AllBlank(e.gap) && e.gap != ""
    ensures var x := Written(e, game); Parse(x) == Some(e) && IsEntry(x, e.rest) && '\n' !in x && '\r' !in x
  {
    ParseEntry(e, game);
    NoTrailer(e.rest);
    NotBreaks(e, game);
  }

  lemma NoTrailer(path: string)
    ensures path <= path && IsTrailer(path[|path|..])
  {
    assert path[|path|..] == "";
  }

  lemma BlankParts(line: string)
    requires Parse(line).Some?
    ensures var e := Parse(line).value; AllBlank(e.indent) && AllBlank(e.gap) && e.gap != ""
  {
  }

  lemma NotBreaks(e: Entry, game: string)
    requires AllBlank(e.indent) && AllBlank(e.gap) && IsGame(game) && '\n' !in e.rest && '\r' !in e.rest
    ensures var x := Written(e, game); '\n' !in x && '\r' !in x
  {
    var x := Written(e, game);
    forall c | c in x ensures c != '\n' && c != '\r' {
      assert c in e.indent || c in game || c in e.gap || c in e.rest;
    }
  }

  lemma NoNewCRLF(a: string, x: string, b: string)
    requires !HasCRLF(a + b) && x != "" && '\r' !in x && '\n' !in x && (a == "" || a[|a| - 1] == '\n')
    ensures !HasCRLF(a + x + ['\n'] + b)
  {
    var was, out := a + b, a + x + ['\n'] + b;
    forall i | 0 <= i < |out| - 1 ensures !(out[i] == '\r' && out[i + 1] == '\n') {
      if i + 1 < |a| {
        assert out[i] == was[i] && out[i + 1] == was[i + 1];
      } else if i < |a| {
        assert out[i] == '\n';
      } else if i < |a| + |x| {
        assert out[i] == x[i - |a|];
      } else if i > |a| + |x| {
        var j := i - |x| - 1;
        assert out[i] == was[j] && out[i + 1] == was[j + 1];
      }
    }
  }

  /** The text before the inserted line, the line, and the text after it. */
  lemma Pieces(normalized: string, k: nat) returns (before: string, line: string, after: string)
    requires k < |Lines(normalized)| && IsEntry(Lines(normalized)[k], CSGO)
    ensures before + after == normalized && line == MetamodLine(Lines(normalized)[k])
    ensures WithLine(normalized, k) == before + line + ['\n'] + after
    ensures before == "" || before[|before| - 1] == '\n'
  {
    OffsetInside(normalized, k);
    var start := Offset(Lines(normalized), k);
    before, line, after := normalized[..start], MetamodLine(Lines(normalized)[k]), normalized[start..];
    Rejoin(normalized, start);
  }

  lemma WithLineLines(normalized: string, k: nat)
    requires k < |Lines(normalized)| && IsEntry(Lines(normalized)[k], CSGO)
    ensures var lines := Lines(normalized);
            Lines(WithLine(normalized, k)) == lines[..k] + [MetamodLine(lines[k])] + lines[k..]
  {
    MetamodLineParses(Lines(normalized)[k]);
    LinesInsert(normalized, k, MetamodLine(Lines(normalized)[k]));
  }

  /** Reading the result again undoes the final expansion. */
  lemma NormalizedResult(content: string, k: nat)
    requires k < |Lines(Normalize(content))| && IsEntry(Lines(Normalize(content))[k], CSGO)
    ensures var updated := WithLine(Normalize(content), k);
            Normalize(Expand(updated, Newline(content))) == updated
  {
    var updated := WithLine(Normalize(content), k);
    if HasCRLF(content) {
      NormalizeExpand(updated);
    } else {
      NormalizeLF(content);
      var before, line, after := Pieces(content, k);
      MetamodLineParses(Lines(content)[k]);
      NoNewCRLF(before, line, after);
      NormalizeLF(updated);
      ExpandLF(updated);
    }
  }

  /** A successful insertion adds exactly one line, a metamod entry directly before the first csgo entry
      and indented like it, where there was no metamod entry before. */
  lemma InsertAddsOneLine(content: string)
    requires var r := InsertMetamodSearchPath(content); r.Ok? && r.value.1
    ensures var out := InsertMetamodSearchPath(content).value.0;
            var lines := Lines(Normalize(content));
            var k := FirstEntry(lines, CSGO);
            var x := MetamodLine(lines[k]);
            && Lines(Normalize(out)) == lines[..k] + [x] + lines[k..]
            && IsEntry(x, METAMOD)
            && x == Parse(lines[k]).value.indent + ("Game" + (Parse(lines[k]).value.gap + "csgo/addons/metamod"))
            && (forall i :: 0 <= i < |lines| ==> !IsEntry(lines[i], METAMOD))
  {
    var normalized := Normalize(content);
    var k := FirstEntry(Lines(normalized), CSGO);
    NormalizedResult(content, k);
    WithLineLines(normalized, k);
    MetamodLineParses(Lines(normalized)[k]);
  }

  /** The result has CRLF throughout if the content has any, and none if it has none. */
  lemma ResultBreaks(content: string)
    requires var r := InsertMetamodSearchPath(content); r.Ok? && r.value.1
    ensures var out := InsertMetamodSearchPath(content).value.0;
            if HasCRLF(content) then NoLoneLF(out) else !HasCRLF(out)
  {
    var k := FirstEntry(Lines(Normalize(content)), CSGO);
    var updated := WithLine(Normalize(content), k);
    var out := Expand(updated, Newline(content));
    NormalizedResult(content, k);
    if HasCRLF(content) {
      ExpandNormalizeIff(out);
    } else {
      NormalizeLF(content);
      var before, line, after := Pieces(content, k);
      MetamodLineParses(Lines(content)[k]);
      NoNewCRLF(before, line, after);
      ExpandLF(updated);
    }
  }

  /** A line that a pattern accepts: blanks, the word Game, blanks, the path, and then nothing but blanks and
      perhaps a comment. */
  ghost predicate Accepted(line: string, path: string, indent: string, gap: string, blanks: string, comment: string) {
    && line == indent + ("Game" + (gap + (path + (blanks + comment))))
    && AllBlank(indent) && AllBlank(gap) && gap != "" && AllBlank(blanks)
    && (comment == "" || (|comment| >= 2 && comment[0] == '/' && comment[1] == '/'))
  }

  lemma EntryAccepted(line: string, path: string) returns (indent: string, gap: string, blanks: string, comment: string)
    requires IsEntry(line, path)
    ensures Accepted(line, path, indent, gap, blanks, comment)
  {
    var e := Parse(line).value;
    indent, gap := e.indent, e.gap;
    ParsedLine(line);
    BlankParts(line);
    blanks, comment := TrailerParts(e.rest[|path|..]);
    Rejoin(e.rest, |path|);
  }

  lemma TrailerParts(s: string) returns (blanks: string, comment: string)
    requires IsTrailer(s)
    ensures s == blanks + comment && AllBlank(blanks)
    ensures comment == "" || (|comment| >= 2 && comment[0] == '/' && comment[1] == '/')
  {
    var n := LeadingBlanks(s);
    blanks, comment := s[..n], s[n..];
    Rejoin(s, n);
  }

  lemma ParsedLine(line: string)
    requires Parse(line).Some?
    ensures var e := Parse(line).value; line == e.indent + ("Game" + (e.gap + e.rest))
  {
    var n := LeadingBlanks(line);
    var tail := line[n..];
    var gap := LeadingBlanks(tail[4..]);
    assert tail[..4] == "Game";
    Rejoin(line, n);
    Rejoin(tail, 4);
    Rejoin(tail[4..], gap);
    assert tail[4..][..gap] == tail[4..4 + gap] && tail[4..][gap..] == tail[4 + gap..];
  }

  lemma AcceptedEntry(line: string, path: string, indent: string, gap: string, blanks: string, comment: string)
    requires Accepted(line, path, indent, gap, blanks, comment) && StartsInk(path)
    ensures IsEntry(line, path)
  {
    var rest := path + (blanks + comment);
    ParseEntry(Entry(indent, gap, rest), "Game");
    Split(path, blanks + comment);
    TrailerIs(blanks, comment);
  }

  lemma TrailerIs(blanks: string, comment: string)
    requires AllBlank(blanks)
    requires comment == "" || (|comment| >= 2 && comment[0] == '/' && comment[1] == '/')
    ensures IsTrailer(blanks + comment)
  {
    if comment == "" {
      assert blanks + comment == blanks;
      AllLeading(blanks);
    } else {
      BlanksPrefix(blanks, comment);
      Split(blanks, comment);
    }
  }

  lemma {:induction false} AllLeading(blanks: string)
    requires AllBlank(blanks)
    ensures LeadingBlanks(blanks) == |blanks|
  {
    if blanks == "" {
    } else {
      AllLeading(blanks[1..]);
    }
  }

  ghost predicate IsLine(line: string, path: string) {
    exists indent, gap, blanks, comment :: Accepted(line, path, indent, gap, blanks, comment)
  }

  /** The two line predicates accept exactly what the two patterns do. */
  lemma IsEntryIff(line: string, path: string)
    requires StartsInk(path)
    ensures IsEntry(line, path) <==> IsLine(line, path)
  {
    if IsEntry(line, path) {
      var indent, gap, blanks, comment := EntryAccepted(line, path);
    } else if IsLine(line, path) {
      var indent, gap, blanks, comment :| Accepted(line, path, indent, gap, blanks, comment);
      AcceptedEntry(line, path, indent, gap, blanks, comment);
    }
  }

  ghost predicate SomeLine(lines: seq<string>, path: string) { exists i :: 0 <= i < |lines| && IsLine(lines[i], path) }

  lemma SomeLineIff(lines: seq<string>, path: string)
    requires StartsInk(path)
    ensures FirstEntry(lines, path) < |lines| <==> SomeLine(lines, path)
  {
    forall i | 0 <= i < |lines| ensures IsEntry(lines[i], path) <==> IsLine(lines[i], path) {
      IsEntryIff(lines[i], path);
    }
  }

  /** The three outcomes: content that has the metamod line comes back unchanged; else a line is inserted if
      there is a csgo line; else it is an error. */
  lemma InsertCases(content: string)
    ensures var r := InsertMetamodSearchPath(content);
            var lines := Lines(Normalize(content));
            && (r == Ok((content, false)) <==> SomeLine(lines, "csgo/addons/metamod"))
            && (r.Ok? && r.value.1 <==> !SomeLine(lines, "csgo/addons/metamod") && SomeLine(lines, "csgo"))
            && (r.Err? <==> !SomeLine(lines, "csgo/addons/metamod") && !SomeLine(lines, "csgo"))
  {
    var lines := Lines(Normalize(content));
    MetamodIsPath();
    CsgoIsPath();
    SomeLineIff(lines, METAMOD);
    SomeLineIff(lines, CSGO);
    InsertBy(content, lines);
  }

  lemma InsertBy(content: string, lines: seq<string>)
    requires lines == Lines(Normalize(content))
    ensures var r := InsertMetamodSearchPath(content);
            if FirstEntry(lines, METAMOD) < |lines| then r == Ok((content, false))
            else if FirstEntry(lines, CSGO) < |lines| then r.Ok? && r.value.1
            else r.Err?
  {
  }

  /** Idempotence, for every content: a second call changes nothing and returns its input. */
  lemma InsertIdempotent(content: string)
    ensures var r := InsertMetamodSearchPath(content);
            r.Ok? ==> InsertMetamodSearchPath(r.value.0) == Ok((r.value.0, false))
  {
    var r := InsertMetamodSearchPath(content);
    if r.Ok? && r.value.1 {
      InsertAddsOneLine(content);
      var lines := Lines(Normalize(content));
      var k := FirstEntry(lines, CSGO);
      assert IsEntry(Lines(Normalize(r.value.0))[k], METAMOD);
    }
  }

  lemma ExpandLine(x: string, newline: string)
    requires '\n' !in x
    ensures Expand(x + ['\n'], newline) == x + newline
  {
    ExpandAppend(x, ['\n'], newline);
    ExpandPlain(x, newline);
    assert Expand(['\n'], newline) == newline + Expand("", newline);
  }

  lemma {:induction false} ExpandPlain(x: string, newline: string)
    requires '\n' !in x
    ensures Expand(x, newline) == x
  {
    if x == "" {
    } else {
      ExpandPlain(x[1..], newline);
    }
  }

  /** Deleting the inserted line, with its line break, gives back the original exactly when the original
      uses one kind of line break throughout. */
  lemma DeletingLineRestoresIff(content: string) returns (start: nat, end: nat)
    requires var r := InsertMetamodSearchPath(content); r.Ok? && r.value.1
    ensures var out := InsertMetamodSearchPath(content).value.0;
            var lines := Lines(Normalize(content));
            && start <= end <= |out|
            && out[start..end] == MetamodLine(lines[FirstEntry(lines, CSGO)]) + Newline(content)
            && (out[..start] + out[end..] == content <==> Uniform(content))
  {
    var normalized, nl := Normalize(content), Newline(content);
    var k := FirstEntry(Lines(normalized), CSGO);
    var before, line, after := Pieces(normalized, k);
    MetamodLineParses(Lines(normalized)[k]);
    ExpandPieces(before, line, after, nl);
    start := |Expand(before, nl)|;
    end := start + |line + nl|;
    Cut(Expand(before, nl), line + nl, Expand(after, nl));
    ExpandAppend(before, after, nl);
    RestoredIff(content);
  }

  lemma ExpandPieces(before: string, line: string, after: string, nl: string)
    requires '\n' !in line
    ensures Expand(before + line + ['\n'] + after, nl) == Expand(before, nl) + (line + nl) + Expand(after, nl)
  {
    ExpandAppend(before + line + ['\n'], after, nl);
    assert before + line + ['\n'] == before + (line + ['\n']);
    ExpandAppend(before, line + ['\n'], nl);
    ExpandLine(line, nl);
  }

  lemma Cut(a: string, x: string, b: string)
    ensures var out := a + x + b;
            out[|a|..|a| + |x|] == x && out[..|a|] + out[|a| + |x|..] == a + b
  {
  }

  lemma RestoredIff(content: string)
    ensures Expand(Normalize(content), Newline(content)) == content <==> Uniform(content)
  {
    if HasCRLF(content) {
      ExpandNormalizeIff(content);
    } else {
      NormalizeLF(content);
      ExpandLF(content);
    }
  }

  /** A csgo line that ends in CRLF, then an empty line that ends in LF. */
  function Mixed(line: string): string { line + (['\r', '\n'] + ['\n']) }

  lemma {:induction false} NormalizePlain(x: string, rest: string)
    requires '\r' !in x
    ensures Normalize(x + rest) == x + Normalize(rest)
  {
    if x == "" {
      assert x + rest == rest;
    } else {
      Behead(x, rest);
      NormalizePlain(x[1..], rest);
      Associate([x[0]], x[1..], Normalize(rest));
      assert [x[0]] + x[1..] == x;
    }
  }

  lemma MixedLines(line: string)
    requires '\n' !in line && '\r' !in line
    ensures Lines(Normalize(Mixed(line))) == [line, "", ""]
  {
    var crlf: string, lf: string := ['\r', '\n'], ['\n'];
    NormalizePlain(line, crlf + lf);
    assert (crlf + lf)[2..] == lf && lf[1..] == "";
    assert Normalize(lf) == lf && Normalize(crlf + lf) == lf + lf;
    FirstLine(line, lf);
    FirstLine("", "");
    assert "" + (lf + "") == lf;
    WholeLine("");
  }

  lemma MixedNotUniform(line: string)
    ensures !Uniform(Mixed(line))
  {
    var s, n := Mixed(line), |line|;
    assert s[n] == '\r' && s[n + 1] == '\n' && s[n + 2] == '\n';
  }

  lemma MixedInserts(line: string)
    requires IsEntry(line, CSGO) && !IsEntry(line, METAMOD) && '\n' !in line && '\r' !in line
    ensures var r := InsertMetamodSearchPath(Mixed(line)); r.Ok? && r.value.1
    ensures FirstEntry(Lines(Normalize(Mixed(line))), CSGO) == 0
  {
    var lines := Lines(Normalize(Mixed(line)));
    MixedLines(line);
    EmptyIsNoEntry(METAMOD);
    Three(lines, line, "", CSGO, METAMOD);
    Inserts(Mixed(line), lines);
  }

  lemma Three(lines: seq<string>, line: string, empty: string, path: string, other: string)
    requires lines == [line, empty, empty] && IsEntry(line, path) && !IsEntry(line, other) && !IsEntry(empty, other)
    ensures FirstEntry(lines, path) == 0 && FirstEntry(lines, other) == |lines|
  {
    hide IsEntry;
    OnlyFirst(lines, path);
    NoEntries(lines, other);
  }

  lemma Inserts(content: string, lines: seq<string>)
    requires lines == Lines(Normalize(content))
    requires FirstEntry(lines, METAMOD) == |lines| && FirstEntry(lines, CSGO) < |lines|
    ensures var r := InsertMetamodSearchPath(content); r.Ok? && r.value.1
  {
  }

  lemma OnlyFirst(lines: seq<string>, path: string)
    requires lines != [] && IsEntry(lines[0], path)
    ensures FirstEntry(lines, path) == 0
  {
  }

  lemma NoEntries(lines: seq<string>, path: string)
    requires forall i :: 0 <= i < |lines| ==> !IsEntry(lines[i], path)
    ensures FirstEntry(lines, path) == |lines|
  {
  }

  lemma EmptyIsNoEntry(path: string)
    ensures !IsEntry("", path)
  {
  }

  lemma CsgoIsPath()
    ensures StartsInk(CSGO) && '\n' !in CSGO && '\r' !in CSGO && |CSGO| < |METAMOD|
  {
  }

  lemma CsgoLine(line: string)
    requires line == Written(Entry("", " ", CSGO), "Game")
    ensures IsEntry(line, CSGO) && !IsEntry(line, METAMOD) && '\n' !in line && '\r' !in line
  {
    CsgoIsPath();
    WrittenParses(Entry("", " ", CSGO), "Game");
  }

  /** The line Game csgo, ended by CRLF and followed by an empty line ended by LF: the insertion succeeds,
      and deleting the inserted line does not restore the content. */
  lemma MixedBreaksNotRestored() returns (content: string, start: nat, end: nat)
    ensures var line := Written(Entry("", " ", CSGO), "Game");
            var r := InsertMetamodSearchPath(content);
            && content == Mixed(line) && r.Ok? && r.value.1 && start <= end <= |r.value.0|
            && Parse(line).Some? && r.value.0[start..end] == MetamodLine(line) + Newline(content)
            && r.value.0[..start] + r.value.0[end..] != content
  {
    var line := Written(Entry("", " ", CSGO), "Game");
    content := Mixed(line);
    CsgoLine(line);
    MixedInserts(line);
    MixedLines(line);
    MixedNotUniform(line);
    start, end := DeletingLineRestoresIff(content);
  }
}
