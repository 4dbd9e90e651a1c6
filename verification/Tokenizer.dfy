/** The split function of the live process output and the scanner loop around it
    (internal/runtime/runtime.go: scanLinesOrCarriageReturns and its use in readStream). */
module Tokenizer {
  import opened Basics

  type Bytes = seq<char>   // one char per byte

  const MAX_TOKEN: nat := 1024 * 1024

  predicate IsBreak(c: char) { c == '\r' || c == '\n' }

  /** bytes.IndexAny(data, "\r\n"), with |data| for "none". */
  function FirstBreak(data: Bytes): (i: nat)
    ensures i <= |data|
    ensures i < |data| ==> IsBreak(data[i])
    ensures forall k :: 0 <= k < i ==> !IsBreak(data[k])
  {
    if data == [] || IsBreak(data[0]) then 0 else 1 + FirstBreak(data[1..])
  }

  /** What a split function answers: consume advance bytes, and deliver a token or ask for more. */
  datatype Split = Split(advance: nat, token: Option<Bytes>)

  function ScanLinesOrCarriageReturns(data: Bytes, atEOF: bool): (r: Split)
    ensures r.advance <= |data|
    ensures r.token.Some? ==> 0 < r.advance && r.token.value <= data
  {
    if atEOF && |data| == 0 then Split(0, None)
    else
      var index := FirstBreak(data);
      if index < |data| then Split(index + 1, Some(data[..index]))   // no break before index, so nothing to trim
      else if atEOF then Split(|data|, Some(data))
      else Split(0, None)
  }

  /** The tokens of one pass over the whole stream, and what follows the last break. */
  function Tokens(stream: Bytes): (r: seq<Bytes>)
    decreases |stream|
  {
    var i := FirstBreak(stream);
    if stream == [] then []
    else if i == |stream| then [stream]
    else [stream[..i]] + Tokens(stream[i + 1..])
  }

  /** What the scanner delivers of a stream: the tokens up to the first stretch of limit or more bytes
      without a break, and whether there is one. */
  function Delivered(stream: Bytes, limit: nat): (r: (seq<Bytes>, bool))
    decreases |stream|
  {
    var i := FirstBreak(stream);
    if i >= limit then ([], true)
    else if stream == [] then ([], false)
    else if i == |stream| then ([stream], false)
    else
      var (rest, tooLong) := Delivered(stream[i + 1..], limit);
      ([stream[..i]] + rest, tooLong)
  }

  lemma FirstBreakIs(data: Bytes, i: nat)
    requires i <= |data| && (i < |data| ==> IsBreak(data[i]))
    requires forall k :: 0 <= k < i ==> !IsBreak(data[k])
    ensures FirstBreak(data) == i
  {
  }

  function Prefixed(tokens: seq<Bytes>, d: (seq<Bytes>, bool)): (seq<Bytes>, bool) { (tokens + d.0, d.1) }

  /** The scanner loop. Each Read appends some non-empty piece of what is left, no more than fits into
      the buffer; where the pieces are cut is arbitrary. The outcome does not depend on it. */
  method ScanStream(stream: Bytes, limit: nat) returns (tokens: seq<Bytes>, tooLong: bool)
    requires limit > 0
    ensures (tokens, tooLong) == Delivered(stream, limit)
  {
    tokens := [];
    tooLong := false;
    var buffer: Bytes := [];
    var unread := stream;
    var atEOF := false;
    assert buffer + unread == stream && [] + Delivered(stream, limit).0 == Delivered(stream, limit).0;
    while true
      invariant atEOF ==> unread == []
      invariant !tooLong && |buffer| <= limit && (atEOF ==> |buffer| < limit || FirstBreak(buffer) < |buffer|)
      invariant Prefixed(tokens, Delivered(buffer + unread, limit)) == Delivered(stream, limit)
      decreases |buffer| + 2 * |unread| + if atEOF then 0 else 1
    {
      ghost var left := buffer + unread;
      if |buffer| > 0 || atEOF {
        var split := ScanLinesOrCarriageReturns(buffer, atEOF);
        if split.token.Some? {
          StepToken(tokens, buffer, unread, atEOF, limit);
          tokens := tokens + [split.token.value];
          buffer := buffer[split.advance..];
          continue;
        }
        if atEOF {
          assert buffer + unread == [];
          EndOfStream(tokens, limit);
          return;
        }
      }
      if |buffer| >= limit {
        BufferFull(tokens, buffer, unread, limit);
        return tokens, true;
      }
      if unread == [] {
        atEOF := true;
      } else {
        buffer, unread := Read(buffer, unread, limit);
      }
    }
  }

  lemma EndOfStream(tokens: seq<Bytes>, limit: nat)
    requires limit > 0
    ensures Prefixed(tokens, Delivered([], limit)) == (tokens, false)
  {
    assert tokens + [] == tokens;
  }

  lemma BufferFull(tokens: seq<Bytes>, buffer: Bytes, unread: Bytes, limit: nat)
    requires FirstBreak(buffer) == |buffer| == limit
    ensures Prefixed(tokens, Delivered(buffer + unread, limit)) == (tokens, true)
  {
    NoBreakPrefix(buffer, unread);
    assert tokens + [] == tokens;
  }

  /** One Read into the free part of the buffer. */
  method Read(buffer: Bytes, unread: Bytes, limit: nat) returns (buffer': Bytes, unread': Bytes)
    requires |buffer| < limit && unread != []
    ensures buffer' + unread' == buffer + unread
    ensures |buffer| < |buffer'| <= limit
  {
    var room := limit - |buffer|;
    var n: nat :| 1 <= n <= |unread| && n <= room;
    buffer', unread' := buffer + unread[..n], unread[n..];
  }

  lemma NoBreakPrefix(buffer: Bytes, unread: Bytes)
    requires FirstBreak(buffer) == |buffer|
    ensures FirstBreak(buffer + unread) >= |buffer|
  {
    assert forall k :: 0 <= k < |buffer| ==> (buffer + unread)[k] == buffer[k];
  }

  lemma StepToken(tokens: seq<Bytes>, buffer: Bytes, unread: Bytes, atEOF: bool, limit: nat)
    requires |buffer| <= limit && (atEOF ==> unread == [] && (|buffer| < limit || FirstBreak(buffer) < |buffer|))
    requires ScanLinesOrCarriageReturns(buffer, atEOF).token.Some?
    ensures var split := ScanLinesOrCarriageReturns(buffer, atEOF);
            var d := Delivered(buffer[split.advance..] + unread, limit);
            Prefixed(tokens, Delivered(buffer + unread, limit)) == Prefixed(tokens + [split.token.value], d)
  {
    StepDelivered(buffer, unread, atEOF, limit);
    var split := ScanLinesOrCarriageReturns(buffer, atEOF);
    var d := Delivered(buffer[split.advance..] + unread, limit);
    assert tokens + ([split.token.value] + d.0) == tokens + [split.token.value] + d.0;
  }

  lemma StepDelivered(buffer: Bytes, unread: Bytes, atEOF: bool, limit: nat)
    requires |buffer| <= limit && (atEOF ==> unread == [] && (|buffer| < limit || FirstBreak(buffer) < |buffer|))
    requires ScanLinesOrCarriageReturns(buffer, atEOF).token.Some?
    ensures var split := ScanLinesOrCarriageReturns(buffer, atEOF);
            var d := Delivered(buffer[split.advance..] + unread, limit);
            Delivered(buffer + unread, limit) == Prefixed([split.token.value], d)
  {
    var left := buffer + unread;
    var i := FirstBreak(buffer);
    if i < |buffer| {
      assert left[i] == buffer[i];
      FirstBreakIs(left, i);
      assert left[..i] == buffer[..i];
      assert left[i + 1..] == buffer[i + 1..] + unread;
    } else {
      assert left == buffer && buffer[|buffer|..] + unread == [];
      assert [buffer] + [] == [buffer];
    }
  }

  // ---- what the tokens of a stream are ----

  /** With a limit no line reaches, the scanner delivers exactly the tokens of one pass; otherwise the
      tokens before the first over-long line. */
  lemma {:induction false} DeliveredTokens(stream: Bytes, limit: nat)
    requires limit > 0
    ensures var d := Delivered(stream, limit);
            && d.0 <= Tokens(stream)
            && (d.1 ==> |d.0| < |Tokens(stream)| && |Tokens(stream)[|d.0|]| >= limit)
            && (!d.1 ==> d.0 == Tokens(stream))
            && (forall t :: t in d.0 ==> |t| < limit)
    decreases |stream|
  {
    var i := FirstBreak(stream);
    if i < limit && i < |stream| {
      DeliveredTokens(stream[i + 1..], limit);
    }
  }

  /** The stream put together again from its tokens and the breaks after them. */
  function Rebuilt(tokens: seq<Bytes>, breaks: Bytes): Bytes
    requires |breaks| <= |tokens| <= |breaks| + 1
  {
    if tokens == [] then []
    else if breaks == [] then tokens[0]
    else tokens[0] + [breaks[0]] + Rebuilt(tokens[1..], breaks[1..])
  }

  lemma RebuiltCons(token: Bytes, tokens: seq<Bytes>, brk: char, breaks: Bytes)
    requires |breaks| <= |tokens| <= |breaks| + 1
    ensures Rebuilt([token] + tokens, [brk] + breaks) == token + [brk] + Rebuilt(tokens, breaks)
  {
    assert ([token] + tokens)[1..] == tokens && ([brk] + breaks)[1..] == breaks;
  }

  function Breaks(stream: Bytes): seq<char> {
    if stream == [] then []
    else if IsBreak(stream[0]) then [stream[0]] + Breaks(stream[1..])
    else Breaks(stream[1..])
  }

  lemma {:induction false} BreaksAfter(stream: Bytes, i: nat)
    requires i == FirstBreak(stream)
    ensures Breaks(stream) == if i == |stream| then [] else [stream[i]] + Breaks(stream[i + 1..])
  {
    if stream != [] && !IsBreak(stream[0]) {
      BreaksAfter(stream[1..], i - 1);
      if i < |stream| {
        assert stream[1..][i - 1 + 1..] == stream[i + 1..];
      }
    }
  }

  /** No byte is lost: tokens and breaks rebuild the stream. */
  lemma {:induction false} TokensRebuildStream(stream: Bytes)
    ensures |Breaks(stream)| <= |Tokens(stream)| <= |Breaks(stream)| + 1
    ensures Rebuilt(Tokens(stream), Breaks(stream)) == stream
    decreases |stream|
  {
    var i := FirstBreak(stream);
    BreaksAfter(stream, i);
    if i == |stream| {
    } else {
      TokensRebuildStream(stream[i + 1..]);
      RebuiltCons(stream[..i], Tokens(stream[i + 1..]), stream[i], Breaks(stream[i + 1..]));
      CutAround(stream, i);
    }
  }

  lemma CutAround(s: Bytes, i: nat)
    requires i < |s|
    ensures s[..i] + [s[i]] + s[i + 1..] == s
  {
  }

  /** No token contains a break. */
  lemma {:induction false} TokensUnbroken(stream: Bytes)
    ensures forall t, c :: t in Tokens(stream) && c in t ==> !IsBreak(c)
    decreases |stream|
  {
    var i := FirstBreak(stream);
    if i == |stream| {
    } else {
      TokensUnbroken(stream[i + 1..]);
      assert Tokens(stream) == [stream[..i]] + Tokens(stream[i + 1..]);
    }
  }

  function NonEmpty(tokens: seq<Bytes>): seq<Bytes> {
    if tokens == [] then []
    else (if tokens[0] == [] then [] else [tokens[0]]) + NonEmpty(tokens[1..])
  }

  /** The lines, each followed by its own ending, and a last line that nothing follows. */
  function Joined(lines: seq<Bytes>, endings: seq<Bytes>, last: Bytes): Bytes
    requires |endings| == |lines|
  {
    if lines == [] then last else lines[0] + endings[0] + Joined(lines[1..], endings[1..], last)
  }

  predicate IsEnding(ending: Bytes) { ending == "\n" || ending == "\r" || ending == "\r\n" }

  ghost predicate Unbroken(line: Bytes) { forall c :: c in line ==> !IsBreak(c) }

  /** The non-empty tokens are the non-empty lines, whichever of LF, CR and CRLF ends each line, and
      whether or not anything ends the last one. */
  lemma {:induction false} LineEndingsAgree(lines: seq<Bytes>, endings: seq<Bytes>, last: Bytes)
    requires |endings| == |lines| && forall ending :: ending in endings ==> IsEnding(ending)
    requires Unbroken(last) && forall line :: line in lines ==> Unbroken(line)
    ensures NonEmpty(Tokens(Joined(lines, endings, last))) == NonEmpty(lines + [last])
  {
    if lines == [] {
      LastToken(last);
      assert lines + [last] == [last];
    } else {
      LineEndingsAgree(lines[1..], endings[1..], last);
      OneLine(lines[0], endings[0], Joined(lines[1..], endings[1..], last));
      Behead(lines, [last]);
    }
  }

  lemma LastToken(last: Bytes)
    requires Unbroken(last)
    ensures NonEmpty(Tokens(last)) == NonEmpty([last])
  {
    forall i | 0 <= i < |last| ensures !IsBreak(last[i]) {
      assert last[i] in last;
    }
  }

  lemma OneLine(line: Bytes, ending: Bytes, rest: Bytes)
    requires IsEnding(ending) && Unbroken(line)
    ensures NonEmpty(Tokens(line + ending + rest)) == (if line == [] then [] else [line]) + NonEmpty(Tokens(rest))
  {
    if |ending| == 1 {
      assert ending == [ending[0]];
      OneBreak(line, ending[0], rest);
    } else {
      var r, n := ending[0], ending[1];
      OneBreak(line, r, [n] + rest);
      OneBreak([], n, rest);
      assert line + ending + rest == line + [r] + ([n] + rest);
      assert [] + [n] + rest == [n] + rest;
      assert [] + NonEmpty(Tokens(rest)) == NonEmpty(Tokens(rest));
    }
  }

  lemma OneBreak(line: Bytes, brk: char, rest: Bytes)
    requires IsBreak(brk) && Unbroken(line)
    ensures NonEmpty(Tokens(line + [brk] + rest)) == (if line == [] then [] else [line]) + NonEmpty(Tokens(rest))
  {
    FirstToken(line, brk, rest);
    assert ([line] + Tokens(rest))[1..] == Tokens(rest);
  }

  lemma FirstToken(line: Bytes, brk: char, rest: Bytes)
    requires IsBreak(brk) && Unbroken(line)
    ensures Tokens(line + [brk] + rest) == [line] + Tokens(rest)
  {
    var stream := line + [brk] + rest;
    FirstBreakIs(stream, |line|);
    assert stream[..|line|] == line && stream[|line| + 1..] == rest;
  }
}
