/**
 * A stream of pipelined requests: parsing depends on nothing behind the request, so the
 * responses to a stream do not depend on how it is cut into pieces.
 */
module HttpStream {
  import opened Base
  import opened HttpParser

  // ----- what lies behind does not matter -----

  predicate SamePrefix(a: string, b: string, n: nat) { n <= |a| && n <= |b| && a[..n] == b[..n] }

  lemma SameSlice(a: string, b: string, n: nat, i: nat, j: nat)
    requires SamePrefix(a, b, n) && i <= j <= n
    ensures a[i..j] == b[i..j]
  {
    assert forall k :: 0 <= k < j - i ==> a[i..j][k] == a[..n][i + k] == b[..n][i + k] == b[i..j][k];
  }

  lemma {:induction false} FindLocal(a: string, b: string, needle: string, i: nat, p: nat)
    requires Find(a, needle, i) == Some(p) && SamePrefix(a, b, p + |needle|)
    ensures Find(b, needle, i) == Some(p)
    decreases |a| - i
  {
    var end := i + |needle|;
    SameSlice(a, b, p + |needle|, i, end);
    if i < p {
      FindLocal(a, b, needle, i + 1, p);
      FindMovesOn(b, needle, i, end);
    }
  }

  lemma {:induction false} FindMovesOn(hay: string, needle: string, i: nat, end: nat)
    requires end == i + |needle| < |hay| && hay[i..end] != needle
    ensures Find(hay, needle, i) == Find(hay, needle, i + 1)
  {
  }

  lemma {:induction false} PositionLocal(a: string, b: string, c: char, i: nat, m: nat, n: nat, p: nat)
    requires i <= m <= |a| && Position(a, c, i, m) == Some(p) && SamePrefix(a, b, p + 1) && p < n <= |b|
    ensures Position(b, c, i, n) == Some(p)
    decreases p - i
  {
    assert a[i] == a[..p + 1][i] && b[i] == b[..p + 1][i];
    if i < p { PositionLocal(a, b, c, i + 1, m, n, p); }
  }

  lemma {:induction false} PositionSame(a: string, b: string, c: char, i: nat, n: nat)
    requires SamePrefix(a, b, n) && i <= n
    ensures Position(a, c, i, n) == Position(b, c, i, n)
    decreases n - i
  {
    if i < n {
      assert a[i] == a[..n][i] && b[i] == b[..n][i];
      PositionSame(a, b, c, i + 1, n);
    }
  }

  lemma FirstLineLocal(a: string, b: string, n: nat, r: nat)
    requires SamePrefix(a, b, n) && r < n && a[r] == '\r'
    ensures FirstLine(a) == FirstLine(b)
  {
    PositionIsFirst(a, '\r', 0, |a|);
    var end := Position(a, '\r', 0, |a|).value;
    SameSlice(a, b, n, 0, end + 1);
    PositionLocal(a, b, '\r', 0, |a|, |b|, end);
    SameSlice(a, b, n, 0, end);
    PositionSame(a, b, ' ', 0, end);
    var verbEnd := Position(a, ' ', 0, end);
    if verbEnd.Some? {
      SameSlice(a, b, n, 0, verbEnd.value);
      if verbEnd.value + 1 <= end { PositionSame(a, b, ' ', verbEnd.value + 1, end); }
    }
  }

  lemma {:induction false} HeadersLocal(a: string, b: string, headerEnd: nat)
    requires headerEnd >= 4 && Find(a, END_OF_HEADERS, 0) == Some(headerEnd - 4) && SamePrefix(a, b, headerEnd)
    ensures Find(b, END_OF_HEADERS, 0) == Some(headerEnd - 4)
    ensures ParseHeaders(a, headerEnd) == ParseHeaders(b, headerEnd)
  {
    FindLocal(a, b, END_OF_HEADERS, 0, headerEnd - 4);
    assert a[headerEnd - 4..headerEnd][0] == '\r';
    FirstLineLocal(a, b, headerEnd, headerEnd - 4);
    var line := FirstLine(a);
    if line.Some? {
      assert line.value.headers <= headerEnd;
      SameSlice(a, b, headerEnd, line.value.headers, headerEnd);
      SameSlice(a, b, headerEnd, line.value.pathStart, line.value.pathEnd);
    }
  }

  lemma BodyLocal(a: string, b: string, headerEnd: nat, line: Line, length: nat, keepAlive: bool, n: nat)
    requires 4 <= headerEnd <= n && headerEnd + length <= n && line.pathStart < line.pathEnd <= headerEnd
    requires SamePrefix(a, b, n)
    ensures ParseBody(a, headerEnd, line, length, keepAlive) == ParseBody(b, headerEnd, line, length, keepAlive)
  {
    SameSlice(a, b, n, 0, headerEnd);
    SameSlice(a, b, n, headerEnd, headerEnd + length);
    SameSlice(a, b, n, line.pathStart, line.pathEnd);
  }

  predicate DecidedBy(r: ParseResult, size: nat, n: nat) {
    match r
    case NeedMore => false
    case Complete(_, m) => m <= n
    case Reject(_) => size <= n
  }

  lemma SameDecision(a: string, b: string, headerEnd: nat, parsed: Result<(Line, nat)>, keepAlive: bool, n: nat)
    requires SamePrefix(a, b, n) && 4 <= headerEnd <= n
    requires parsed.Ok? ==> parsed.value.0.pathStart < parsed.value.0.pathEnd <= headerEnd
    requires DecidedBy(Decide(a, headerEnd, parsed, keepAlive), |a|, n)
    ensures Decide(b, headerEnd, parsed, keepAlive) == Decide(a, headerEnd, parsed, keepAlive)
  {
    if parsed.Ok? { BodyLocal(a, b, headerEnd, parsed.value.0, parsed.value.1, keepAlive, n); }
  }

  /** A complete request depends on its own bytes only, and so does a rejected one's header. */
  lemma DecidedLocally(a: string, b: string, keepAlive: bool, n: nat)
    requires SamePrefix(a, b, n) && DecidedBy(ParseRequest(a, keepAlive), |a|, n)
    ensures ParseRequest(b, keepAlive) == ParseRequest(a, keepAlive)
  {
    var headerEnd := Find(a, END_OF_HEADERS, 0).value + 4;
    SameSlice(a, b, n, 0, headerEnd);
    HeadersLocal(a, b, headerEnd);
    SameDecision(a, b, headerEnd, ParseHeaders(a, headerEnd), keepAlive, n);
  }

  // ----- parsers that decide by prefixes -----

  type Parser = string -> ParseResult

  function ParserFor(keepAlive: bool): Parser { s => ParseRequest(s, keepAlive) }

  /** What was decided about `s` stays decided when `t` arrives, and is about a part of `s`. */
  predicate StableAt(parse: Parser, s: string, t: string) {
    && (!parse(s).NeedMore? ==> parse(s + t) == parse(s))
    && (parse(s).Complete? ==> 4 <= parse(s).consumed <= |s|)
  }

  ghost predicate Stable(parse: Parser) { parse("").NeedMore? && forall s, t :: StableAt(parse, s, t) }

  /** The parser is prefix-stable, for all buffers and all extensions. */
  lemma ParserIsStable(keepAlive: bool)
    ensures Stable(ParserFor(keepAlive))
  {
    forall s, t ensures StableAt(ParserFor(keepAlive), s, t) {
      assert (s + t)[..|s|] == s[..|s|];
      if !ParseRequest(s, keepAlive).NeedMore? { DecidedLocally(s, s + t, keepAlive, |s|); }
    }
  }

  /** A complete request depends on nothing behind it: its own bytes alone parse the same,
      and no shorter piece is a request, or is rejected. */
  lemma RequestIsSelfContained(s: string, keepAlive: bool)
    requires ParseRequest(s, keepAlive).Complete?
    ensures ParseRequest(s[..ParseRequest(s, keepAlive).consumed], keepAlive) == ParseRequest(s, keepAlive)
    ensures forall m :: 0 <= m < ParseRequest(s, keepAlive).consumed ==> ParseRequest(s[..m], keepAlive).NeedMore?
  {
    var parse, n := ParserFor(keepAlive), ParseRequest(s, keepAlive).consumed;
    ParserIsStable(keepAlive);
    assert s[..n][..n] == s[..n];
    DecidedLocally(s, s[..n], keepAlive, n);
    forall m | 0 <= m < n ensures ParseRequest(s[..m], keepAlive).NeedMore? { NothingShorter(parse, s, m); }
  }

  lemma NothingShorter(parse: Parser, s: string, m: nat)
    requires Stable(parse) && parse(s).Complete? && m < parse(s).consumed <= |s|
    ensures parse(s[..m]).NeedMore?
  {
    assert s[..m] + s[m..] == s;
    assert StableAt(parse, s[..m], s[m..]);
  }

  // ----- the responses to a stream -----

  type Handler = Request -> string

  /** One response per request, in order. A rejected request is answered last. `rest` is the
      beginning of a request that is not complete yet. */
  datatype Served = Served(responses: seq<string>, rest: string, closed: bool, keepAlive: bool)

  function Serve(parse: Parser, h: Handler, s: string): Served
    requires Stable(parse)
    decreases |s|
  {
    assert StableAt(parse, s, "");
    match parse(s)
    case NeedMore => Served([], s, false, true)
    case Reject(response) => Served([response], "", true, true)
    case Complete(request, n) =>
      var v := Serve(parse, h, s[n..]);
      Served([h(request)] + v.responses, v.rest, v.closed, request.keepAlive && v.keepAlive)
  }

  /** What is left is the end of the stream, and all of it when nothing was served. */
  lemma {:induction false} RestOfStream(parse: Parser, h: Handler, s: string)
    requires Stable(parse)
    ensures var v := Serve(parse, h, s);
            && |v.rest| <= |s| && s[|s| - |v.rest|..] == v.rest && (v.closed ==> v.rest == "" && v.responses != [])
            && (v.responses == [] ==> v.rest == s && parse(s).NeedMore?)
              && (v.responses != [] ==> |v.rest| < |s| || v.closed)
    decreases |s|
  {
    assert StableAt(parse, s, "");
    if parse(s).Complete? { RestOfStream(parse, h, s[parse(s).consumed..]); }
  }

  function Concat(pieces: seq<string>): string { if pieces == [] then "" else pieces[0] + Concat(pieces[1..]) }

  lemma {:induction false} ConcatSum(a: seq<string>, b: seq<string>)
    ensures Concat(a + b) == Concat(a) + Concat(b)
  {
    if a == [] {
      assert a + b == b;
    } else {
      ConcatSum(a[1..], b);
      assert (a + b)[1..] == a[1..] + b;
      ConcatAssoc(a[0], Concat(a[1..]), Concat(b));
    }
  }

  /** The service of one stream after another. */
  function Then(v: Served, w: Served): Served {
    if v.closed then v else Served(v.responses + w.responses, w.rest, w.closed, v.keepAlive && w.keepAlive)
  }

  /** What is served does not depend on where the stream is cut. */
  lemma {:induction false} ServeInPieces(parse: Parser, h: Handler, s: string, t: string)
    requires Stable(parse)
    ensures Serve(parse, h, s + t) == Then(Serve(parse, h, s), Serve(parse, h, Serve(parse, h, s).rest + t))
    decreases |s|
  {
    assert StableAt(parse, s, t);
    match parse(s)
    case NeedMore =>
    case Reject(response) =>
    case Complete(request, n) =>
      ServeInPieces(parse, h, s[n..], t);
      assert (s + t)[n..] == s[n..] + t;
      var v := Serve(parse, h, s[n..]);
      ConcatAssoc([h(request)], v.responses, Serve(parse, h, v.rest + t).responses);
  }

  /** A piece that is exactly one request. */
  predicate IsRequest(parse: Parser, piece: string) { parse(piece).Complete? && parse(piece).consumed == |piece| }

  predicate AllRequests(parse: Parser, pieces: seq<string>) {
    forall i :: 0 <= i < |pieces| ==> IsRequest(parse, pieces[i])
  }

  function Answers(parse: Parser, h: Handler, pieces: seq<string>): seq<string>
    requires AllRequests(parse, pieces)
  {
    seq(|pieces|, i requires 0 <= i < |pieces| => assert IsRequest(parse, pieces[i]); h(parse(pieces[i]).request))
  }

  /** Pipelined requests are answered one by one, in their order. What stands behind them waits
      if it is not complete, and is answered last with its rejection if it is rejected. */
  lemma {:induction false} PipelinedInOrder(parse: Parser, h: Handler, pieces: seq<string>, tail: string)
    requires Stable(parse) && AllRequests(parse, pieces)
    ensures var v, w := Serve(parse, h, Concat(pieces) + tail), Serve(parse, h, tail);
            v.responses == Answers(parse, h, pieces) + w.responses && v.rest == w.rest && v.closed == w.closed
    ensures var v := Serve(parse, h, Concat(pieces) + tail);
            && (parse(tail).NeedMore? ==> v.responses == Answers(parse, h, pieces) && v.rest == tail && !v.closed)
            && (parse(tail).Reject? ==>
                  v.responses == Answers(parse, h, pieces) + [parse(tail).response] && v.rest == "" && v.closed)
            && (!parse(tail).Complete? ==>
                  (v.keepAlive <==> forall i :: 0 <= i < |pieces| ==>
                     IsRequest(parse, pieces[i]) && parse(pieces[i]).request.keepAlive))
  {
    if pieces == [] {
      assert Concat(pieces) + tail == tail;
    } else {
      var first, others := pieces[0], Concat(pieces[1..]) + tail;
      PipelinedInOrder(parse, h, pieces[1..], tail);
      ConcatAssoc(first, Concat(pieces[1..]), tail);
      assert IsRequest(parse, first) && StableAt(parse, first, others);
      assert (first + others)[|first|..] == others;
      assert Answers(parse, h, pieces) == [h(parse(first).request)] + Answers(parse, h, pieces[1..]);
      ConcatAssoc([h(parse(first).request)], Answers(parse, h, pieces[1..]), Serve(parse, h, tail).responses);
    }
  }
}
