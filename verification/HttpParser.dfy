/**
 * Parsing one request from the front of a buffer. Bytes are characters below 256.
 */
module HttpParser {
  import opened Base

  const MAX_BODY_LEN := 8192
  const BUF_SIZE := 2048
  const USIZE_MAX := 0xffff_ffff_ffff_ffff
  const END_OF_HEADERS := "\r\n\r\n"
  const CONTENT_LENGTH := "Content-Length:"
  const CONTENT_LENGTH_LOWER := "content-length:"
  const CONNECTION_CLOSE := "connection: close"
  const RESPONSE_BAD_REQUEST := "HTTP/1.1 400 Bad Request\r\nContent-Length: 0\r\nConnection: close\r\n\r\n"
  const RESPONSE_NOT_FOUND := "HTTP/1.1 404 Not Found\r\nContent-Length: 0\r\nConnection: close\r\n\r\n"

  datatype Verb = Get | Post

  datatype Request = Request(verb: Verb, path: string, body: string, keepAlive: bool)

  datatype ParseResult = Complete(request: Request, consumed: nat) | Reject(response: string) | NeedMore

  // ----- searching -----

  /** The first occurrence of `needle` at or after `i`. */
  function Find(hay: string, needle: string, i: nat): (r: Option<nat>)
    ensures r.Some? ==> i <= r.value && r.value + |needle| <= |hay| && hay[r.value..r.value + |needle|] == needle
    decreases |hay| - i
  {
    if i + |needle| > |hay| then None
    else if hay[i..i + |needle|] == needle then Some(i)
    else if i == |hay| then None
    else Find(hay, needle, i + 1)
  }

  function Lower(c: char): char { if 'A' <= c <= 'Z' then c + 32 as char else c }

  function LowerAll(s: string): string { seq(|s|, i requires 0 <= i < |s| => Lower(s[i])) }

  // ----- the content length -----

  predicate IsBlank(c: char) { c == ' ' || c == '\t' }

  function Decimal(s: string): nat
    requires AllDigits(s)
  {
    if s == "" then 0 else 10 * Decimal(s[..|s| - 1]) + (s[|s| - 1] - '0') as nat
  }

  /** Where the leading blanks end; 0 when there is nothing else. */
  function ValueStart(s: string, i: nat): (r: nat)
    requires i <= |s|
    ensures r <= |s|
    decreases |s| - i
  {
    if i == |s| then 0 else if !IsBlank(s[i]) then i else ValueStart(s, i + 1)
  }

  function ValueEnd(s: string, i: nat): (r: nat)
    requires i <= |s|
    ensures i <= r <= |s|
    decreases |s| - i
  {
    if i == |s| || s[i] == '\r' || IsBlank(s[i]) then i else ValueEnd(s, i + 1)
  }

  /** The value's digits as a number that saturates, 0 when there is anything else. */
  function LengthValue(rest: string): nat {
    var start := ValueStart(rest, 0);
    var digits := rest[start..ValueEnd(rest, start)];
    if AllDigits(digits) then Min(Decimal(digits), USIZE_MAX) else 0
  }

  /** The exact spelling is looked for first, then any mixture of cases. */
  function ContentLength(headers: string): nat {
    match Find(headers, CONTENT_LENGTH, 0)
    case Some(p) => LengthValue(headers[p + |CONTENT_LENGTH|..])
    case None =>
      match Find(LowerAll(headers), CONTENT_LENGTH_LOWER, 0)
      case Some(p) => LengthValue(headers[p + |CONTENT_LENGTH_LOWER|..])
      case None => 0
  }

  method FindValueStart(rest: string) returns (start: nat)
    ensures start == ValueStart(rest, 0)
  {
    start := 0;
    while start < |rest| && IsBlank(rest[start])
      invariant 0 <= start <= |rest| && ValueStart(rest, 0) == ValueStart(rest, start)
    {
      start := start + 1;
    }
    if start == |rest| { start := 0; }
  }

  method FindValueEnd(rest: string, start: nat) returns (end: nat)
    requires start <= |rest|
    ensures end == ValueEnd(rest, start)
  {
    end := start;
    while end < |rest| && rest[end] != '\r' && !IsBlank(rest[end])
      invariant start <= end <= |rest| && ValueEnd(rest, start) == ValueEnd(rest, end)
    {
      end := end + 1;
    }
  }

  function SaturatingMul(a: nat, b: nat): nat { Min(a * b, USIZE_MAX) }

  function SaturatingAdd(a: nat, b: nat): nat { Min(a + b, USIZE_MAX) }

  /** Saturating at every digit is saturating once at the end. */
  method ParseDigits(s: string) returns (num: nat)
    ensures num == if AllDigits(s) then Min(Decimal(s), USIZE_MAX) else 0
  {
    num := 0;
    var i := 0;
    while i < |s|
      invariant 0 <= i <= |s| && AllDigits(s[..i]) && num == Min(Decimal(s[..i]), USIZE_MAX)
    {
      if !IsDigit(s[i]) { return 0; }
      assert s[..i + 1][..i] == s[..i];
      num := SaturatingAdd(SaturatingMul(num, 10), (s[i] - '0') as nat);
      i := i + 1;
    }
    assert s[..i] == s;
  }

  method ParseContentLengthValue(rest: string) returns (num: nat)
    ensures num == LengthValue(rest)
  {
    var start := FindValueStart(rest);
    var end := FindValueEnd(rest, start);
    num := ParseDigits(rest[start..end]);
  }

  method FindContentLength(headers: string) returns (length: nat)
    ensures length == ContentLength(headers)
  {
    var exact := Find(headers, CONTENT_LENGTH, 0);
    if exact.Some? {
      length := ParseContentLengthValue(headers[exact.value + |CONTENT_LENGTH|..]);
      return;
    }
    var found := FindAnyCase(headers);
    if found.None? { return 0; }
    length := ParseContentLengthValue(headers[found.value + |CONTENT_LENGTH_LOWER|..]);
  }

  /** The window loop, which ignores case. */
  method FindAnyCase(headers: string) returns (found: Option<nat>)
    ensures found == Find(LowerAll(headers), CONTENT_LENGTH_LOWER, 0)
  {
    var n, m := |headers|, |CONTENT_LENGTH_LOWER|;
    if n < m { return None; }
    var i := 0;
    while i + m <= n
      invariant 0 <= i <= n
      invariant Find(LowerAll(headers), CONTENT_LENGTH_LOWER, 0) == Find(LowerAll(headers), CONTENT_LENGTH_LOWER, i)
    {
      WindowStep(headers, i);
      if Lower(headers[i]) == 'c' && LowerAll(headers[i..i + m]) == CONTENT_LENGTH_LOWER { return Some(i); }
      i := i + 1;
    }
    found := None;
  }

  /** Comparing the first letter first changes nothing. */
  lemma WindowStep(headers: string, i: nat)
    requires i + |CONTENT_LENGTH_LOWER| <= |headers|
    ensures var m := |CONTENT_LENGTH_LOWER|;
            Find(LowerAll(headers), CONTENT_LENGTH_LOWER, i)
            == if Lower(headers[i]) == 'c' && LowerAll(headers[i..i + m]) == CONTENT_LENGTH_LOWER then Some(i)
               else Find(LowerAll(headers), CONTENT_LENGTH_LOWER, i + 1)
  {
    var lower, m := LowerAll(headers), |CONTENT_LENGTH_LOWER|;
    assert LowerAll(headers[i..i + m]) == lower[i..i + m];
    assert lower[i..i + m][0] == Lower(headers[i]);
    assert CONTENT_LENGTH_LOWER[0] == 'c';
  }

  // ----- the request -----

  datatype Line = Line(verb: Verb, pathStart: nat, pathEnd: nat, headers: nat)

  function VerbOf(s: string): Option<Verb> {
    if s == "GET" then Some(Get) else if s == "POST" then Some(Post) else None
  }

  /** The first line, up to its carriage return. */
  function FirstLine(buf: string): (r: Option<Line>)
    ensures r.Some? ==>
              && 0 < r.value.pathStart < r.value.pathEnd <= r.value.headers - 2 < |buf|
              && buf[r.value.headers - 2] == '\r'
    ensures r.Some? ==> (forall k :: 0 <= k < r.value.headers - 2 ==> buf[k] != '\r')
  {
    PositionIsFirst(buf, '\r', 0, |buf|);
    match Position(buf, '\r', 0, |buf|)
    case None => None
    case Some(end) =>
      match Position(buf, ' ', 0, end)
      case None => None
      case Some(verbEnd) =>
        var verb := VerbOf(buf[..verbEnd]);
        var pathStart := verbEnd + 1;
        if verb.None? || pathStart >= end then None
        else
          match Position(buf, ' ', pathStart, end)
          case None => None
          case Some(pathEnd) =>
            if pathEnd == pathStart then None else Some(Line(verb.value, pathStart, pathEnd, end + 2))
  }

  function VerbText(verb: Verb): string { if verb.Get? then "GET" else "POST" }

  /** The method, one blank, a path without blanks, and one more blank, all before the first
      carriage return. */
  predicate IsLine(buf: string, line: Line) {
    var end := line.headers - 2;
    && 0 < line.pathStart < line.pathEnd < end < |buf|
    && buf[..line.pathStart - 1] == VerbText(line.verb) && buf[line.pathStart - 1] == buf[line.pathEnd] == ' '
    && ' ' !in buf[line.pathStart..line.pathEnd] && buf[end] == '\r' && '\r' !in buf[..end]
  }

  /** A first line is accepted, with these bounds, exactly when it has this form. */
  lemma FirstLineIff(buf: string, line: Line)
    ensures FirstLine(buf) == Some(line) <==> IsLine(buf, line)
  {
    if IsLine(buf, line) { LineIsFound(buf, line); }
    if FirstLine(buf) == Some(line) { PositionIsFirst(buf, ' ', line.pathStart, line.headers - 2); }
  }

  lemma LineIsFound(buf: string, line: Line)
    requires IsLine(buf, line)
    ensures FirstLine(buf) == Some(line)
  {
    var end, verb, path := line.headers - 2, VerbText(line.verb), buf[line.pathStart..line.pathEnd];
    forall k | 0 <= k < end ensures buf[k] != '\r' { assert buf[k] == buf[..end][k]; }
    PositionSkips(buf, '\r', 0, end, |buf|);
    assert ' ' !in verb;
    forall k | 0 <= k < |verb| ensures buf[k] != ' ' { assert buf[k] == verb[k]; }
    PositionSkips(buf, ' ', 0, |verb|, end);
    forall k | line.pathStart <= k < line.pathEnd ensures buf[k] != ' ' { assert buf[k] == path[k - line.pathStart]; }
    PositionSkips(buf, ' ', line.pathStart, line.pathEnd, end);
  }

  function EarlyRejection(verb: Verb, path: string, contentLength: nat): Option<string> {
    if verb == Get && path == "/ready" then None
    else if verb == Post && path == "/fraud-score" then
      if contentLength <= MAX_BODY_LEN then None else Some(RESPONSE_BAD_REQUEST)
    else Some(RESPONSE_NOT_FOUND)
  }

  predicate CloseRequested(headers: string) { Find(LowerAll(headers), CONNECTION_CLOSE, 0).Some? }

  /** What a complete header says: a rejection, or the length of the body. */
  function ParseHeaders(buf: string, headerEnd: nat): (r: Result<(Line, nat)>)
    requires headerEnd >= 4 && Find(buf, END_OF_HEADERS, 0) == Some(headerEnd - 4)
    ensures r.Ok? ==> r.value.0.pathStart < r.value.0.pathEnd <= r.value.0.headers <= headerEnd <= |buf|
  {
    match FirstLine(buf)
    case None => Err(RESPONSE_BAD_REQUEST)
    case Some(line) =>
      assert buf[headerEnd - 4..headerEnd][0] == '\r';
      var length := ContentLength(buf[line.headers..headerEnd]);
      match EarlyRejection(line.verb, buf[line.pathStart..line.pathEnd], length)
      case Some(response) => Err(response)
      case None => Ok((line, length))
  }

  /** The rest, once the header is accepted. */
  function ParseBody(buf: string, headerEnd: nat, line: Line, length: nat, assumeKeepAlive: bool): (r: ParseResult)
    requires 4 <= headerEnd <= |buf| && line.pathStart < line.pathEnd <= headerEnd
    ensures r.Complete? ==> 4 <= r.consumed <= |buf|
  {
    var bodyEnd := headerEnd + length;
    if |buf| < bodyEnd then NeedMore
    else
      var keepAlive := assumeKeepAlive || !CloseRequested(buf[..headerEnd]);
      Complete(Request(line.verb, buf[line.pathStart..line.pathEnd], buf[headerEnd..bodyEnd], keepAlive), bodyEnd)
  }

  function Decide(buf: string, headerEnd: nat, parsed: Result<(Line, nat)>, assumeKeepAlive: bool): (r: ParseResult)
    requires 4 <= headerEnd <= |buf| && (parsed.Ok? ==> parsed.value.0.pathStart < parsed.value.0.pathEnd <= headerEnd)
    ensures r.Complete? ==> 4 <= r.consumed <= |buf|
  {
    match parsed
    case Err(response) => Reject(response)
    case Ok((line, length)) => ParseBody(buf, headerEnd, line, length, assumeKeepAlive)
  }

  /** `parse_request_result`. */
  function ParseRequest(buf: string, assumeKeepAlive: bool): (r: ParseResult)
    ensures r.Complete? ==> 4 <= r.consumed <= |buf|
  {
    match Find(buf, END_OF_HEADERS, 0)
    case None => NeedMore
    case Some(p) =>
      Decide(buf, p + 4, ParseHeaders(buf, p + 4), assumeKeepAlive)
  }
}
