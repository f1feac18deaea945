/**
 * The text of a request, line by line: which request the parser finds in it, whatever its
 * header fields, its body and the bytes behind it, and which texts it rejects.
 */
module RequestText {
  import opened Base
  import opened HttpParser

  // ----- looking into a text -----

  predicate OccursAt(hay: string, needle: string, p: nat) {
    p + |needle| <= |hay| && hay[p..p + |needle|] == needle
  }

  /** The search finds the first occurrence, and nothing exactly when there is none. */
  lemma {:induction false} FindIff(hay: string, needle: string, i: nat)
    ensures match Find(hay, needle, i)
            case None => forall p: nat :: p >= i ==> !OccursAt(hay, needle, p)
            case Some(p) => p >= i && OccursAt(hay, needle, p) && forall k: nat :: i <= k < p ==>
              !OccursAt(hay, needle, k)
    decreases |hay| - i
  {
    if i + |needle| <= |hay| && hay[i..i + |needle|] != needle && i < |hay| { FindIff(hay, needle, i + 1); }
  }

  lemma {:induction false} FoundFirst(hay: string, needle: string, p: nat)
    requires OccursAt(hay, needle, p) && forall k: nat :: k < p ==> !OccursAt(hay, needle, k)
    ensures Find(hay, needle, 0) == Some(p)
  {
    FindIff(hay, needle, 0);
  }

  lemma {:induction false} NotFound(hay: string, needle: string)
    requires forall k: nat :: k < |hay| ==> !OccursAt(hay, needle, k)
    requires needle != ""
    ensures Find(hay, needle, 0) == None
  {
    FindIff(hay, needle, 0);
  }

  // ----- lines -----

  const CRLF := "\r\n"

  /** Part of one line. */
  predicate Inline(s: string) { forall k :: 0 <= k < |s| ==> s[k] != '\r' && s[k] != '\n' }

  /** Each line with its end. */
  function Lines(fields: seq<string>): string {
    if fields == [] then "" else fields[0] + CRLF + Lines(fields[1..])
  }

  predicate AllInline(fields: seq<string>) { forall i :: 0 <= i < |fields| ==> fields[i] != "" && Inline(fields[i]) }

  /** The header: the first line, the fields, and an empty line. */
  function Head(line: string, fields: seq<string>): string { line + CRLF + Lines(fields) + CRLF }

  lemma {:induction false} LinesSum(a: seq<string>, b: seq<string>)
    ensures Lines(a + b) == Lines(a) + Lines(b)
  {
    if a == [] {
      assert a + b == b;
    } else {
      assert (a + b)[1..] == a[1..] + b;
      LinesSum(a[1..], b);
      ConcatAssoc(a[0] + CRLF, Lines(a[1..]), Lines(b));
    }
  }

  /** After the end of a line there is no other one. */
  predicate Calm(s: string) { forall k :: 0 <= k && k + 2 < |s| && s[k] == '\r' ==> s[k + 2] != '\r' }

  lemma {:induction false} LinesAreCalm(fields: seq<string>)
    requires AllInline(fields)
    ensures Calm(Lines(fields)) && (fields != [] ==> Lines(fields) != "" && Lines(fields)[0] != '\r')
    ensures fields != [] ==> CRLF == Lines(fields)[|Lines(fields)| - 2..]
  {
    if fields != [] {
      LinesAreCalm(fields[1..]);
      LineThenCalm(fields[0], Lines(fields[1..]));
    }
  }

  lemma LineThenCalm(line: string, more: string)
    requires line != "" && Inline(line) && Calm(more) && (more != "" ==> more[0] != '\r')
    requires more != "" ==> |more| >= 2 && more[|more| - 2..] == CRLF
    ensures var s := line + CRLF + more; Calm(s) && s[0] != '\r' && |s| >= 2 && s[|s| - 2..] == CRLF
  {
  }

  /** The empty line is where the header ends, whatever follows it. */
  lemma {:induction false} HeadEnds(line: string, fields: seq<string>, front: string, behind: string)
    requires line != "" && Inline(line) && AllInline(fields) && front == line + CRLF + Lines(fields)
    ensures |front| >= 2 && Find(front + CRLF + behind, END_OF_HEADERS, 0) == Some(|front| - 2)
  {
    FrontIsCalm(line, fields, front);
    CalmEnds(front, behind, END_OF_HEADERS);
  }

  lemma {:induction false} FrontIsCalm(line: string, fields: seq<string>, front: string)
    requires line != "" && Inline(line) && AllInline(fields) && front == line + CRLF + Lines(fields)
    ensures Calm(front) && |front| >= 2 && front[|front| - 2..] == CRLF
  {
    LinesAreCalm(fields);
    LineThenCalm(line, Lines(fields));
  }

  lemma {:induction false} CalmEnds(s: string, behind: string, end: string)
    requires Calm(s) && |s| >= 2 && s[|s| - 2..] == CRLF && end == "\r\n\r\n"
    ensures Find(s + CRLF + behind, end, 0) == Some(|s| - 2)
  {
    var buf := s + CRLF + behind;
    forall k: nat | k < |s| - 2 ensures !OccursAt(buf, end, k) {
      if buf[k] == '\r' { Differs(buf, end, k, 2); } else { Differs(buf, end, k, 0); }
    }
    assert buf[|s| - 2..|s| + 2] == s[|s| - 2..] + CRLF;
    FoundFirst(buf, end, |s| - 2);
  }

  lemma Differs(hay: string, needle: string, k: nat, d: nat)
    requires d < |needle| && (k + d < |hay| ==> hay[k + d] != needle[d])
    ensures !OccursAt(hay, needle, k)
  {
    if k + |needle| <= |hay| { assert hay[k..k + |needle|][d] == hay[k + d]; }
  }

  // ----- a field among others -----

  predicate Without(s: string, needle: string) { forall k: nat :: k < |s| ==> !OccursAt(s, needle, k) }

  lemma Shifted(a: string, b: string, needle: string, j: nat)
    ensures OccursAt(a + b, needle, |a| + j) <==> OccursAt(b, needle, j)
  {
    if j + |needle| <= |b| { assert (a + b)[|a| + j..|a| + j + |needle|] == b[j..j + |needle|]; }
  }

  lemma PassesLine(line: string, more: string, needle: string, k: nat)
    requires needle != "" && Inline(needle) && Without(line, needle) && k < |line| + 2
    ensures !OccursAt(line + CRLF + more, needle, k)
  {
    var hay := line + CRLF + more;
    if k + |needle| <= |line| {
      assert hay[k..k + |needle|] == line[k..k + |needle|] && !OccursAt(line, needle, k);
    } else {
      Differs(hay, needle, k, if k <= |line| then |line| - k else 0);
    }
  }

  /** What is in no line is not found in all of them together. */
  lemma {:induction false} PassesLines(fields: seq<string>, more: string, needle: string, k: nat)
    requires needle != "" && Inline(needle) && forall i :: 0 <= i < |fields| ==> Without(fields[i], needle)
    requires k < |Lines(fields)|
    ensures !OccursAt(Lines(fields) + more, needle, k)
  {
    var first, others := fields[0] + CRLF, Lines(fields[1..]) + more;
    assert Lines(fields) + more == first + others;
    if k < |first| {
      PassesLine(fields[0], others, needle, k);
    } else {
      PassesLines(fields[1..], more, needle, k - |first|);
      Shifted(first, others, needle, k - |first|);
    }
  }

  lemma {:induction false} FoundBehindLines(fields: seq<string>, more: string, needle: string)
    requires needle != "" && Inline(needle) && forall i :: 0 <= i < |fields| ==> Without(fields[i], needle)
    requires OccursAt(more, needle, 0)
    ensures Find(Lines(fields) + more, needle, 0) == Some(|Lines(fields)|)
  {
    forall k: nat | k < |Lines(fields)| ensures !OccursAt(Lines(fields) + more, needle, k) {
      PassesLines(fields, more, needle, k);
    }
    Shifted(Lines(fields), more, needle, 0);
    FoundFirst(Lines(fields) + more, needle, |Lines(fields)|);
  }

  lemma {:induction false} NotFoundInLines(fields: seq<string>, needle: string)
    requires |needle| > 2 && Inline(needle) && forall i :: 0 <= i < |fields| ==> Without(fields[i], needle)
    ensures Find(Lines(fields) + CRLF, needle, 0) == None
  {
    forall k: nat | k < |Lines(fields) + CRLF| ensures !OccursAt(Lines(fields) + CRLF, needle, k) {
      if k < |Lines(fields)| { PassesLines(fields, CRLF, needle, k); }
    }
    NotFound(Lines(fields) + CRLF, needle);
  }

  // ----- any mixture of cases -----

  function Lowered(fields: seq<string>): seq<string> {
    seq(|fields|, i requires 0 <= i < |fields| => LowerAll(fields[i]))
  }

  lemma LowerSum(a: string, b: string)
    ensures LowerAll(a + b) == LowerAll(a) + LowerAll(b)
  {
  }

  lemma {:induction false} LowerLines(fields: seq<string>)
    ensures LowerAll(Lines(fields)) == Lines(Lowered(fields))
  {
    if fields != [] {
      LowerLines(fields[1..]);
      LowerSum(fields[0] + CRLF, Lines(fields[1..]));
      LowerSum(fields[0], CRLF);
      assert LowerAll(CRLF) == CRLF && Lowered(fields)[1..] == Lowered(fields[1..]);
    }
  }

  /** Not there in any mixture of cases. */
  predicate WithoutAnyCase(s: string, lower: string) { Without(LowerAll(s), lower) }

  lemma AnyCaseIsWeaker(s: string, needle: string, lower: string)
    requires WithoutAnyCase(s, lower) && lower == LowerAll(needle)
    ensures Without(s, needle)
  {
    forall k: nat | k < |s| ensures !OccursAt(s, needle, k) {
      if OccursAt(s, needle, k) {
        assert LowerAll(s)[k..k + |needle|] == LowerAll(s[k..k + |needle|]);
        assert OccursAt(LowerAll(s), lower, k);
      }
    }
  }

  // ----- the length field -----

  /** A number as it is written. */
  function DecimalText(n: nat): string {
    if n < 10 then ['0' + n as char] else DecimalText(n / 10) + ['0' + (n % 10) as char]
  }

  lemma {:induction false} DecimalReads(n: nat)
    ensures var s := DecimalText(n); s != "" && AllDigits(s) && Decimal(s) == n
  {
    if n >= 10 {
      DecimalReads(n / 10);
      assert DecimalText(n)[..|DecimalText(n)| - 1] == DecimalText(n / 10);
    } else {
      assert DecimalText(n)[..0] == "";
    }
  }

  predicate AllBlank(s: string) { forall k :: 0 <= k < |s| ==> IsBlank(s[k]) }

  lemma {:induction false} BlanksSkipped(s: string, i: nat, n: nat)
    requires i <= n < |s| && (forall k :: i <= k < n ==> IsBlank(s[k])) && !IsBlank(s[n])
    ensures ValueStart(s, i) == n
    decreases n - i
  {
    if i < n { BlanksSkipped(s, i + 1, n); }
  }

  lemma {:induction false} DigitsTaken(s: string, i: nat, n: nat)
    requires i <= n < |s| && (forall k :: i <= k < n ==> IsDigit(s[k])) && (s[n] == '\r' || IsBlank(s[n]))
    ensures ValueEnd(s, i) == n
    decreases n - i
  {
    if i < n { DigitsTaken(s, i + 1, n); }
  }

  /** Blanks around the digits do not matter, and what follows the line does not either. */
  lemma {:induction false} ValueReads(blanks: string, digits: string, trail: string, more: string, rest: string)
    requires AllBlank(blanks) && digits != "" && AllDigits(digits) && AllBlank(trail) && more != "" && more[0] == '\r'
    requires rest == blanks + (digits + (trail + more))
    ensures LengthValue(rest) == Min(Decimal(digits), USIZE_MAX)
  {
    var n, m := |blanks|, |blanks| + |digits|;
    assert forall k :: n <= k < m ==> rest[k] == digits[k - n];
    BlanksSkipped(rest, 0, n);
    DigitsTaken(rest, n, m);
    assert rest[n..m] == digits;
  }

  /** A field that gives the length of a body, whatever the case of its name. */
  predicate IsLengthField(field: string, name: string, blanks: string, trail: string, length: nat) {
    && LowerAll(name) == "content-length" && AllBlank(blanks) && AllBlank(trail)
    && field == name + (":" + (blanks + (DecimalText(length) + trail)))
  }

  lemma {:induction false} NameIsFound(hay: string, name: string, rest: string, needle: string)
    requires hay == name + (":" + rest) && needle == name + ":"
    ensures OccursAt(hay, needle, 0) && hay[|needle|..] == rest
  {
  }

  /** In a spelling that is not the exact one, the exact one is nowhere in the field. */
  lemma {:induction false} OtherSpelling(field: string, name: string, rest: string, needle: string)
    requires field == name + (":" + rest) && ':' !in rest && |needle| == |name| + 1 && needle[|name|] == ':'
    requires needle[..|name|] != name && ':' !in name
    ensures Without(field, needle)
  {
    forall k: nat | k < |field| ensures !OccursAt(field, needle, k) {
      if k == 0 {
        assert field[0..|needle|][..|name|] == name;
      } else {
        Differs(field, needle, k, |name|);
      }
    }
  }

  lemma {:induction false} FieldSplits(fields: seq<string>, i: nat)
    requires i < |fields|
    ensures Lines(fields) + CRLF == Lines(fields[..i]) + (fields[i] + CRLF + (Lines(fields[i + 1..]) + CRLF))
  {
    assert fields == fields[..i] + fields[i..];
    LinesSum(fields[..i], fields[i..]);
    assert fields[i..][1..] == fields[i + 1..];
    assert Lines(fields[i..]) == fields[i] + CRLF + Lines(fields[i + 1..]);
    assert Lines(fields) + CRLF == Lines(fields[..i]) + (Lines(fields[i..]) + CRLF);
  }

  lemma {:induction false} ExactIsFound(fields: seq<string>, i: nat, name: string, rest: string, needle: string)
    requires i < |fields| && fields[i] == name + (":" + rest) && needle == name + ":" && Inline(needle)
    requires forall j :: 0 <= j < i ==> Without(fields[j], needle)
    ensures Find(Lines(fields) + CRLF, needle, 0) == Some(|Lines(fields[..i])|)
  {
    var behind := Lines(fields[i + 1..]) + CRLF;
    var more := fields[i] + CRLF + behind;
    FieldSplits(fields, i);
    assert more == name + (":" + (rest + (CRLF + behind)));
    NameIsFound(more, name, rest + (CRLF + behind), needle);
    FoundBehindLines(fields[..i], more, needle);
  }

  /** What stands behind the colon of a field. */
  lemma {:induction false} BehindColon(fields: seq<string>, i: nat, name: string, rest: string, p: nat)
    requires i < |fields| && fields[i] == name + (":" + rest) && p == |Lines(fields[..i])| + |name| + 1
    ensures var h := Lines(fields) + CRLF;
            p <= |h| && h[p..] == rest + (CRLF + (Lines(fields[i + 1..]) + CRLF))
  {
    var behind := Lines(fields[i + 1..]) + CRLF;
    FieldSplits(fields, i);
    assert fields[i] + CRLF + behind == name + (":" + (rest + (CRLF + behind)));
    SkipThree(Lines(fields[..i]), name, rest + (CRLF + behind));
  }

  lemma SkipThree(a: string, b: string, c: string)
    ensures (a + (b + (":" + c)))[|a| + |b| + 1..] == c
  {
  }

  lemma {:induction false} LoweredHeaders(fields: seq<string>, i: nat)
    requires i < |fields|
    ensures LowerAll(Lines(fields) + CRLF) == Lines(Lowered(fields)) + CRLF
    ensures |Lines(Lowered(fields)[..i])| == |Lines(fields[..i])|
  {
    LowerLines(fields);
    LowerSum(Lines(fields), CRLF);
    assert LowerAll(CRLF) == CRLF && Lowered(fields)[..i] == Lowered(fields[..i]);
    LowerLines(fields[..i]);
  }

  lemma LoweredField(field: string, name: string, rest: string)
    requires field == name + (":" + rest)
    ensures LowerAll(field) == LowerAll(name) + (":" + LowerAll(rest))
  {
    LowerSum(name, ":" + rest);
    LowerSum(":", rest);
    assert LowerAll(":") == ":";
  }

  lemma {:induction false} AnyCaseIsFound(fields: seq<string>, i: nat, name: string, rest: string, lower: string)
    requires i < |fields| && fields[i] == name + (":" + rest) && lower == LowerAll(name) + ":" && Inline(lower)
    requires forall j :: 0 <= j < i ==> WithoutAnyCase(fields[j], lower)
    ensures Find(LowerAll(Lines(fields) + CRLF), lower, 0) == Some(|Lines(fields[..i])|)
  {
    LoweredHeaders(fields, i);
    LoweredField(fields[i], name, rest);
    ExactIsFound(Lowered(fields), i, LowerAll(name), LowerAll(rest), lower);
  }

  lemma {:induction false} LengthFieldRest(blanks: string, trail: string, length: nat, more: string)
    requires AllBlank(blanks) && AllBlank(trail) && more != "" && more[0] == '\r' && length <= USIZE_MAX
    ensures LengthValue(blanks + (DecimalText(length) + trail) + more) == length
  {
    var digits := DecimalText(length);
    DecimalReads(length);
    ValueReads(blanks, digits, trail, more, blanks + (digits + trail) + more);
  }

  lemma {:induction false} OthersWithout(fields: seq<string>, i: nat, exact: string, lower: string)
    requires lower == LowerAll(exact)
    requires forall j :: 0 <= j < |fields| && j != i ==> WithoutAnyCase(fields[j], lower)
    ensures forall j :: 0 <= j < |fields| && j != i ==> Without(fields[j], exact)
  {
    forall j | 0 <= j < |fields| && j != i ensures Without(fields[j], exact) {
      AnyCaseIsWeaker(fields[j], exact, lower);
    }
  }

  /** Where the value begins: behind the name and its colon. */
  ghost predicate LengthAt(headers: string, start: nat) {
    start <= |headers| && ContentLength(headers) == LengthValue(headers[start..])
  }

  lemma {:induction false} ExactLengthAt(fields: seq<string>, i: nat, name: string, rest: string, exact: string)
    requires i < |fields| && fields[i] == name + (":" + rest) && exact == CONTENT_LENGTH == name + ":" && Inline(exact)
    requires forall j :: 0 <= j < |fields| && j != i ==> Without(fields[j], exact)
    ensures LengthAt(Lines(fields) + CRLF, |Lines(fields[..i])| + |exact|)
  {
    ExactIsFound(fields, i, name, rest, exact);
  }

  lemma {:induction false} OtherLengthAt(fields: seq<string>, i: nat, name: string, rest: string, exact: string,
                                         lower: string)
    requires i < |fields| && fields[i] == name + (":" + rest) && ':' !in name && ':' !in rest
    requires exact == CONTENT_LENGTH && lower == CONTENT_LENGTH_LOWER == LowerAll(name) + ":" && name + ":" != exact
    requires |exact| == |lower| == |name| + 1 && exact[|name|] == ':' && Inline(exact) && Inline(lower)
    requires forall j :: 0 <= j < |fields| && j != i ==> WithoutAnyCase(fields[j], lower) && Without(fields[j], exact)
    ensures LengthAt(Lines(fields) + CRLF, |Lines(fields[..i])| + |lower|)
  {
    assert exact[..|name|] + ":" == exact;
    OtherSpelling(fields[i], name, rest, exact);
    NotFoundInLines(fields, exact);
    AnyCaseIsFound(fields, i, name, rest, lower);
  }

  /** The length is read from its field, in any spelling, if no other field mentions one. */
  lemma {:induction false} LengthIsRead(fields: seq<string>, i: nat, name: string, blanks: string, trail: string,
                                        length: nat, exact: string, lower: string)
    requires i < |fields| && IsLengthField(fields[i], name, blanks, trail, length) && length <= USIZE_MAX
    requires forall j :: 0 <= j < |fields| && j != i ==> WithoutAnyCase(fields[j], lower)
    requires exact == CONTENT_LENGTH && lower == CONTENT_LENGTH_LOWER
    ensures ContentLength(Lines(fields) + CRLF) == length
  {
    var rest := blanks + (DecimalText(length) + trail);
    SpellingsAgree(exact, lower);
    assert |name| == |LowerAll(name)| == 14;
    NoColons(name, blanks, length, trail);
    OthersWithout(fields, i, exact, lower);
    if name + ":" == exact {
      ExactLengthAt(fields, i, name, rest, exact);
    } else {
      OtherLengthAt(fields, i, name, rest, exact, lower);
    }
    LengthFieldRest(blanks, trail, length, CRLF + (Lines(fields[i + 1..]) + CRLF));
    BehindColon(fields, i, name, rest, |Lines(fields[..i])| + 15);
  }

  lemma SpellingsAgree(exact: string, lower: string)
    requires exact == CONTENT_LENGTH && lower == CONTENT_LENGTH_LOWER
    ensures LowerAll(exact) == lower && Inline(exact) && Inline(lower) && |exact| == |lower| == 15
    ensures exact[14] == ':' && lower == "content-length" + ":"
  {
  }

  lemma {:induction false} NoColons(name: string, blanks: string, length: nat, trail: string)
    requires LowerAll(name) == "content-length" && AllBlank(blanks) && AllBlank(trail)
    ensures ':' !in name && ':' !in blanks + (DecimalText(length) + trail)
  {
    DecimalReads(length);
    forall k | 0 <= k < |name| ensures name[k] != ':' { assert LowerAll(name)[k] == Lower(name[k]); }
  }

  lemma {:induction false} NoLengthIsRead(fields: seq<string>, exact: string, lower: string)
    requires forall j :: 0 <= j < |fields| ==> WithoutAnyCase(fields[j], lower)
    requires exact == CONTENT_LENGTH && lower == CONTENT_LENGTH_LOWER
    ensures ContentLength(Lines(fields) + CRLF) == 0
  {
    SpellingsAgree(exact, lower);
    forall j | 0 <= j < |fields| ensures Without(fields[j], exact) { AnyCaseIsWeaker(fields[j], exact, lower); }
    NotFoundInLines(fields, exact);
    LowerLines(fields);
    LowerSum(Lines(fields), CRLF);
    assert LowerAll(CRLF) == CRLF;
    NotFoundInLines(Lowered(fields), lower);
  }

  // ----- whole requests -----

  /** The first line of a request. */
  function RequestLine(verb: string, path: string, version: string): string { verb + (" " + (path + (" " + version))) }

  /** Where the parts of the first line are. */
  lemma LineParts(buf: string, verb: string, path: string, version: string, more: string, n: nat, m: nat, end: nat)
    requires buf == RequestLine(verb, path, version) + ("\r" + more)
    requires n == |verb| && m == n + 1 + |path| && end == m + 1 + |version|
    ensures end < |buf| && buf[..n] == verb && buf[n] == ' ' && buf[n + 1..m] == path && buf[m] == ' '
    ensures buf[end] == '\r' && buf[m + 1..end] == version
  {
    var l := RequestLine(verb, path, version);
    Within(l, "\r" + more, 0, n);
    Within(l, "\r" + more, n + 1, m);
    Within(l, "\r" + more, m + 1, end);
    assert l[..n] == verb && l[n + 1..] == path + (" " + version);
    Within(path, " " + version, 0, |path|);
    assert l[n + 1..][..|path|] == l[n + 1..m] && l[m + 1..] == version;
  }

  lemma Within<T>(a: seq<T>, b: seq<T>, i: nat, j: nat)
    requires i <= j <= |a|
    ensures (a + b)[i..j] == a[i..j]
  {
  }

  lemma NoReturn(buf: string, verb: string, path: string, version: string, n: nat, m: nat, end: nat)
    requires n < m < end < |buf| && buf[..n] == verb && buf[n] == ' ' && buf[n + 1..m] == path && buf[m] == ' '
    requires buf[m + 1..end] == version && Inline(verb) && Inline(path) && Inline(version)
    ensures '\r' !in buf[..end]
  {
    forall k | 0 <= k < end ensures buf[k] != '\r' {
      if k < n { assert buf[k] == verb[k]; }
      if n < k < m { assert buf[k] == path[k - n - 1]; }
      if m < k { assert buf[k] == version[k - m - 1]; }
    }
  }

  lemma {:induction false} LineIsRead(buf: string, verb: Verb, path: string, version: string, more: string)
    requires buf == RequestLine(VerbText(verb), path, version) + ("\r" + more)
    requires path != "" && ' ' !in path && Inline(path) && Inline(version)
    ensures var n, m := |VerbText(verb)|, |VerbText(verb)| + 1 + |path|;
            && FirstLine(buf) == Some(Line(verb, n + 1, m, m + 3 + |version|)) && buf[n + 1..m] == path
  {
    var v, n, m := VerbText(verb), |VerbText(verb)|, |VerbText(verb)| + 1 + |path|;
    var end := m + 1 + |version|;
    LineParts(buf, v, path, version, more, n, m, end);
    NoReturn(buf, v, path, version, n, m, end);
    FirstLineIff(buf, Line(verb, n + 1, m, end + 2));
  }

  /** Which resources there are, and how long a body may be. */
  predicate Served(verb: Verb, path: string, length: nat) {
    (verb == Get && path == "/ready") || (verb == Post && path == "/fraud-score" && length <= 8192)
  }

  /** The predicate below unfolds where this is asked and nowhere else. */
  predicate Asked(x: int) { true }

  ghost predicate IsHead(head: string, verb: Verb, path: string, version: string, fields: seq<string>) {
    forall x :: Asked(x) ==>
      && head == Head(RequestLine(VerbText(verb), path, version), fields)
      && path != "" && ' ' !in path && Inline(path) && Inline(version) && AllInline(fields)
  }

  /** The header of a request, whatever stands behind it: its end, its first line and the rest. */
  ghost predicate HeaderFound(buf: string, end: nat, line: Line, path: string, headers: string) {
    forall x :: Asked(x) ==>
      && 4 <= end <= |buf| && Find(buf, END_OF_HEADERS, 0) == Some(end - 4) && FirstLine(buf) == Some(line)
      && line.pathStart < line.pathEnd <= line.headers <= end && buf[line.pathStart..line.pathEnd] == path
      && buf[line.headers..end] == headers
  }

  lemma {:induction false} HeadIsRead(buf: string, head: string, verb: Verb, path: string, version: string,
                                      fields: seq<string>, headers: string, behind: string) returns (line: Line)
    requires IsHead(head, verb, path, version, fields) && buf == head + behind && headers == Lines(fields) + CRLF
    ensures HeaderFound(buf, |head|, line, path, headers) && line.verb == verb
  {
    EndIsRead(buf, head, verb, path, version, fields, behind);
    line := FirstIsRead(buf, head, verb, path, version, fields, headers, behind);
  }

  lemma {:induction false} EndIsRead(buf: string, head: string, verb: Verb, path: string, version: string,
                                     fields: seq<string>, behind: string)
    requires IsHead(head, verb, path, version, fields) && buf == head + behind
    ensures 4 <= |head| <= |buf| && Find(buf, END_OF_HEADERS, 0) == Some(|head| - 4)
  {
    assert Asked(0);
    var first := RequestLine(VerbText(verb), path, version);
    HeadEnds(first, fields, first + CRLF + Lines(fields), behind);
  }

  lemma {:induction false} FirstIsRead(buf: string, head: string, verb: Verb, path: string, version: string,
                                       fields: seq<string>, headers: string, behind: string) returns (line: Line)
    requires IsHead(head, verb, path, version, fields) && buf == head + behind && headers == Lines(fields) + CRLF
    ensures FirstLine(buf) == Some(line) && line.verb == verb && line.pathStart < line.pathEnd <= line.headers <= |head|
    ensures |head| <= |buf| && buf[line.pathStart..line.pathEnd] == path && buf[line.headers..|head|] == headers
  {
    assert Asked(0);
    var first := RequestLine(VerbText(verb), path, version);
    HeadSplits(buf, head, first, Lines(fields), headers, behind, |first| + 2);
    line := HeadLine(buf, first, verb, path, version, "\n" + headers + behind);
  }

  lemma {:induction false} HeadLine(buf: string, first: string, verb: Verb, path: string, version: string, more: string)
    returns (line: Line)
    requires first == RequestLine(VerbText(verb), path, version) && buf == first + ("\r" + more)
    requires path != "" && ' ' !in path && Inline(path) && Inline(version)
    ensures FirstLine(buf) == Some(line) && line.verb == verb && line.pathStart < line.pathEnd <= line.headers
    ensures line.pathEnd <= |buf| && buf[line.pathStart..line.pathEnd] == path && line.headers == |first| + 2
  {
    LineIsRead(buf, verb, path, version, more);
    line := FirstLine(buf).value;
  }

  lemma HeadSplits(buf: string, head: string, first: string, lines: string, headers: string, behind: string, at: nat)
    requires head == first + CRLF + lines + CRLF && buf == head + behind && at == |first| + 2
    requires headers == lines + CRLF
    ensures buf == first + ("\r" + ("\n" + headers + behind))
    ensures |head| == |first| + 4 + |lines| && buf[at..|head|] == headers
  {
  }

  lemma {:induction false} HeaderAccepted(buf: string, headerEnd: nat, line: Line, path: string, length: nat,
                                          keepAlive: bool)
    requires 4 <= headerEnd <= |buf| && Find(buf, END_OF_HEADERS, 0) == Some(headerEnd - 4)
    requires FirstLine(buf) == Some(line) && line.headers <= headerEnd && buf[line.pathStart..line.pathEnd] == path
    requires length == ContentLength(buf[line.headers..headerEnd]) && Served(line.verb, path, length)
    ensures ParseRequest(buf, keepAlive) == ParseBody(buf, headerEnd, line, length, keepAlive)
  {
    HeaderParses(buf, headerEnd, line, path, length);
    HeaderDecides(buf, headerEnd, line, length, keepAlive);
  }

  lemma {:induction false} HeaderParses(buf: string, headerEnd: nat, line: Line, path: string, length: nat)
    requires headerEnd >= 4 && Find(buf, END_OF_HEADERS, 0) == Some(headerEnd - 4) && FirstLine(buf) == Some(line)
    requires line.headers <= headerEnd && length == ContentLength(buf[line.headers..headerEnd])
    requires buf[line.pathStart..line.pathEnd] == path && Served(line.verb, path, length)
    ensures ParseHeaders(buf, headerEnd) == Ok((line, length))
  {
  }

  lemma {:induction false} HeaderDecides(buf: string, headerEnd: nat, line: Line, length: nat, keepAlive: bool)
    requires 4 <= headerEnd <= |buf| && Find(buf, END_OF_HEADERS, 0) == Some(headerEnd - 4)
    requires ParseHeaders(buf, headerEnd) == Ok((line, length))
    ensures ParseRequest(buf, keepAlive) == ParseBody(buf, headerEnd, line, length, keepAlive)
  {
    DecidedByHeader(buf, headerEnd, Ok((line, length)), keepAlive);
  }

  lemma {:induction false} DecidedByHeader(buf: string, headerEnd: nat, parsed: Result<(Line, nat)>, keepAlive: bool)
    requires 4 <= headerEnd <= |buf| && Find(buf, END_OF_HEADERS, 0) == Some(headerEnd - 4)
    requires parsed == ParseHeaders(buf, headerEnd)
    ensures ParseRequest(buf, keepAlive) == Decide(buf, headerEnd, parsed, keepAlive)
  {
  }

  /** The phrase stands somewhere in the header, in any mixture of cases. */
  ghost predicate AsksToClose(head: string) {
    exists p: nat :: OccursAt(LowerAll(head), "connection: close", p)
  }

  lemma {:induction false} CloseIff(head: string, phrase: string)
    requires phrase == CONNECTION_CLOSE
    ensures CloseRequested(head) <==> AsksToClose(head)
  {
    FindIff(LowerAll(head), phrase, 0);
    if CloseRequested(head) {
      assert OccursAt(LowerAll(head), phrase, Find(LowerAll(head), phrase, 0).value);
    }
    if AsksToClose(head) {
      var p: nat :| OccursAt(LowerAll(head), "connection: close", p);
      assert OccursAt(LowerAll(head), phrase, p);
    }
  }

  lemma {:induction false} BodyIsRead(buf: string, head: string, line: Line, path: string, body: string, behind: string,
                                      keepAlive: bool)
    requires buf == head + (body + behind) && 4 <= |head| && line.pathStart < line.pathEnd <= |head|
    requires buf[line.pathStart..line.pathEnd] == path
    ensures ParseBody(buf, |head|, line, |body|, keepAlive)
            == Complete(Request(line.verb, path, body, keepAlive || !AsksToClose(head)), |head| + |body|)
  {
    assert buf[..|head|] == head && buf[|head|..|head| + |body|] == body;
    CloseIff(head, CONNECTION_CLOSE);
  }

  /** Any request for a resource that is there is read as it is, up to the end of its body. */
  lemma {:induction false} RequestIsRead(buf: string, head: string, verb: Verb, path: string, version: string,
                                         fields: seq<string>, headers: string, body: string, behind: string,
                                         rest: string, keepAlive: bool)
    requires IsHead(head, verb, path, version, fields) && buf == head + rest && rest == body + behind
    requires headers == Lines(fields) + CRLF && ContentLength(headers) == |body| && Served(verb, path, |body|)
    ensures ParseRequest(buf, keepAlive)
            == Complete(Request(verb, path, body, keepAlive || !AsksToClose(head)), |head| + |body|)
  {
    var line := HeadIsRead(buf, head, verb, path, version, fields, headers, rest);
    HeadDecides(buf, head, |head|, line, path, headers, body, behind, rest, keepAlive);
  }

  lemma {:induction false} HeadDecides(buf: string, head: string, end: nat, line: Line, path: string, headers: string,
                                       body: string, behind: string, rest: string, keepAlive: bool)
    requires buf == head + rest && rest == body + behind && |head| == end
    requires HeaderFound(buf, end, line, path, headers)
    requires ContentLength(headers) == |body| && Served(line.verb, path, |body|)
    ensures ParseRequest(buf, keepAlive)
            == Complete(Request(line.verb, path, body, keepAlive || !AsksToClose(head)), end + |body|)
  {
    assert Asked(0);
    HeaderAccepted(buf, end, line, path, |body|, keepAlive);
    BodyIsRead(buf, head, line, path, body, behind, keepAlive);
  }

  /** A query of at most 8192 bytes is handed on with its body, whatever its other header fields,
      the spelling and the place of the length field, and the bytes behind it. */
  lemma {:induction false} QueryIsRead(head: string, version: string, fields: seq<string>, i: nat, name: string,
                                       blanks: string, trail: string, body: string, behind: string, keepAlive: bool)
    requires head == "POST /fraud-score " + version + "\r\n" + Lines(fields) + "\r\n"
    requires Inline(version) && AllInline(fields) && |body| <= 8192
    requires i < |fields| && IsLengthField(fields[i], name, blanks, trail, |body|)
    requires forall j :: 0 <= j < |fields| && j != i ==> WithoutAnyCase(fields[j], "content-length:")
    ensures ParseRequest(head + (body + behind), keepAlive)
            == Complete(Request(Post, "/fraud-score", body, keepAlive || !AsksToClose(head)), |head| + |body|)
  {
    LengthIsRead(fields, i, name, blanks, trail, |body|, CONTENT_LENGTH, CONTENT_LENGTH_LOWER);
    QueryHead(head, "/fraud-score", version, fields);
    RequestIsRead(head + (body + behind), head, Post, "/fraud-score", version, fields, Lines(fields) + CRLF, body,
                  behind, body + behind, keepAlive);
  }

  lemma {:induction false} QueryHead(head: string, path: string, version: string, fields: seq<string>)
    requires path == "/fraud-score" && head == "POST /fraud-score " + version + "\r\n" + Lines(fields) + "\r\n"
    requires Inline(version) && AllInline(fields)
    ensures IsHead(head, Post, path, version, fields)
  {
    assert "POST /fraud-score " == "POST" + (" " + (path + " "));
    assert "POST" + (" " + (path + " ")) + version == RequestLine("POST", path, version);
  }

  /** A readiness request without a body. */
  lemma {:induction false} ReadyIsRead(head: string, version: string, fields: seq<string>, behind: string,
                                       keepAlive: bool)
    requires head == "GET /ready " + version + "\r\n" + Lines(fields) + "\r\n"
    requires Inline(version) && AllInline(fields)
    requires forall j :: 0 <= j < |fields| ==> WithoutAnyCase(fields[j], "content-length:")
    ensures ParseRequest(head + behind, keepAlive)
            == Complete(Request(Get, "/ready", "", keepAlive || !AsksToClose(head)), |head|)
  {
    NoLengthIsRead(fields, CONTENT_LENGTH, CONTENT_LENGTH_LOWER);
    ReadyHead(head, "/ready", version, fields);
    assert "" + behind == behind;
    RequestIsRead(head + behind, head, Get, "/ready", version, fields, Lines(fields) + CRLF, "", behind, behind,
                  keepAlive);
  }

  lemma {:induction false} ReadyHead(head: string, path: string, version: string, fields: seq<string>)
    requires path == "/ready" && head == "GET /ready " + version + "\r\n" + Lines(fields) + "\r\n"
    requires Inline(version) && AllInline(fields)
    ensures IsHead(head, Get, path, version, fields)
  {
    assert "GET /ready " == "GET" + (" " + (path + " "));
    assert "GET" + (" " + (path + " ")) + version == RequestLine("GET", path, version);
  }

  // ----- what is rejected -----

  /** A buffer without the end of a header waits for more, whatever is in it. */
  lemma {:induction false} WithoutHeadWaits(buf: string, keepAlive: bool, needle: string)
    requires needle == "\r\n\r\n" && forall p: nat :: p < |buf| ==> !OccursAt(buf, needle, p)
    ensures ParseRequest(buf, keepAlive) == NeedMore
  {
    NotFound(buf, needle);
  }

  /** Every text whose header is there is a request, waits for its body, or is rejected: for a
      first line of another form, for a resource that is not there, for a body that is too long. */
  lemma {:induction false} RejectedIff(buf: string, end: nat, line: Line, keepAlive: bool)
    requires end >= 4 && Find(buf, END_OF_HEADERS, 0) == Some(end - 4)
    ensures (forall any :: !IsLine(buf, any)) ==> ParseRequest(buf, keepAlive) == Reject(RESPONSE_BAD_REQUEST)
    ensures IsLine(buf, line) && line.headers <= end ==>
              var path, length := buf[line.pathStart..line.pathEnd], ContentLength(buf[line.headers..end]);
              var r := ParseRequest(buf, keepAlive);
              if Served(line.verb, path, length) then
                if |buf| < end + length then r == NeedMore else r.Complete? && r.consumed == end + length
              else if line.verb == Post && path == "/fraud-score" then r == Reject(RESPONSE_BAD_REQUEST)
              else r == Reject(RESPONSE_NOT_FOUND)
  {
    FirstLineIff(buf, line);
    if FirstLine(buf).Some? {
      FirstLineIff(buf, FirstLine(buf).value);
      if IsLine(buf, line) && line.headers <= end { LineDecides(buf, end, line, keepAlive); }
    }
  }

  lemma {:induction false} LineDecides(buf: string, end: nat, line: Line, keepAlive: bool)
    requires end >= 4 && Find(buf, END_OF_HEADERS, 0) == Some(end - 4) && FirstLine(buf) == Some(line)
    requires line.headers <= end
    ensures var path, length := buf[line.pathStart..line.pathEnd], ContentLength(buf[line.headers..end]);
            var r := ParseRequest(buf, keepAlive);
            if Served(line.verb, path, length) then
              if |buf| < end + length then r == NeedMore else r.Complete? && r.consumed == end + length
            else if line.verb == Post && path == "/fraud-score" then r == Reject(RESPONSE_BAD_REQUEST)
            else r == Reject(RESPONSE_NOT_FOUND)
  {
    var path, length := buf[line.pathStart..line.pathEnd], ContentLength(buf[line.headers..end]);
    if Served(line.verb, path, length) {
      HeaderAccepted(buf, end, line, path, length, keepAlive);
    } else {
      HeaderRefused(buf, end, line, path, length, keepAlive);
    }
  }

  lemma {:induction false} HeaderRefused(buf: string, end: nat, line: Line, path: string, length: nat, keepAlive: bool)
    requires end >= 4 && Find(buf, END_OF_HEADERS, 0) == Some(end - 4) && FirstLine(buf) == Some(line)
    requires line.headers <= end && length == ContentLength(buf[line.headers..end])
    requires buf[line.pathStart..line.pathEnd] == path && !Served(line.verb, path, length)
    ensures ParseRequest(buf, keepAlive) == Reject(if line.verb == Post && path == "/fraud-score"
                                                   then RESPONSE_BAD_REQUEST else RESPONSE_NOT_FOUND)
  {
    var response := if line.verb == Post && path == "/fraud-score" then RESPONSE_BAD_REQUEST else RESPONSE_NOT_FOUND;
    RefusedParses(buf, end, line, path, length, response);
    DecidedByHeader(buf, end, Err(response), keepAlive);
  }

  lemma {:induction false} RefusedParses(buf: string, end: nat, line: Line, path: string, length: nat, response: string)
    requires end >= 4 && Find(buf, END_OF_HEADERS, 0) == Some(end - 4) && FirstLine(buf) == Some(line)
    requires line.headers <= end && length == ContentLength(buf[line.headers..end])
    requires buf[line.pathStart..line.pathEnd] == path && !Served(line.verb, path, length)
    requires response == if line.verb == Post && path == "/fraud-score" then RESPONSE_BAD_REQUEST
                         else RESPONSE_NOT_FOUND
    ensures ParseHeaders(buf, end) == Err(response)
  {
  }
}
