/**
 * Skipping one JSON value: a scanner that only counts one kind of bracket, and the text of
 * every well-formed value, which it skips exactly.
 */
module JsonScan {
  import opened Base

  // ----- the scanner, as functions -----

  predicate IsWs(c: char) { c == ' ' || c == '\n' || c == '\r' || c == '\t' }

  function SkipWs(json: string, i: nat): (j: nat)
    ensures i <= j && (i <= |json| ==> j <= |json|)
    decreases |json| - i
  {
    if i < |json| && IsWs(json[i]) then SkipWs(json, i + 1) else i
  }

  /** From inside a string: the position behind the closing quote. */
  function StringEnd(json: string, j: nat, escaped: bool): (r: Option<nat>)
    ensures r.Some? ==> j < r.value <= |json|
    decreases |json| - j
  {
    if j >= |json| then None
    else if escaped then StringEnd(json, j + 1, false)
    else if json[j] == '\\' then StringEnd(json, j + 1, true)
    else if json[j] == '"' then Some(j + 1)
    else StringEnd(json, j + 1, false)
  }

  function SkipString(json: string, i: nat): (r: Option<nat>)
    ensures r.Some? ==> i < r.value <= |json|
  {
    if i < |json| && json[i] == '"' then StringEnd(json, i + 1, false) else None
  }

  function SkipDigits(json: string, j: nat): (r: nat)
    ensures j <= r && (j <= |json| ==> r <= |json|)
    decreases |json| - j
  {
    if j < |json| && IsDigit(json[j]) then SkipDigits(json, j + 1) else j
  }

  function SkipSign(json: string, j: nat): (r: nat)
    ensures j <= r && (j <= |json| ==> r <= |json|)
  {
    if j < |json| && (json[j] == '-' || json[j] == '+') then j + 1 else j
  }

  /** Digits, one dot, and an exponent once there was a digit. */
  function Mantissa(json: string, j: nat, seenDot: bool, seenDigit: bool): (r: Option<nat>)
    ensures r.Some? ==> j <= r.value && (j <= |json| ==> r.value <= |json|)
    decreases |json| - j
  {
    var stop := if seenDigit then Some(j) else None;
    if j >= |json| then stop
    else if IsDigit(json[j]) then Mantissa(json, j + 1, seenDot, true)
    else if json[j] == '.' && !seenDot then Mantissa(json, j + 1, true, seenDigit)
    else if (json[j] == 'e' || json[j] == 'E') && seenDigit then Some(SkipDigits(json, SkipSign(json, j + 1)))
    else stop
  }

  function SkipNumber(json: string, i: nat): (r: Option<nat>)
    ensures r.Some? ==> i <= r.value && (i <= |json| ==> r.value <= |json|)
  {
    Mantissa(json, SkipSign(json, i), false, false)
  }

  predicate At(json: string, i: nat, s: string) { i + |s| <= |json| && json[i..i + |s|] == s }

  function SkipLiteral(json: string, i: nat, word: string): (r: Option<nat>)
    ensures r.Some? ==> i <= r.value <= |json|
  {
    if At(json, i, word) then Some(i + |word|) else None
  }

  /** The bracket counter: strings are skipped, the other kind of bracket is not looked at. */
  function Nested(json: string, j: nat, depth: nat, open: char, close: char): (r: Option<nat>)
    ensures r.Some? ==> j <= r.value && (j <= |json| ==> r.value <= |json|)
    decreases |json| - j
  {
    if depth == 0 then Some(j)
    else if j >= |json| then None
    else if json[j] == '"' then
      match SkipString(json, j)
      case None => None
      case Some(k) => Nested(json, k, depth, open, close)
    else if json[j] == open then Nested(json, j + 1, depth + 1, open, close)
    else if json[j] == close then Nested(json, j + 1, depth - 1, open, close)
    else Nested(json, j + 1, depth, open, close)
  }

  function SkipAt(json: string, i: nat): (r: Option<nat>)
    ensures r.Some? ==> i <= r.value <= |json|
  {
    if i >= |json| then None
    else if json[i] == '"' then SkipString(json, i)
    else if json[i] == '-' || json[i] == '+' || IsDigit(json[i]) then SkipNumber(json, i)
    else if json[i] == 't' then SkipLiteral(json, i, "true")
    else if json[i] == 'f' then SkipLiteral(json, i, "false")
    else if json[i] == 'n' then SkipLiteral(json, i, "null")
    else if json[i] == '{' then Nested(json, i + 1, 1, '{', '}')
    else if json[i] == '[' then Nested(json, i + 1, 1, '[', ']')
    else None
  }

  function SkipValue(json: string, i: nat): Option<nat> { SkipAt(json, SkipWs(json, i)) }

  // ----- the scanner, as loops -----

  method ScanWs(json: string, start: nat) returns (i: nat)
    ensures i == SkipWs(json, start)
  {
    i := start;
    while i < |json| && IsWs(json[i])
      invariant start <= i && SkipWs(json, start) == SkipWs(json, i)
    {
      i := i + 1;
    }
  }

  method ScanString(json: string, i: nat) returns (r: Option<nat>)
    ensures r == SkipString(json, i)
  {
    if i >= |json| || json[i] != '"' { return None; }
    var escaped, j := false, i + 1;
    while j < |json|
      invariant i < j <= |json| && SkipString(json, i) == StringEnd(json, j, escaped)
    {
      var b := json[j];
      if escaped {
        escaped, j := false, j + 1;
        continue;
      }
      if b == '\\' {
        escaped, j := true, j + 1;
        continue;
      }
      if b == '"' { return Some(j + 1); }
      j := j + 1;
    }
    r := None;
  }

  method ScanNumber(json: string, i: nat) returns (r: Option<nat>)
    ensures r == SkipNumber(json, i)
  {
    var j := i;
    if j < |json| && (json[j] == '-' || json[j] == '+') { j := j + 1; }
    var seenDot, seenDigit := false, false;
    while j < |json|
      invariant SkipNumber(json, i) == Mantissa(json, j, seenDot, seenDigit)
    {
      var b := json[j];
      if IsDigit(b) {
        seenDigit, j := true, j + 1;
      } else if b == '.' && !seenDot {
        seenDot, j := true, j + 1;
      } else if (b == 'e' || b == 'E') && seenDigit {
        j := j + 1;
        if j < |json| && (json[j] == '-' || json[j] == '+') { j := j + 1; }
        ghost var digits := j;
        while j < |json| && IsDigit(json[j])
          invariant digits <= j && SkipDigits(json, digits) == SkipDigits(json, j)
        {
          j := j + 1;
        }
        return Some(j);
      } else {
        break;
      }
    }
    r := if !seenDigit then None else Some(j);
  }

  method ScanNested(json: string, start: nat, open: char, close: char) returns (r: Option<nat>)
    requires open != '"' && close != '"' && open != close && start <= |json|
    ensures r == Nested(json, start, 1, open, close)
  {
    var depth, j := 1, start;
    while j < |json| && depth > 0
      invariant start <= j <= |json| && 0 <= depth
      invariant Nested(json, start, 1, open, close) == Nested(json, j, depth, open, close)
      decreases |json| - j
    {
      if json[j] == '"' {
        var k := ScanString(json, j);
        if k.None? { return None; }
        j := k.value;
      } else if json[j] == open {
        depth, j := depth + 1, j + 1;
      } else if json[j] == close {
        depth, j := depth - 1, j + 1;
      } else {
        j := j + 1;
      }
    }
    r := if depth == 0 then Some(j) else None;
  }

  /** `skip_value`. */
  method ScanValue(json: string, start: nat) returns (r: Option<nat>)
    ensures r == SkipValue(json, start)
  {
    var i := ScanWs(json, start);
    if i >= |json| { return None; }
    var b := json[i];
    if b == '"' {
      r := ScanString(json, i);
    } else if b == '-' || b == '+' || IsDigit(b) {
      r := ScanNumber(json, i);
    } else if b == 't' {
      r := SkipLiteral(json, i, "true");
    } else if b == 'f' {
      r := SkipLiteral(json, i, "false");
    } else if b == 'n' {
      r := SkipLiteral(json, i, "null");
    } else if b == '{' {
      r := ScanNested(json, i + 1, '{', '}');
    } else if b == '[' {
      r := ScanNested(json, i + 1, '[', ']');
    } else {
      r := None;
    }
  }

  // ----- the text of JSON values (sections 4 to 7 of RFC 8259), with optional commas in objects -----

  datatype StrChar = Plain(c: char) | Escape(c: char) | Unicode(hex: string)

  datatype Exponent = Exponent(letter: char, sign: string, digits: string)

  datatype Value =
    | Quoted(body: seq<StrChar>)
    | Number(negative: bool, whole: string, fraction: Option<string>, exponent: Option<Exponent>)
    | Word(word: string)
    | Object(gap: string, members: Members)
    | Array(gap: string, items: Items)

  /** The gaps are insignificant whitespace. The comma behind a member, with the gap behind it, may
      be missing, and there may be one behind the last member. */
  datatype Members =
    | NoMembers
    | Member(key: seq<StrChar>, beforeColon: string, afterColon: string, value: Value, after: string,
             comma: Option<string>, more: Members)

  datatype Items = NoItems | Item(value: Value, after: string, nextGap: string, more: Items)

  predicate AllWs(s: string) { forall i :: 0 <= i < |s| ==> IsWs(s[i]) }

  predicate IsHex(c: char) { IsDigit(c) || 'a' <= c <= 'f' || 'A' <= c <= 'F' }

  predicate CharOk(c: StrChar) {
    match c
    case Plain(x) => x >= ' ' && x != '"' && x != '\\'
    case Escape(x) => x in "\"\\/bfnrt"
    case Unicode(hex) => |hex| == 4 && forall i :: 0 <= i < 4 ==> IsHex(hex[i])
  }

  predicate BodyOk(s: seq<StrChar>) { forall i :: 0 <= i < |s| ==> CharOk(s[i]) }

  predicate ExponentOk(e: Exponent) {
    (e.letter == 'e' || e.letter == 'E') && (e.sign == "" || e.sign == "-" || e.sign == "+") && e.digits != ""
      && AllDigits(e.digits)
  }

  predicate NumberOk(v: Value)
    requires v.Number?
  {
    && v.whole != "" && AllDigits(v.whole) && (v.whole[0] == '0' ==> |v.whole| == 1)
    && (v.fraction.Some? ==> v.fraction.value != "" && AllDigits(v.fraction.value))
    && (v.exponent.Some? ==> ExponentOk(v.exponent.value))
  }

  predicate ValueOk(v: Value) {
    match v
    case Quoted(body) => BodyOk(body)
    case Number(_, _, _, _) => NumberOk(v)
    case Word(word) => word == "true" || word == "false" || word == "null"
    case Object(gap, members) => AllWs(gap) && MembersOk(members)
    case Array(gap, items) => AllWs(gap) && ItemsOk(items)
  }

  predicate MembersOk(ms: Members) {
    match ms
    case NoMembers => true
    case Member(key, beforeColon, afterColon, value, after, comma, more) =>
      && BodyOk(key) && AllWs(beforeColon) && AllWs(afterColon) && AllWs(after) && ValueOk(value) && MembersOk(more)
      && (comma.Some? ==> AllWs(comma.value))
  }

  predicate ItemsOk(xs: Items) {
    match xs
    case NoItems => true
    case Item(value, after, nextGap, more) => AllWs(after) && AllWs(nextGap) && ValueOk(value) && ItemsOk(more)
  }

  function CharText(c: StrChar): string {
    match c
    case Plain(x) => [x]
    case Escape(x) => ['\\', x]
    case Unicode(hex) => "\\u" + hex
  }

  function BodyText(s: seq<StrChar>): string { if s == [] then "" else CharText(s[0]) + BodyText(s[1..]) }

  function QuotedText(s: seq<StrChar>): string { "\"" + BodyText(s) + "\"" }

  function NumberText(v: Value): string
    requires v.Number?
  {
    (if v.negative then "-" else "") + v.whole
    + (if v.fraction.Some? then "." + v.fraction.value else "")
    + (if v.exponent.Some? then [v.exponent.value.letter] + v.exponent.value.sign + v.exponent.value.digits else "")
  }

  function Text(v: Value): string {
    match v
    case Quoted(body) => QuotedText(body)
    case Number(_, _, _, _) => NumberText(v)
    case Word(word) => word
    case Object(gap, members) => "{" + gap + MembersText(members) + "}"
    case Array(gap, items) => "[" + gap + ItemsText(items) + "]"
  }

  function MembersText(ms: Members): string {
    match ms
    case NoMembers => ""
    case Member(key, beforeColon, afterColon, value, after, comma, more) =>
      QuotedText(key) + (beforeColon + ":" + afterColon) + Text(value)
      + (after + (if comma.Some? then "," + comma.value else "")) + MembersText(more)
  }

  function ItemsText(xs: Items): string {
    match xs
    case NoItems => ""
    case Item(value, after, nextGap, more) =>
      Text(value) + (after + (if more.NoItems? then "" else "," + nextGap)) + ItemsText(more)
  }

  // ----- pieces of the text -----

  lemma AtSum(json: string, i: nat, a: string, b: string)
    requires At(json, i, a + b)
    ensures At(json, i, a) && At(json, i + |a|, b)
  {
    assert json[i..i + |a + b|][..|a|] == json[i..i + |a|];
    assert json[i..i + |a + b|][|a|..] == json[i + |a|..i + |a| + |b|];
  }

  lemma FirstAt(json: string, i: nat, s: string)
    requires At(json, i, s) && s != ""
    ensures json[i] == s[0]
  {
    assert json[i..i + |s|][0] == json[i];
  }

  // ----- strings -----

  lemma CharSkips(json: string, i: nat, c: StrChar)
    requires At(json, i, CharText(c)) && CharOk(c)
    ensures StringEnd(json, i, false) == StringEnd(json, i + |CharText(c)|, false)
  {
    FirstAt(json, i, CharText(c));
    match c
    case Plain(_) =>
    case Escape(_) =>
    case Unicode(hex) =>
      AtSum(json, i, "\\u", hex);
      assert forall k :: 0 <= k < 4 ==> json[i + 2..i + 6][k] == json[i + 2 + k] == hex[k];
      assert json[i + 2] == hex[0] && json[i + 3] == hex[1] && json[i + 4] == hex[2] && json[i + 5] == hex[3];
      assert StringEnd(json, i + 2, false) == StringEnd(json, i + 4, false) == StringEnd(json, i + 6, false);
  }

  lemma FirstCharSkips(json: string, i: nat, c: StrChar, first: string, more: string)
    requires At(json, i, first + more) && first == CharText(c) && CharOk(c)
    ensures At(json, i + |first|, more) && StringEnd(json, i, false) == StringEnd(json, i + |first|, false)
  {
    AtSum(json, i, first, more);
    CharSkips(json, i, c);
  }

  lemma {:induction false} BodySkips(json: string, i: nat, body: seq<StrChar>)
    requires At(json, i, BodyText(body)) && BodyOk(body)
    ensures StringEnd(json, i, false) == StringEnd(json, i + |BodyText(body)|, false)
    decreases |body|
  {
    if body != [] {
      assert BodyText(body) == CharText(body[0]) + BodyText(body[1..]) && CharOk(body[0]);
      FirstCharSkips(json, i, body[0], CharText(body[0]), BodyText(body[1..]));
      BodySkips(json, i + |CharText(body[0])|, body[1..]);
    }
  }

  /** A string is skipped to its own closing quote, whatever it escapes. */
  lemma {:induction false} StringLands(json: string, i: nat, body: seq<StrChar>)
    requires At(json, i, QuotedText(body)) && BodyOk(body)
    ensures SkipString(json, i) == Some(i + |QuotedText(body)|) && json[i] == '"'
  {
    var text := BodyText(body);
    QuotesAt(json, i, text);
    BodySkips(json, i + 1, body);
  }

  lemma QuotesAt(json: string, i: nat, text: string)
    requires At(json, i, "\"" + text + "\"")
    ensures json[i] == '"' && At(json, i + 1, text) && i + 1 + |text| < |json| && json[i + 1 + |text|] == '"'
  {
    AtSum(json, i, "\"" + text, "\"");
    AtSum(json, i, "\"", text);
    FirstAt(json, i, "\"");
    FirstAt(json, i + 1 + |text|, "\"");
  }

  // ----- numbers -----

  /** What may follow a value in a document. */
  predicate Delimited(json: string, end: nat) {
    end >= |json| || json[end] in ",\"}]" || IsWs(json[end])
  }

  lemma {:induction false} DigitsPass(json: string, j: nat, ds: string, seenDot: bool, seenDigit: bool)
    requires At(json, j, ds) && AllDigits(ds)
    ensures Mantissa(json, j, seenDot, seenDigit) == Mantissa(json, j + |ds|, seenDot, seenDigit || ds != "")
    decreases |ds|
  {
    if ds != "" {
      FirstAt(json, j, ds);
      assert ds == [ds[0]] + ds[1..];
      AtSum(json, j, [ds[0]], ds[1..]);
      DigitsPass(json, j + 1, ds[1..], seenDot, true);
    }
  }

  lemma {:induction false} DigitsEnd(json: string, j: nat, ds: string)
    requires At(json, j, ds) && AllDigits(ds) && (j + |ds| < |json| ==> !IsDigit(json[j + |ds|]))
    ensures SkipDigits(json, j) == j + |ds|
    decreases |ds|
  {
    if ds != "" {
      FirstAt(json, j, ds);
      assert ds == [ds[0]] + ds[1..];
      AtSum(json, j, [ds[0]], ds[1..]);
      DigitsEnd(json, j + 1, ds[1..]);
    }
  }

  function FractionText(v: Value): string
    requires v.Number?
  {
    if v.fraction.Some? then "." + v.fraction.value else ""
  }

  function ExponentText(v: Value): string
    requires v.Number?
  {
    if v.exponent.Some? then [v.exponent.value.letter] + v.exponent.value.sign + v.exponent.value.digits else ""
  }

  lemma {:induction false} ExponentLands(json: string, j: nat, v: Value, seenDot: bool)
    requires v.Number? && NumberOk(v) && At(json, j, ExponentText(v)) && Delimited(json, j + |ExponentText(v)|)
    ensures Mantissa(json, j, seenDot, true) == Some(j + |ExponentText(v)|)
  {
    if v.exponent.Some? {
      var e := v.exponent.value;
      AtSum(json, j, [e.letter] + e.sign, e.digits);
      AtSum(json, j, [e.letter], e.sign);
      FirstAt(json, j, [e.letter]);
      var k := j + 1 + |e.sign|;
      FirstAt(json, k, e.digits);
      if e.sign != "" { FirstAt(json, j + 1, e.sign); }
      assert SkipSign(json, j + 1) == k;
      DigitsEnd(json, k, e.digits);
    }
  }

  lemma {:induction false} FractionPasses(json: string, j: nat, v: Value)
    requires v.Number? && NumberOk(v) && At(json, j, FractionText(v))
    ensures Mantissa(json, j, false, true) == Mantissa(json, j + |FractionText(v)|, v.fraction.Some?, true)
  {
    if v.fraction.Some? {
      AtSum(json, j, ".", v.fraction.value);
      FirstAt(json, j, ".");
      DigitsPass(json, j + 1, v.fraction.value, true, true);
    }
  }

  function SignText(v: Value): string
    requires v.Number?
  {
    if v.negative then "-" else ""
  }

  lemma NumberParts(json: string, i: nat, v: Value)
    requires v.Number? && At(json, i, NumberText(v))
    ensures At(json, i, SignText(v)) && At(json, i + |SignText(v)|, v.whole)
    ensures At(json, i + |SignText(v)| + |v.whole|, FractionText(v))
    ensures At(json, i + |SignText(v)| + |v.whole| + |FractionText(v)|, ExponentText(v))
    ensures |NumberText(v)| == |SignText(v)| + |v.whole| + |FractionText(v)| + |ExponentText(v)|
  {
    assert NumberText(v) == SignText(v) + v.whole + FractionText(v) + ExponentText(v);
    AtSum(json, i, SignText(v) + v.whole + FractionText(v), ExponentText(v));
    AtSum(json, i, SignText(v) + v.whole, FractionText(v));
    AtSum(json, i, SignText(v), v.whole);
  }

  lemma {:induction false} NumberLands(json: string, i: nat, v: Value)
    requires v.Number? && NumberOk(v) && At(json, i, NumberText(v)) && Delimited(json, i + |NumberText(v)|)
    ensures SkipNumber(json, i) == Some(i + |NumberText(v)|) && i < |json| && (json[i] == '-' || IsDigit(json[i]))
  {
    NumberParts(json, i, v);
    PartsLand(json, i, v, SignText(v), FractionText(v), ExponentText(v), i + |NumberText(v)|);
  }

  lemma {:induction false} PartsLand(json: string, i: nat, v: Value, sign: string, fraction: string, exponent: string,
                                     end: nat)
    requires v.Number? && NumberOk(v) && Delimited(json, end)
    requires sign == SignText(v) && fraction == FractionText(v) && exponent == ExponentText(v)
    requires At(json, i, sign) && At(json, i + |sign|, v.whole) && At(json, i + |sign| + |v.whole|, fraction)
    requires At(json, i + |sign| + |v.whole| + |fraction|, exponent)
    requires end == i + |sign| + |v.whole| + |fraction| + |exponent|
    ensures SkipNumber(json, i) == Some(end) && i < |json| && (json[i] == '-' || IsDigit(json[i]))
  {
    var j := i + |sign|;
    NumberPartsLand(json, i, v, j, j + |v.whole|, j + |v.whole| + |fraction|, end);
  }

  lemma {:induction false} NumberPartsLand(json: string, i: nat, v: Value, j: nat, k: nat, l: nat, end: nat)
    requires v.Number? && NumberOk(v) && Delimited(json, end) && At(json, i, SignText(v))
    requires At(json, j, v.whole) && At(json, k, FractionText(v)) && At(json, l, ExponentText(v))
    requires j == i + |SignText(v)| && k == j + |v.whole| && l == k + |FractionText(v)| && end == l + |ExponentText(v)|
    ensures SkipNumber(json, i) == Some(end) && i < |json| && (json[i] == '-' || IsDigit(json[i]))
  {
    SignSkipped(json, i, v.negative, v.whole);
    MantissaLands(json, j, v, k, l, end);
  }

  lemma {:induction false} MantissaLands(json: string, j: nat, v: Value, k: nat, l: nat, end: nat)
    requires v.Number? && NumberOk(v) && Delimited(json, end)
    requires At(json, j, v.whole) && At(json, k, FractionText(v)) && At(json, l, ExponentText(v))
    requires k == j + |v.whole| && l == k + |FractionText(v)| && end == l + |ExponentText(v)|
    ensures Mantissa(json, j, false, false) == Some(end)
  {
    DigitsPass(json, j, v.whole, false, false);
    FractionPasses(json, k, v);
    ExponentLands(json, l, v, v.fraction.Some?);
  }

  lemma SignSkipped(json: string, i: nat, negative: bool, whole: string)
    requires At(json, i, if negative then "-" else "") && At(json, i + (if negative then 1 else 0), whole)
    requires whole != "" && AllDigits(whole)
    ensures SkipSign(json, i) == i + (if negative then 1 else 0) && (json[i] == '-' || IsDigit(json[i]))
  {
    if negative { FirstAt(json, i, "-"); }
    FirstAt(json, i + (if negative then 1 else 0), whole);
  }

  // ----- nesting -----

  predicate Brackets(open: char, close: char) { (open == '{' && close == '}') || (open == '[' && close == ']') }

  predicate PassedOver(json: string, j: nat, s: string, depth: nat, open: char, close: char) {
    At(json, j, s) && depth > 0 ==> Nested(json, j, depth, open, close) == Nested(json, j + |s|, depth, open, close)
  }

  /** Wherever `s` stands inside a bracket, it is passed as a whole and leaves the depth as
      it was. */
  ghost predicate Inert(s: string, open: char, close: char) {
    forall json, j, depth :: PassedOver(json, j, s, depth, open, close)
  }

  lemma InertSum(a: string, b: string, open: char, close: char)
    requires Inert(a, open, close) && Inert(b, open, close)
    ensures Inert(a + b, open, close)
  {
    forall json, j: nat, depth: nat ensures PassedOver(json, j, a + b, depth, open, close) {
      if At(json, j, a + b) {
        AtSum(json, j, a, b);
        assert PassedOver(json, j, a, depth, open, close) && PassedOver(json, j + |a|, b, depth, open, close);
      }
    }
  }

  predicate Bland(s: string) { forall i :: 0 <= i < |s| ==> s[i] !in "\"{}[]" }

  lemma {:induction false} BlandPasses(json: string, j: nat, s: string, depth: nat, open: char, close: char)
    requires At(json, j, s) && Bland(s) && depth > 0 && Brackets(open, close)
    ensures Nested(json, j, depth, open, close) == Nested(json, j + |s|, depth, open, close)
    decreases |s|
  {
    if s != "" {
      FirstAt(json, j, s);
      assert s == [s[0]] + s[1..] && s[0] !in "\"{}[]";
      AtSum(json, j, [s[0]], s[1..]);
      BlandPasses(json, j + 1, s[1..], depth, open, close);
    }
  }

  lemma BlandIsInert(s: string, open: char, close: char)
    requires Bland(s) && Brackets(open, close)
    ensures Inert(s, open, close)
  {
    forall json, j: nat, depth: nat ensures PassedOver(json, j, s, depth, open, close) {
      if At(json, j, s) && depth > 0 { BlandPasses(json, j, s, depth, open, close); }
    }
  }

  lemma StringIsInert(body: seq<StrChar>, open: char, close: char)
    requires BodyOk(body) && Brackets(open, close)
    ensures Inert(QuotedText(body), open, close)
  {
    forall json, j: nat, depth: nat ensures PassedOver(json, j, QuotedText(body), depth, open, close) {
      if At(json, j, QuotedText(body)) { StringLands(json, j, body); }
    }
  }

  lemma Opens(json: string, j: nat, open: char, inner: string, close: char)
    requires At(json, j, [open] + inner + [close])
    ensures At(json, j + 1, inner) && json[j] == open && j + 1 + |inner| < |json| && json[j + 1 + |inner|] == close
  {
    AtSum(json, j, [open] + inner, [close]);
    AtSum(json, j, [open], inner);
    FirstAt(json, j, [open]);
    FirstAt(json, j + 1 + |inner|, [close]);
  }

  /** Brackets of the counted kind go up and down again, the others are not looked at. */
  lemma BracketedIsInert(o: char, inner: string, c: char, open: char, close: char)
    requires Inert(inner, open, close) && Brackets(o, c) && Brackets(open, close)
    ensures Inert([o] + inner + [c], open, close)
  {
    forall json, j: nat, depth: nat ensures PassedOver(json, j, [o] + inner + [c], depth, open, close) {
      if At(json, j, [o] + inner + [c]) && depth > 0 {
        Opens(json, j, o, inner, c);
        assert PassedOver(json, j + 1, inner, if o == open then depth + 1 else depth, open, close);
      }
    }
  }

  lemma {:induction false} NumberIsBland(v: Value)
    requires v.Number? && NumberOk(v)
    ensures Bland(NumberText(v))
  {
    PartsAreBland(v);
    BlandSum(SignText(v), v.whole, FractionText(v), ExponentText(v), NumberText(v));
  }

  lemma {:induction false} PartsAreBland(v: Value)
    requires v.Number? && NumberOk(v)
    ensures Bland(SignText(v)) && Bland(v.whole) && Bland(FractionText(v)) && Bland(ExponentText(v))
  {
    DigitsAreBland(v.whole);
    if v.fraction.Some? { DigitsAreBland(v.fraction.value); }
    if v.exponent.Some? { DigitsAreBland(v.exponent.value.digits); }
  }

  lemma DigitsAreBland(s: string)
    requires AllDigits(s)
    ensures Bland(s)
  {
  }

  lemma BlandSum(a: string, b: string, c: string, d: string, all: string)
    requires Bland(a) && Bland(b) && Bland(c) && Bland(d) && all == a + b + c + d
    ensures Bland(all)
  {
  }

  lemma {:induction false} ValueIsInert(v: Value, open: char, close: char)
    requires ValueOk(v) && Brackets(open, close)
    ensures Inert(Text(v), open, close)
    decreases v
  {
    match v
    case Quoted(body) => StringIsInert(body, open, close);
    case Number(_, _, _, _) =>
      NumberIsBland(v);
      BlandIsInert(Text(v), open, close);
    case Word(word) => BlandIsInert(word, open, close);
    case Object(gap, members) =>
      InsideObject(gap, members, open, close);
      BracketedIsInert('{', gap + MembersText(members), '}', open, close);
      ConcatAssoc("{", gap, MembersText(members));
    case Array(gap, items) =>
      InsideArray(gap, items, open, close);
      BracketedIsInert('[', gap + ItemsText(items), ']', open, close);
      ConcatAssoc("[", gap, ItemsText(items));
  }

  lemma {:induction false} InsideObject(gap: string, members: Members, open: char, close: char)
    requires AllWs(gap) && MembersOk(members) && Brackets(open, close)
    ensures Inert(gap + MembersText(members), open, close)
    decreases members, 1
  {
    BlandIsInert(gap, open, close);
    MembersAreInert(members, open, close);
    InertSum(gap, MembersText(members), open, close);
  }

  lemma {:induction false} InsideArray(gap: string, items: Items, open: char, close: char)
    requires AllWs(gap) && ItemsOk(items) && Brackets(open, close)
    ensures Inert(gap + ItemsText(items), open, close)
    decreases items, 1
  {
    BlandIsInert(gap, open, close);
    ItemsAreInert(items, open, close);
    InertSum(gap, ItemsText(items), open, close);
  }

  lemma {:induction false} MembersAreInert(ms: Members, open: char, close: char)
    requires MembersOk(ms) && Brackets(open, close)
    ensures Inert(MembersText(ms), open, close)
    decreases ms, 0
  {
    if ms.NoMembers? {
      BlandIsInert("", open, close);
    } else {
      ValueIsInert(ms.value, open, close);
      MembersAreInert(ms.more, open, close);
      MemberIsInert(ms, open, close);
    }
  }

  lemma {:induction false} MemberIsInert(ms: Members, open: char, close: char)
    requires ms.Member? && MembersOk(ms) && Brackets(open, close)
    requires Inert(Text(ms.value), open, close) && Inert(MembersText(ms.more), open, close)
    ensures Inert(MembersText(ms), open, close)
  {
    var comma := if ms.comma.Some? then "," + ms.comma.value else "";
    StringIsInert(ms.key, open, close);
    GapsAreInert(QuotedText(ms.key), ms.beforeColon, ms.afterColon, Text(ms.value), ms.after, comma,
                 MembersText(ms.more), open, close);
  }

  /** What is between the key, the value and the next member is bland. */
  lemma GapsAreInert(key: string, before: string, behind: string, value: string, after: string, comma: string,
                     more: string, open: char, close: char)
    requires AllWs(before) && AllWs(behind) && AllWs(after) && Bland(comma) && Brackets(open, close)
    requires Inert(key, open, close) && Inert(value, open, close) && Inert(more, open, close)
    ensures Inert(key + (before + ":" + behind) + value + (after + comma) + more, open, close)
  {
    BlandIsInert(before + ":" + behind, open, close);
    BlandIsInert(after + comma, open, close);
    InertFive(key, before + ":" + behind, value, after + comma, more, open, close);
  }

  lemma InertFive(a: string, b: string, c: string, d: string, e: string, open: char, close: char)
    requires Inert(a, open, close) && Inert(b, open, close) && Inert(c, open, close) && Inert(d, open, close)
    requires Inert(e, open, close)
    ensures Inert(a + b + c + d + e, open, close)
  {
    InertSum(a, b, open, close);
    InertSum(a + b, c, open, close);
    InertSum(a + b + c, d, open, close);
    InertSum(a + b + c + d, e, open, close);
  }

  lemma {:induction false} ItemsAreInert(xs: Items, open: char, close: char)
    requires ItemsOk(xs) && Brackets(open, close)
    ensures Inert(ItemsText(xs), open, close)
    decreases xs, 0
  {
    if xs.NoItems? {
      BlandIsInert("", open, close);
    } else {
      var comma := xs.after + (if xs.more.NoItems? then "" else "," + xs.nextGap);
      ValueIsInert(xs.value, open, close);
      BlandIsInert(comma, open, close);
      ItemsAreInert(xs.more, open, close);
      InertSum(Text(xs.value), comma, open, close);
      InertSum(Text(xs.value) + comma, ItemsText(xs.more), open, close);
    }
  }

  // ----- the theorem -----

  lemma {:induction false} GapSkips(json: string, i: nat, gap: string)
    requires At(json, i, gap) && AllWs(gap)
    ensures SkipWs(json, i) == SkipWs(json, i + |gap|)
    decreases |gap|
  {
    if gap != "" {
      FirstAt(json, i, gap);
      assert gap == [gap[0]] + gap[1..];
      AtSum(json, i, [gap[0]], gap[1..]);
      GapSkips(json, i + 1, gap[1..]);
    }
  }

  lemma BracketsLand(json: string, i: nat, inner: string, open: char, close: char)
    requires Inert(inner, open, close) && Brackets(open, close) && At(json, i, [open] + inner + [close])
    ensures SkipAt(json, i) == Some(i + |inner| + 2) && i < |json| && json[i] == open
  {
    Opens(json, i, open, inner, close);
    assert PassedOver(json, i + 1, inner, 1, open, close);
    assert Nested(json, i + 1, 1, open, close) == Nested(json, i + 2 + |inner|, 0, open, close)
      == Some(i + |inner| + 2);
  }

  lemma {:induction false} ObjectLands(json: string, i: nat, gap: string, members: Members)
    requires AllWs(gap) && MembersOk(members) && At(json, i, "{" + gap + MembersText(members) + "}")
    ensures SkipAt(json, i) == Some(i + |"{" + gap + MembersText(members) + "}"|) && i < |json| && json[i] == '{'
  {
    var inner := gap + MembersText(members);
    InsideObject(gap, members, '{', '}');
    ConcatAssoc("{", gap, MembersText(members));
    BracketsLand(json, i, inner, '{', '}');
  }

  lemma {:induction false} ArrayLands(json: string, i: nat, gap: string, items: Items)
    requires AllWs(gap) && ItemsOk(items) && At(json, i, "[" + gap + ItemsText(items) + "]")
    ensures SkipAt(json, i) == Some(i + |"[" + gap + ItemsText(items) + "]"|) && i < |json| && json[i] == '['
  {
    var inner := gap + ItemsText(items);
    InsideArray(gap, items, '[', ']');
    ConcatAssoc("[", gap, ItemsText(items));
    BracketsLand(json, i, inner, '[', ']');
  }

  lemma NumberAtLands(json: string, i: nat, v: Value)
    requires v.Number? && NumberOk(v) && At(json, i, NumberText(v)) && Delimited(json, i + |NumberText(v)|)
    ensures SkipAt(json, i) == Some(i + |NumberText(v)|) && i < |json| && !IsWs(json[i])
  {
    NumberLands(json, i, v);
  }

  lemma WordLands(json: string, i: nat, word: string)
    requires At(json, i, word) && (word == "true" || word == "false" || word == "null")
    ensures SkipAt(json, i) == Some(i + |word|) && i < |json| && !IsWs(json[i])
  {
    FirstAt(json, i, word);
  }

  lemma {:induction false} ClosedValueLands(json: string, i: nat, v: Value)
    requires ValueOk(v) && At(json, i, Text(v)) && !v.Number?
    ensures SkipAt(json, i) == Some(i + |Text(v)|) && i < |json| && !IsWs(json[i])
  {
    if v.Object? || v.Array? {
      NestedValueLands(json, i, v);
    } else if v.Quoted? {
      StringLands(json, i, v.body);
    } else {
      WordLands(json, i, v.word);
    }
  }

  lemma {:induction false} NestedValueLands(json: string, i: nat, v: Value)
    requires ValueOk(v) && At(json, i, Text(v)) && (v.Object? || v.Array?)
    ensures SkipAt(json, i) == Some(i + |Text(v)|) && i < |json| && !IsWs(json[i])
  {
    if v.Object? { ObjectLands(json, i, v.gap, v.members); } else { ArrayLands(json, i, v.gap, v.items); }
  }

  lemma {:induction false} ValueLands(json: string, i: nat, v: Value)
    requires ValueOk(v) && At(json, i, Text(v)) && (v.Number? ==> Delimited(json, i + |Text(v)|))
    ensures SkipAt(json, i) == Some(i + |Text(v)|) && i < |json| && !IsWs(json[i])
  {
    if v.Number? { NumberAtLands(json, i, v); } else { ClosedValueLands(json, i, v); }
  }

  /** `skip_value` lands exactly at the end of every well-formed value, behind any whitespace,
      however objects, arrays and strings with quotes and brackets are nested in it. Only a
      number needs a delimiter behind it. */
  lemma {:induction false} SkipValueLands(json: string, i: nat, gap: string, v: Value)
    requires AllWs(gap) && ValueOk(v) && At(json, i, gap + Text(v))
    requires v.Number? ==> Delimited(json, i + |gap| + |Text(v)|)
    ensures SkipValue(json, i) == Some(i + |gap| + |Text(v)|)
  {
    TextLands(json, i, gap, v, Text(v), i + |gap|, i + |gap| + |Text(v)|);
  }

  lemma {:induction false} TextLands(json: string, i: nat, gap: string, v: Value, text: string, at: nat, end: nat)
    requires AllWs(gap) && ValueOk(v) && text == Text(v) && At(json, i, gap + text)
    requires at == i + |gap| && end == at + |text| && (v.Number? ==> Delimited(json, end))
    ensures SkipValue(json, i) == Some(end)
  {
    GapAndText(json, i, gap, text, at);
    ValueLands(json, at, v);
    SkipsGap(json, i, gap, at, end);
  }

  lemma GapAndText(json: string, i: nat, gap: string, text: string, at: nat)
    requires At(json, i, gap + text) && at == i + |gap|
    ensures At(json, i, gap) && At(json, at, text)
  {
    AtSum(json, i, gap, text);
  }

  lemma {:induction false} SkipsGap(json: string, i: nat, gap: string, at: nat, end: nat)
    requires At(json, i, gap) && AllWs(gap) && at == i + |gap| && at < |json| && !IsWs(json[at])
    requires SkipAt(json, at) == Some(end)
    ensures SkipValue(json, i) == Some(end)
  {
    GapSkips(json, i, gap);
  }
}
