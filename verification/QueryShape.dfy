/**
 * What every text looks like that the single-pass parser accepts, well-formed JSON or not: members
 * with a quoted key, a colon and a value, in braces where the known objects are.
 */
module QueryShape {
  import opened Base
  import opened JsonScan
  import opened QueryParsers

  // ----- the texts -----

  /** A string without its quotes: no quote in it that is not escaped, and no escape at its end. */
  predicate Unquoted(s: string) {
    s == "" || (s[0] == '\\' && |s| >= 2 && Unquoted(s[2..])) || (s[0] != '\\' && s[0] != '"' && Unquoted(s[1..]))
  }

  ghost predicate IsString(value: string) { exists body :: value == "\"" + body + "\"" && Unquoted(body) }

  predicate IsNumeral(value: string) {
    && (exists i :: 0 <= i < |value| && IsDigit(value[i]))
    && forall i :: 0 <= i < |value| ==> IsDigit(value[i]) || value[i] in "+-.eE"
  }

  predicate Enclosed(value: string) {
    |value| >= 2 && ((value[0] == '{' && value[|value| - 1] == '}') || (value[0] == '[' && value[|value| - 1] == ']'))
  }

  /** A value as far as it is looked at when it is passed over. */
  ghost predicate IsValue(value: string) {
    IsString(value) || IsNumeral(value) || value == "true" || value == "false" || value == "null" || Enclosed(value)
  }

  /** A member with the whitespace around it, and the comma behind it if there is one. */
  datatype Entry = Entry(lead: string, key: string, before: string, behind: string, value: string, after: string,
                         comma: bool)

  function EntryText(e: Entry): string {
    e.lead + ("\"" + e.key + "\"" + (e.before + ":" + e.behind)) + (e.value + (e.after + if e.comma then "," else ""))
  }

  function EntriesText(es: seq<Entry>): string { if es == [] then "" else EntryText(es[0]) + EntriesText(es[1..]) }

  predicate GapsOk(e: Entry) {
    AllWs(e.lead) && AllWs(e.before) && AllWs(e.behind) && AllWs(e.after) && Unquoted(e.key)
  }

  ghost predicate FieldOk(e: Entry) { GapsOk(e) && IsValue(e.value) }

  /** Members in braces. */
  ghost predicate Braced(value: string) {
    exists es, gap :: value == "{" + (EntriesText(es) + (gap + "}")) && AllWs(gap) && forall i :: 0 <= i < |es| ==>
      FieldOk(es[i])
  }

  /** A member of the outermost object: the known objects are in braces, the last transaction may be null. */
  ghost predicate MemberOk(e: Entry) {
    && GapsOk(e)
    && if e.key == "transaction" || e.key == "customer" || e.key == "merchant" || e.key == "terminal"
       then Braced(e.value)
       else if e.key == "last_transaction" then e.value == "null" || Braced(e.value)
       else IsValue(e.value)
  }

  // ----- what the scanner passes over -----

  lemma {:induction false} WsBetween(json: string, i: nat)
    requires i <= |json|
    ensures AllWs(json[i..SkipWs(json, i)])
    decreases |json| - i
  {
    if i < |json| && IsWs(json[i]) {
      WsBetween(json, i + 1);
      assert json[i..SkipWs(json, i)] == [json[i]] + json[i + 1..SkipWs(json, i + 1)];
    }
  }

  lemma {:induction false} StringBetween(json: string, j: nat)
    requires j <= |json| && StringEnd(json, j, false).Some?
    ensures var end := StringEnd(json, j, false).value;
            json[end - 1] == '"' && Unquoted(json[j..end - 1])
    decreases |json| - j
  {
    var end := StringEnd(json, j, false).value;
    if json[j] == '\\' {
      assert StringEnd(json, j, false) == StringEnd(json, j + 1, true) == StringEnd(json, j + 2, false);
      StringBetween(json, j + 2);
      assert json[j..end - 1][2..] == json[j + 2..end - 1];
    } else if json[j] != '"' {
      StringBetween(json, j + 1);
      assert json[j..end - 1][1..] == json[j + 1..end - 1];
    }
  }

  lemma {:induction false} QuotedBetween(json: string, i: nat)
    requires SkipString(json, i).Some?
    ensures var end := SkipString(json, i).value;
            && i + 1 <= end - 1 && json[i..end] == "\"" + json[i + 1..end - 1] + "\""
            && Unquoted(json[i + 1..end - 1])
  {
    StringBetween(json, i + 1);
  }

  predicate NumeralChar(c: char) { IsDigit(c) || c in "+-.eE" }

  predicate NumeralUpTo(json: string, i: nat, j: nat) {
    i <= j <= |json| && forall k :: i <= k < j ==> NumeralChar(json[k])
  }

  lemma {:induction false} DigitsBetween(json: string, i: nat, j: nat)
    requires NumeralUpTo(json, i, j)
    ensures NumeralUpTo(json, i, SkipDigits(json, j))
    decreases |json| - j
  {
    if j < |json| && IsDigit(json[j]) { DigitsBetween(json, i, j + 1); }
  }

  predicate DigitIn(json: string, i: nat, j: nat) { j <= |json| && exists k :: i <= k < j && IsDigit(json[k]) }

  lemma DigitStays(json: string, i: nat, j: nat, end: nat)
    requires DigitIn(json, i, j) && j <= end <= |json|
    ensures DigitIn(json, i, end)
  {
  }

  lemma {:induction false} MantissaBetween(json: string, i: nat, j: nat, seenDot: bool, seenDigit: bool)
    requires NumeralUpTo(json, i, j) && (seenDigit ==> DigitIn(json, i, j))
    requires Mantissa(json, j, seenDot, seenDigit).Some?
    ensures var end := Mantissa(json, j, seenDot, seenDigit).value; NumeralUpTo(json, i, end) && DigitIn(json, i, end)
    decreases |json| - j
  {
    if j < |json| && IsDigit(json[j]) {
      MantissaBetween(json, i, j + 1, seenDot, true);
    } else if j < |json| && json[j] == '.' && !seenDot {
      MantissaBetween(json, i, j + 1, true, seenDigit);
    } else if j < |json| && (json[j] == 'e' || json[j] == 'E') && seenDigit {
      DigitsBetween(json, i, SkipSign(json, j + 1));
      DigitStays(json, i, j, SkipDigits(json, SkipSign(json, j + 1)));
    }
  }

  lemma {:induction false} NumberBetween(json: string, i: nat)
    requires i < |json| && SkipNumber(json, i).Some?
    ensures IsNumeral(json[i..SkipNumber(json, i).value])
  {
    MantissaBetween(json, i, SkipSign(json, i), false, false);
    var end := SkipNumber(json, i).value;
    var k :| i <= k < end && IsDigit(json[k]);
    assert json[i..end][k - i] == json[k];
  }

  lemma {:induction false} NestedEnds(json: string, j: nat, depth: nat, open: char, close: char)
    requires depth > 0 && j <= |json| && Nested(json, j, depth, open, close).Some?
    ensures var end := Nested(json, j, depth, open, close).value; j < end <= |json| && json[end - 1] == close
    decreases |json| - j
  {
    if json[j] == '"' {
      NestedEnds(json, SkipString(json, j).value, depth, open, close);
    } else if json[j] == open {
      NestedEnds(json, j + 1, depth + 1, open, close);
    } else if json[j] == close {
      if depth > 1 { NestedEnds(json, j + 1, depth - 1, open, close); }
    } else {
      NestedEnds(json, j + 1, depth, open, close);
    }
  }

  lemma {:induction false} ValueBetween(json: string, i: nat)
    requires SkipAt(json, i).Some?
    ensures IsValue(json[i..SkipAt(json, i).value])
  {
    var value := json[i..SkipAt(json, i).value];
    if json[i] == '"' {
      QuotedBetween(json, i);
      assert IsString(value);
    } else if json[i] == '-' || json[i] == '+' || IsDigit(json[i]) {
      NumberBetween(json, i);
    } else if json[i] == '{' {
      NestedEnds(json, i + 1, 1, '{', '}');
    } else if json[i] == '[' {
      NestedEnds(json, i + 1, 1, '[', ']');
    }
  }

  // ----- one member -----

  lemma {:induction false} SkippedAlready(json: string, i: nat)
    requires i <= |json|
    ensures var j := SkipWs(json, i); SkipWs(json, j) == j && (j < |json| ==> !IsWs(json[j]))
    decreases |json| - i
  {
    if i < |json| && IsWs(json[i]) { SkippedAlready(json, i + 1); }
  }

  /** What stands where a key and its colon were read. */
  lemma {:induction false} KeyBetween(json: string, at: nat) returns (before: string, behind: string)
    requires ReadKey(json, at).Ok?
    ensures var (key, v) := ReadKey(json, at).value;
            && at < v <= |json| && json[at..v] == "\"" + key + "\"" + (before + ":" + behind)
            && Unquoted(key) && AllWs(before) && AllWs(behind) && SkipWs(json, v) == v
  {
    QuotedBetween(json, at);
    var end := SkipString(json, at).value;
    var colon := SkipWs(json, end);
    var v := SkipWs(json, colon + 1);
    WsBetween(json, end);
    WsBetween(json, colon + 1);
    SkippedAlready(json, colon + 1);
    before, behind := json[end..colon], json[colon + 1..v];
    FourSlices(json, at, end, colon, v);
  }

  lemma FourSlices(json: string, at: nat, end: nat, colon: nat, v: nat)
    requires at <= end <= colon < colon + 1 <= v <= |json|
    ensures json[at..v] == json[at..end] + (json[end..colon] + [json[colon]] + json[colon + 1..v])
  {
  }

  /** Behind a value: whitespace and at most one comma. */
  lemma {:induction false} CommaBetween(json: string, end: nat) returns (after: string, comma: bool)
    requires end <= |json|
    ensures SkipComma(json, end) <= |json|
    ensures json[end..SkipComma(json, end)] == after + (if comma then "," else "") && AllWs(after)
  {
    WsBetween(json, end);
    var n := SkipWs(json, end);
    after, comma := json[end..n], Has(json, n, ',');
    if comma { assert json[end..n + 1] == json[end..n] + [json[n]]; }
  }

  /** A whole member, from the whitespace before it to the comma behind it. */
  lemma {:induction false} EntryBetween(json: string, i: nat, at: nat, key: string, v: nat, end: nat, next: nat)
    returns (e: Entry)
    requires i <= |json| && at == SkipWs(json, i) && ReadKey(json, at) == Ok((key, v))
    requires v <= end <= |json| && next == SkipComma(json, end)
    ensures GapsOk(e) && e.key == key && e.value == json[v..end]
    ensures i < next <= |json| && json[i..next] == EntryText(e)
  {
    WsBetween(json, i);
    var before, behind := KeyBetween(json, at);
    var after, comma := CommaBetween(json, end);
    e := Entry(json[i..at], key, before, behind, json[v..end], after, comma);
    MemberSlices(json, i, at, v, end, next);
  }

  lemma MemberSlices(json: string, i: nat, at: nat, v: nat, end: nat, next: nat)
    requires i <= at <= v <= end <= next <= |json|
    ensures json[i..next] == json[i..at] + json[at..v] + (json[v..end] + json[end..next])
  {
  }

  // ----- one object -----

  lemma {:induction false} EntriesMore(json: string, i: nat, next: nat, end: nat, e: Entry, es: seq<Entry>, gap: string)
    requires i <= next <= end <= |json| && json[i..next] == EntryText(e)
    requires json[next..end] == EntriesText(es) + (gap + "}")
    ensures json[i..end] == EntriesText([e] + es) + (gap + "}")
  {
    assert ([e] + es)[1..] == es;
    assert json[i..end] == json[i..next] + json[next..end];
    ConcatAssoc(EntryText(e), EntriesText(es), gap + "}");
  }

  lemma LastBrace(json: string, i: nat, at: nat)
    requires i <= at < |json| && json[at] == '}'
    ensures json[i..at + 1] == EntriesText([]) + (json[i..at] + "}")
  {
  }

  lemma {:induction false} ObjectBetween(env: Env, json: string, i: nat, sec: Section, f: Fields)
    returns (es: seq<Entry>, gap: string)
    requires i <= |json| && ReadObject(env, json, i, sec, f).Ok?
    ensures var end := ReadObject(env, json, i, sec, f).value.1;
            && i <= end <= |json| && json[i..end] == EntriesText(es) + (gap + "}") && AllWs(gap)
            && forall k :: 0 <= k < |es| ==> FieldOk(es[k])
    decreases |json| - i
  {
    var at := SkipWs(json, i);
    if Has(json, at, '}') {
      WsBetween(json, i);
      LastBrace(json, i, at);
      es, gap := [], json[i..at];
    } else {
      var (f', next) := ReadEntry(env, json, at, sec, f).value;
      var e := FieldBetween(env, json, i, at, sec, f);
      es, gap := ObjectBetween(env, json, next, sec, f');
      EntriesMore(json, i, next, ReadObject(env, json, next, sec, f').value.1, e, es, gap);
      es := [e] + es;
    }
  }

  lemma {:induction false} FieldBetween(env: Env, json: string, i: nat, at: nat, sec: Section, f: Fields)
    returns (e: Entry)
    requires i <= |json| && at == SkipWs(json, i) && ReadEntry(env, json, at, sec, f).Ok?
    ensures var next := ReadEntry(env, json, at, sec, f).value.1;
            FieldOk(e) && i <= next <= |json| && json[i..next] == EntryText(e)
  {
    var (key, v) := ReadKey(json, at).value;
    var _, _ := KeyBetween(json, at);
    var end := SkipValue(json, v).value;
    ValueBetween(json, v);
    e := EntryBetween(json, i, at, key, v, end, SkipComma(json, end));
  }

  lemma {:induction false} BracedBetween(env: Env, json: string, v: nat, sec: Section, f: Fields)
    requires v < |json| && json[v] == '{' && ReadObject(env, json, v + 1, sec, f).Ok?
    ensures Braced(json[v..ReadObject(env, json, v + 1, sec, f).value.1])
  {
    var end := ReadObject(env, json, v + 1, sec, f).value.1;
    var es, gap := ObjectBetween(env, json, v + 1, sec, f);
    BehindBrace(json, v, end);
    IsBraced(json[v..end], es, gap);
  }

  lemma BehindBrace(json: string, v: nat, end: nat)
    requires v < end <= |json| && json[v] == '{'
    ensures json[v..end] == "{" + json[v + 1..end]
  {
  }

  lemma {:induction false} IsBraced(value: string, es: seq<Entry>, gap: string)
    requires value == "{" + (EntriesText(es) + (gap + "}")) && AllWs(gap)
    requires forall i :: 0 <= i < |es| ==> FieldOk(es[i])
    ensures Braced(value)
  {
  }

  // ----- the whole text -----

  lemma KnownKeys(key: string)
    ensures SectionOf(key).Some?
            <==> key == "transaction" || key == "customer" || key == "merchant" || key == "terminal"
  {
  }

  /** What stands where the value of a member was read. */
  lemma {:induction false} TopValueBetween(env: Env, json: string, key: string, v: nat, f: Fields, e: Entry)
    requires v <= |json| && SkipWs(json, v) == v && ReadTopValue(env, json, key, v, f).Ok?
    requires GapsOk(e) && e.key == key && e.value == json[v..ReadTopValue(env, json, key, v, f).value.1]
    ensures MemberOk(e)
  {
    KnownKeys(key);
    if SectionOf(key).Some? {
      BracedBetween(env, json, v, SectionOf(key).value, f);
    } else if key == "last_transaction" {
      LastBetween(env, json, v, f);
    } else {
      ValueBetween(json, v);
    }
  }

  lemma {:induction false} LastBetween(env: Env, json: string, v: nat, f: Fields)
    requires v <= |json| && SkipWs(json, v) == v && ReadLast(env, json, v, f).Ok?
    ensures var value := json[v..ReadLast(env, json, v, f).value.1]; value == "null" || Braced(value)
  {
    if Has(json, v, '{') { BracedBetween(env, json, v, Last, f.(last := true)); }
  }

  lemma {:induction false} MemberBetween(env: Env, json: string, i: nat, at: nat, f: Fields) returns (e: Entry)
    requires i <= |json| && at == SkipWs(json, i) && at <= |json| && ReadMember(env, json, at, f).Ok?
    ensures var next := ReadMember(env, json, at, f).value.1;
            MemberOk(e) && i <= next <= |json| && json[i..next] == EntryText(e)
  {
    var (key, v) := ReadKey(json, at).value;
    var _, _ := KeyBetween(json, at);
    var end := ReadTopValue(env, json, key, v, f).value.1;
    e := EntryBetween(json, i, at, key, v, end, SkipComma(json, end));
    TopValueBetween(env, json, key, v, f, e);
  }

  lemma {:induction false} TopBetween(env: Env, json: string, i: nat, f: Fields)
    returns (es: seq<Entry>, gap: string, end: nat)
    requires i <= |json| && ReadTop(env, json, i, f).Ok?
    ensures i <= end <= |json| && json[i..end] == EntriesText(es) + (gap + "}") && AllWs(gap)
    ensures forall k :: 0 <= k < |es| ==> MemberOk(es[k])
    decreases |json| - i
  {
    var at := SkipWs(json, i);
    if json[at] == '}' {
      WsBetween(json, i);
      LastBrace(json, i, at);
      es, gap, end := [], json[i..at], at + 1;
    } else {
      var (f', next) := ReadMember(env, json, at, f).value;
      var e := MemberBetween(env, json, i, at, f);
      es, gap, end := TopBetween(env, json, next, f');
      EntriesMore(json, i, next, end, e, es, gap);
      es := [e] + es;
    }
  }

  /** Whatever text is accepted, it is an object in braces: every member has a quoted key, a colon and
      a value; the four objects and the last transaction, unless that is null, are in braces too. */
  lemma {:induction false} AcceptedText(env: Env, json: string)
    returns (lead: string, es: seq<Entry>, gap: string, tail: string)
    requires SinglePass(env, json).Ok?
    ensures json == lead + "{" + (EntriesText(es) + (gap + "}")) + tail && AllWs(lead) && AllWs(gap)
    ensures forall k :: 0 <= k < |es| ==> MemberOk(es[k])
  {
    var i := SkipWs(json, 0);
    WsBetween(json, 0);
    var end;
    es, gap, end := TopBetween(env, json, i + 1, NOTHING_READ);
    lead, tail := json[..i], json[end..];
    assert json[0..i] == lead;
    Whole(json, i, end, EntriesText(es) + (gap + "}"));
  }

  lemma Whole(json: string, i: nat, end: nat, inner: string)
    requires i < end <= |json| && json[i] == '{' && json[i + 1..end] == inner
    ensures json == json[..i] + "{" + inner + json[end..]
  {
  }
}
