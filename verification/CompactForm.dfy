/** The texts that the compact parser accepts: exactly the renderings of well-formed contents. */
module CompactForm {
  import opened Base
  import opened JsonScan
  import opened QueryParsers
  import opened CompactParser

  lemma AtJoin(json: string, i: nat, a: string, b: string)
    requires At(json, i, a) && At(json, i + |a|, b)
    ensures At(json, i, a + b)
  {
    assert json[i..i + |a + b|] == json[i..i + |a|] + json[i + |a|..i + |a| + |b|];
  }

  // ----- numbers -----

  /** An optional sign, digits, and at most one dot among them. */
  predicate NumberShape(t: string) { DottedEnd(t, SkipSign(t, 0), false, false) == Some(|t|) }

  predicate IntShape(t: string) {
    var digits := if Has(t, 0, '-') then 1 else 0;
    digits < |t| && SkipDigits(t, digits) == |t|
  }

  lemma CharAt(json: string, i: nat, t: string, j: nat)
    requires At(json, i, t) && j < |t|
    ensures i + j < |json| && json[i + j] == t[j]
  {
    assert json[i..i + |t|][j] == json[i + j];
  }

  /** Reading a token where it stands is reading it alone, up to its end. */
  lemma {:induction false} DottedAlone(json: string, i: nat, t: string, j: nat, seenDot: bool, seenDigit: bool)
    requires At(json, i, t) && j <= |t|
    ensures DottedEnd(json, i + j, seenDot, seenDigit) == Some(i + |t|) ==>
              DottedEnd(t, j, seenDot, seenDigit) == Some(|t|)
    ensures EndsField(json, i + |t|) ==>
              DottedEnd(t, j, seenDot, seenDigit) == Some(|t|) ==>
                DottedEnd(json, i + j, seenDot, seenDigit) == Some(i + |t|)
    decreases |t| - j
  {
    if j < |t| {
      CharAt(json, i, t, j);
      if IsDigit(t[j]) {
        DottedAlone(json, i, t, j + 1, seenDot, true);
      } else if t[j] == '.' && !seenDot {
        DottedAlone(json, i, t, j + 1, true, seenDigit);
      }
    }
  }

  lemma {:induction false} DigitsAlone(json: string, i: nat, t: string, j: nat)
    requires At(json, i, t) && j <= |t|
    ensures SkipDigits(json, i + j) == i + |t| ==> SkipDigits(t, j) == |t|
    ensures EndsField(json, i + |t|) ==> SkipDigits(t, j) == |t| ==> SkipDigits(json, i + j) == i + |t|
    decreases |t| - j
  {
    if j < |t| {
      CharAt(json, i, t, j);
      if IsDigit(t[j]) { DigitsAlone(json, i, t, j + 1); }
    }
  }

  lemma NumberIff(env: Env, json: string, v: nat, t: string, n: nat)
    requires v <= |json|
    ensures CompactNumber(env, json, v) == Ok((t, n)) ==>
              NumberShape(t) && env.fast(t).Some? && At(json, v, t) && n == v + |t|
    ensures NumberShape(t) && env.fast(t).Some? && At(json, v, t) && n == v + |t| && EndsField(json, n) ==>
              CompactNumber(env, json, v) == Ok((t, n))
  {
    if At(json, v, t) && t != "" {
      CharAt(json, v, t, 0);
      DottedAlone(json, v, t, SkipSign(t, 0), false, false);
    }
    assert NumberShape(t) ==> t != "";
  }

  lemma IntIff(json: string, v: nat, t: string, n: nat)
    requires v <= |json|
    ensures CompactInt(json, v) == Ok((t, n)) ==> IntShape(t) && At(json, v, t) && n == v + |t|
    ensures IntShape(t) && At(json, v, t) && n == v + |t| && EndsField(json, n) ==> CompactInt(json, v) == Ok((t, n))
  {
    if At(json, v, t) && t != "" {
      CharAt(json, v, t, 0);
      DigitsAlone(json, v, t, if t[0] == '-' then 1 else 0);
    }
  }

  // ----- strings and lists -----

  function Quoted(s: string): string { "\"" + (s + "\"") }

  lemma StringIff(json: string, i: nat, s: string, n: nat)
    ensures CompactString(json, i) == Ok((s, n))
            <==> Clean(s) && At(json, i, s) && Has(json, i + |s|, '"') && n == i + |s| + 1
  {
    if CompactString(json, i).Ok? { CleanStringEnds(json, i, CleanEnd(json, i).value); }
    if Clean(s) && At(json, i, s) && Has(json, i + |s|, '"') { CleanEndAt(json, i, s); }
  }

  lemma HasIff(json: string, i: nat, c: char)
    ensures Has(json, i, c) <==> At(json, i, [c])
  {
  }

  lemma TextIff(json: string, v: nat, s: string, n: nat)
    ensures CompactText(json, v) == Ok((Str(s), n)) <==> Clean(s) && At(json, v, Quoted(s)) && n == v + |Quoted(s)|
  {
    StringIff(json, v + 1, s, n);
    QuotedAt(json, v, s);
  }

  lemma QuotedAt(json: string, v: nat, s: string)
    ensures At(json, v, Quoted(s)) <==> At(json, v, "\"") && At(json, v + 1, s) && Has(json, v + 1 + |s|, '"')
  {
    HasIff(json, v + 1 + |s|, '"');
    if At(json, v, Quoted(s)) {
      AtSum(json, v, "\"", s + "\"");
      AtSum(json, v + 1, s, "\"");
    }
    if At(json, v, "\"") && At(json, v + 1, s) && Has(json, v + 1 + |s|, '"') {
      AtJoin(json, v + 1, s, "\"");
      AtJoin(json, v, "\"", s + "\"");
    }
  }

  /** A list that is not empty, from its first quote. */
  function ListText(names: seq<string>): string
    requires names != []
  {
    Quoted(names[0]) + (if |names| == 1 then "]" else "," + ListText(names[1..]))
  }

  predicate AllClean(names: seq<string>) { forall i :: 0 <= i < |names| ==> Clean(names[i]) }

  lemma QuotedIsRead(json: string, i: nat, s: string)
    requires Clean(s) && At(json, i, Quoted(s))
    ensures At(json, i, "\"") && Has(json, i, '"') && CompactString(json, i + 1) == Ok((s, i + |Quoted(s)|))
  {
    QuotedAt(json, i, s);
    FirstAt(json, i, "\"");
    StringIff(json, i + 1, s, i + |Quoted(s)|);
  }

  lemma {:induction false} LastOfList(json: string, i: nat, names: seq<string>)
    requires |names| == 1 && Clean(names[0]) && At(json, i, Quoted(names[0]) + "]")
    ensures CompactList(json, i) == Ok((names, i + |Quoted(names[0])| + 1))
  {
    var name := names[0];
    AtSum(json, i, Quoted(name), "]");
    FirstAt(json, i + |Quoted(name)|, "]");
    QuotedIsRead(json, i, name);
    assert [name] == names;
  }

  lemma {:induction false} MoreOfList(json: string, i: nat, k: nat, names: seq<string>, more: seq<string>, n: nat)
    requires |names| > 1 && names[1..] == more && Clean(names[0]) && At(json, i, Quoted(names[0]))
    requires At(json, i + |Quoted(names[0])|, ",") && k == i + |Quoted(names[0])| + 1
    requires CompactList(json, k) == Ok((more, n))
    ensures CompactList(json, i) == Ok((names, n))
  {
    FirstAt(json, k - 1, ",");
    QuotedIsRead(json, i, names[0]);
    assert [names[0]] + more == names;
  }

  lemma {:induction false} ListParts(json: string, i: nat, names: seq<string>)
    requires |names| > 1 && At(json, i, ListText(names))
    ensures var k := i + |Quoted(names[0])| + 1;
            && At(json, i, Quoted(names[0])) && At(json, k - 1, ",") && At(json, k, ListText(names[1..]))
            && i + |ListText(names)| == k + |ListText(names[1..])|
  {
    var first, rest := Quoted(names[0]), ListText(names[1..]);
    AtSum(json, i, first, "," + rest);
    AtSum(json, i + |first|, ",", rest);
  }

  lemma {:induction false} ListRead(json: string, i: nat, names: seq<string>, n: nat)
    requires names != [] && AllClean(names) && At(json, i, ListText(names)) && n == i + |ListText(names)|
    ensures CompactList(json, i) == Ok((names, n))
    decreases |names|
  {
    if |names| == 1 {
      LastOfList(json, i, names);
    } else {
      var k := i + |Quoted(names[0])| + 1;
      ListParts(json, i, names);
      ListRead(json, k, names[1..], n);
      MoreOfList(json, i, k, names, names[1..], n);
    }
  }

  lemma {:induction false} ListJoin(json: string, i: nat, names: seq<string>, next: nat)
    requires names != [] && At(json, i, Quoted(names[0])) && next == i + |Quoted(names[0])|
    requires if |names| == 1 then Has(json, next, ']')
             else Has(json, next, ',') && At(json, next + 1, ListText(names[1..]))
    ensures At(json, i, ListText(names))
    ensures i + |ListText(names)| == if |names| == 1 then next + 1 else next + 1 + |ListText(names[1..])|
  {
    if |names| == 1 {
      HasIff(json, next, ']');
      AtJoin(json, i, Quoted(names[0]), "]");
    } else {
      var rest := ListText(names[1..]);
      HasIff(json, next, ',');
      AtJoin(json, next, ",", rest);
      AtJoin(json, i, Quoted(names[0]), "," + rest);
    }
  }

  lemma NameWritten(json: string, i: nat, name: string, next: nat)
    requires Has(json, i, '"') && i + 1 < next <= |json| && Has(json, next - 1, '"') && name == json[i + 1..next - 1]
    ensures At(json, i, Quoted(name)) && next == i + |Quoted(name)|
  {
    HasIff(json, i, '"');
    QuotedAt(json, i, name);
  }

  lemma {:induction false} ListWritten(run: ListRun, json: string, i: nat, names: seq<string>, n: nat)
    requires IsList(run, json) && run(i) == Ok((names, n))
    ensures names != [] && AllClean(names) && At(json, i, ListText(names)) && n == i + |ListText(names)|
    decreases |json| - i
  {
    var name, next, more := FirstName(run, json, i, names, n);
    NameWritten(json, i, name, next);
    if Has(json, next, ',') {
      ListWritten(run, json, next + 1, more, n);
      assert names[1..] == more;
    }
    ListJoin(json, i, names, next);
  }

  function NamesText(names: seq<string>): string { "[" + if names == [] then "]" else ListText(names) }

  lemma NoNamesRead(json: string, v: nat)
    requires At(json, v, "[" + "]")
    ensures CompactMerchants(json, v) == Ok(([], v + 2))
  {
    AtSum(json, v, "[", "]");
    FirstAt(json, v + 1, "]");
  }

  lemma {:induction false} SomeNamesRead(json: string, v: nat, names: seq<string>, rest: string)
    requires names != [] && AllClean(names) && rest == ListText(names) && At(json, v, "[" + rest)
    ensures CompactMerchants(json, v) == Ok((names, v + 1 + |rest|))
  {
    AtSum(json, v, "[", rest);
    ListStarts(json, v + 1, names);
    ListRead(json, v + 1, names, v + 1 + |rest|);
  }

  lemma NamesRead(json: string, v: nat, names: seq<string>)
    requires AllClean(names) && At(json, v, NamesText(names))
    ensures CompactMerchants(json, v) == Ok((names, v + |NamesText(names)|))
  {
    if names == [] { NoNamesRead(json, v); } else { SomeNamesRead(json, v, names, ListText(names)); }
  }

  lemma {:induction false} ListStarts(json: string, i: nat, names: seq<string>)
    requires names != [] && At(json, i, ListText(names))
    ensures Has(json, i, '"')
  {
    FirstAt(json, i, ListText(names));
  }

  lemma NamesWritten(json: string, v: nat)
    requires CompactMerchants(json, v).Ok?
    ensures var (names, n) := CompactMerchants(json, v).value;
            AllClean(names) && At(json, v, NamesText(names)) && n == v + |NamesText(names)|
  {
    var (names, n) := CompactMerchants(json, v).value;
    HasIff(json, v + 1, ']');
    if !Has(json, v + 1, ']') {
      var run := ListRunOf(json);
      assert AskedList(v + 1);
      ListWritten(run, json, v + 1, names, n);
    }
    AtJoin(json, v, "[", if names == [] then "]" else ListText(names));
  }

  lemma NamesIff(json: string, v: nat, names: seq<string>, n: nat)
    ensures CompactMerchants(json, v) == Ok((names, n)) <==>
            AllClean(names) && At(json, v, NamesText(names)) && n == v + |NamesText(names)|
  {
    if CompactMerchants(json, v).Ok? { NamesWritten(json, v); }
    if AllClean(names) && At(json, v, NamesText(names)) { NamesRead(json, v, names); }
  }

  // ----- values -----

  /** A token that the field may have. */
  predicate Fit(env: Env, kind: Kind, t: Token) {
    match kind
    case NumberKind => t.Num? && NumberShape(t.text) && env.fast(t.text).Some?
    case IntKind => t.Int? && IntShape(t.text)
    case BoolKind => t.Flag?
    case TextKind => t.Str? && Clean(t.text)
    case TimeKind => t.Str? && Clean(t.text) && env.time(t.text).Ok?
    case ListKind => t.Names? && AllClean(t.names)
  }

  function TokenText(t: Token): string {
    match t
    case Num(text) => text
    case Int(text) => text
    case Flag(value) => if value then "true" else "false"
    case Str(text) => Quoted(text)
    case Names(names) => NamesText(names)
  }

  lemma BoolIff(json: string, v: nat, b: bool, n: nat)
    ensures CompactBool(json, v) == Ok((b, n)) <==> At(json, v, TokenText(Flag(b))) && n == v + |TokenText(Flag(b))|
  {
    if At(json, v, "true") && At(json, v, "false") {
      FirstAt(json, v, "true");
      FirstAt(json, v, "false");
      assert false;
    }
  }

  /** What is read for a value is what it is written as; and it is read back before a comma
      or a brace. */
  lemma ValueIff(env: Env, json: string, v: nat, kind: Kind, t: Token, n: nat)
    requires v <= |json|
    ensures CompactValue(env, json, v, kind) == Ok((t, n)) ==>
              Fit(env, kind, t) && At(json, v, TokenText(t)) && n == v + |TokenText(t)|
    ensures Fit(env, kind, t) && At(json, v, TokenText(t)) && n == v + |TokenText(t)| && EndsField(json, n) ==>
              CompactValue(env, json, v, kind) == Ok((t, n))
  {
    match t
    case Num(text) => NumberIff(env, json, v, text, n);
    case Int(text) => IntIff(json, v, text, n);
    case Flag(b) => BoolIff(json, v, b, n);
    case Str(text) => TextIff(json, v, text, n);
    case Names(names) => NamesIff(json, v, names, n);
  }

  // ----- fields -----

  type Keys = seq<(string, FieldName)>

  ghost predicate FitAll(env: Env, keys: Keys, vals: seq<Token>) {
    |keys| == |vals| && forall k :: 0 <= k < |keys| ==> Fit(env, KindOf(keys[k].1), vals[k])
  }

  function FieldText(key: string, t: Token): string { Key(key) + TokenText(t) }

  type FieldWriter = (string, Token) -> string

  function Joined(text: FieldWriter, keys: Keys, vals: seq<Token>): string
    requires keys != [] && |keys| == |vals|
  {
    var first := text(keys[0].0, vals[0]);
    if |keys| == 1 then first else first + ("," + Joined(text, keys[1..], vals[1..]))
  }

  const FIELD_TEXT: FieldWriter := (key, t) => FieldText(key, t)

  /** The fields, with commas between them. */
  function FieldsText(keys: Keys, vals: seq<Token>): string
    requires keys != [] && |keys| == |vals|
  {
    Joined(FIELD_TEXT, keys, vals)
  }

  ghost predicate AskedText(key: string, t: Token) { true }

  ghost predicate IsWriter(text: FieldWriter) {
    forall key: string, t: Token {:trigger AskedText(key, t)} :: AskedText(key, t) ==> text(key, t) == FieldText(key, t)
  }

  lemma FieldTextWrites()
    ensures IsWriter(FIELD_TEXT)
  {
  }

  function Named(keys: Keys, vals: seq<Token>): (r: Tokens)
    requires |keys| == |vals|
    ensures |r| == |keys|
  {
    seq(|keys|, k requires 0 <= k < |keys| => (keys[k].1, vals[k]))
  }

  lemma FieldParts(json: string, i: nat, key: string, t: Token, v: nat, n: nat)
    requires At(json, i, FieldText(key, t)) && v == i + |Key(key)| && n == i + |FieldText(key, t)|
    ensures At(json, i, Key(key)) && At(json, v, TokenText(t)) && n == v + |TokenText(t)|
  {
    AtSum(json, i, Key(key), TokenText(t));
  }

  lemma FieldRead(env: Env, json: string, i: nat, key: string, kind: Kind, t: Token, v: nat, n: nat)
    requires Fit(env, kind, t) && At(json, i, FieldText(key, t)) && v == i + |Key(key)| && n == i + |FieldText(key, t)|
    requires EndsField(json, n)
    ensures At(json, i, Key(key)) && v <= |json| && CompactValue(env, json, v, kind) == Ok((t, n))
  {
    FieldParts(json, i, key, t, v, n);
    ValueIff(env, json, v, kind, t, n);
  }

  lemma {:induction false} FirstValue(env: Env, json: string, i: nat, keys: Keys, v: nat, first: Result<(Token, nat)>,
                                      ts: Tokens)
    requires keys != [] && At(json, i, Key(keys[0].0)) && v == i + |Key(keys[0].0)|
    requires CompactValue(env, json, v, KindOf(keys[0].1)) == first
    ensures CompactFields(env, json, i, keys, ts) == FieldsBehind(env, json, keys, ts, first)
  {
  }

  lemma {:induction false} MoreFields(env: Env, json: string, keys: Keys, ts: Tokens, t: Token, m: nat)
    requires keys != [] && m <= |json| && (|keys| > 1 ==> At(json, m, ","))
    ensures FieldsBehind(env, json, keys, ts, Ok((t, m)))
            == if |keys| == 1 then Ok((ts + [(keys[0].1, t)], m))
               else CompactFields(env, json, m + 1, keys[1..], ts + [(keys[0].1, t)])
  {
  }

  // The reader of the fields, named so that a proof need not look into it at every step.

  type FieldsRun = (nat, Keys, Tokens) -> Result<(Tokens, nat)>

  ghost predicate AskedFor(i: nat, keys: Keys, ts: Tokens) { true }

  ghost predicate IsFields(run: FieldsRun, env: Env, json: string) {
    forall i: nat, keys: Keys, ts: Tokens {:trigger AskedFor(i, keys, ts)} ::
      AskedFor(i, keys, ts) && keys != [] ==> run(i, keys, ts) == CompactFields(env, json, i, keys, ts)
  }

  lemma FieldsRunOf(env: Env, json: string) returns (run: FieldsRun)
    ensures IsFields(run, env, json)
  {
    run := (i: nat, keys: Keys, ts: Tokens) =>
        if keys != [] then CompactFields(env, json, i, keys, ts) else Err(INVALID_FORMAT);
  }

  lemma CommaParts(json: string, i: nat, first: string, rest: string, n: nat)
    requires At(json, i, first + ("," + rest)) && n == i + |first|
    ensures At(json, i, first) && At(json, n, ",") && Has(json, n, ',') && At(json, n + 1, rest)
    ensures i + |first + ("," + rest)| == n + 1 + |rest|
  {
    AtSum(json, i, first, "," + rest);
    AtSum(json, n, ",", rest);
    FirstAt(json, n, ",");
  }

  lemma {:induction false} JoinedUnfolds(text: FieldWriter, keys: Keys, vals: seq<Token>, first: string, rest: string)
    requires |keys| > 1 && |keys| == |vals| && first == text(keys[0].0, vals[0])
    requires rest == Joined(text, keys[1..], vals[1..])
    ensures Joined(text, keys, vals) == first + ("," + rest)
  {
  }

  lemma NamedMore(keys: Keys, vals: seq<Token>, ts: Tokens)
    requires keys != [] && |keys| == |vals|
    ensures ts + Named(keys, vals) == ts + [(keys[0].1, vals[0])] + Named(keys[1..], vals[1..])
    ensures |keys| == 1 ==> ts + Named(keys, vals) == ts + [(keys[0].1, vals[0])]
  {
    assert Named(keys, vals) == [(keys[0].1, vals[0])] + Named(keys[1..], vals[1..]);
  }

  lemma FitRest(env: Env, keys: Keys, vals: seq<Token>)
    requires FitAll(env, keys, vals) && keys != []
    ensures FitAll(env, keys[1..], vals[1..]) && Fit(env, KindOf(keys[0].1), vals[0])
  {
  }

  /** One field read, before the end of the object or the next field. */
  lemma OneField(text: FieldWriter, run: FieldsRun, env: Env, json: string, i: nat, keys: Keys, t: Token, ts: Tokens,
                 m: nat)
    requires IsWriter(text) && IsFields(run, env, json) && keys != [] && Fit(env, KindOf(keys[0].1), t)
    requires At(json, i, text(keys[0].0, t)) && m == i + |text(keys[0].0, t)|
    requires if |keys| == 1 then Has(json, m, '}') else At(json, m, ",") && Has(json, m, ',')
    ensures run(i, keys, ts) == if |keys| == 1 then Ok((ts + [(keys[0].1, t)], m))
                                else run(m + 1, keys[1..], ts + [(keys[0].1, t)])
  {
    var v := i + |Key(keys[0].0)|;
    assert AskedText(keys[0].0, t);
    FieldRead(env, json, i, keys[0].0, KindOf(keys[0].1), t, v, m);
    FirstValue(env, json, i, keys, v, Ok((t, m)), ts);
    MoreFields(env, json, keys, ts, t, m);
    assert AskedFor(i, keys, ts) && AskedFor(m + 1, keys[1..], ts + [(keys[0].1, t)]);
  }

  lemma {:induction false} NextField(text: FieldWriter, run: FieldsRun, env: Env, json: string, i: nat, keys: Keys,
                                     vals: seq<Token>, ts: Tokens)
    returns (m: nat, more: Tokens)
    requires IsWriter(text) && IsFields(run, env, json) && |keys| > 1 && FitAll(env, keys, vals)
    requires At(json, i, Joined(text, keys, vals))
    ensures FitAll(env, keys[1..], vals[1..]) && At(json, m, Joined(text, keys[1..], vals[1..]))
    ensures m + |Joined(text, keys[1..], vals[1..])| == i + |Joined(text, keys, vals)|
    ensures ts + Named(keys, vals) == more + Named(keys[1..], vals[1..]) && run(i, keys, ts) == run(m, keys[1..], more)
  {
    FitRest(env, keys, vals);
    NamedMore(keys, vals, ts);
    var first, rest := text(keys[0].0, vals[0]), Joined(text, keys[1..], vals[1..]);
    JoinedUnfolds(text, keys, vals, first, rest);
    m, more := i + |first|, ts + [(keys[0].1, vals[0])];
    CommaParts(json, i, first, rest, m);
    OneField(text, run, env, json, i, keys, vals[0], ts, m);
    m := m + 1;
  }

  lemma {:induction false} FieldsRead(text: FieldWriter, run: FieldsRun, env: Env, json: string, i: nat, keys: Keys,
                                      vals: seq<Token>, ts: Tokens, all: Tokens, n: nat)
    requires IsWriter(text) && IsFields(run, env, json) && keys != [] && FitAll(env, keys, vals)
    requires At(json, i, Joined(text, keys, vals))
    requires all == ts + Named(keys, vals) && n == i + |Joined(text, keys, vals)| && Has(json, n, '}')
    ensures run(i, keys, ts) == Ok((all, n))
    decreases |keys|
  {
    if |keys| > 1 {
      var m, more := NextField(text, run, env, json, i, keys, vals, ts);
      FieldsRead(text, run, env, json, m, keys[1..], vals[1..], more, all, n);
    } else {
      FitRest(env, keys, vals);
      NamedMore(keys, vals, ts);
      OneField(text, run, env, json, i, keys, vals[0], ts, n);
    }
  }

  lemma FieldWritten(env: Env, json: string, i: nat, key: (string, FieldName), v: nat, t: Token, n: nat)
    requires At(json, i, Key(key.0)) && v == i + |Key(key.0)| && CompactValue(env, json, v, KindOf(key.1)) == Ok((t, n))
    ensures Fit(env, KindOf(key.1), t) && At(json, i, FieldText(key.0, t)) && n == i + |FieldText(key.0, t)|
  {
    ValueIff(env, json, v, KindOf(key.1), t, n);
    AtJoin(json, i, Key(key.0), TokenText(t));
  }

  lemma FitJoin(env: Env, keys: Keys, t: Token, more: seq<Token>, vals: seq<Token>)
    requires keys != [] && Fit(env, KindOf(keys[0].1), t) && FitAll(env, keys[1..], more) && vals == [t] + more
    ensures FitAll(env, keys, vals)
  {
    forall k | 0 <= k < |keys| ensures Fit(env, KindOf(keys[k].1), vals[k]) {
      if k > 0 { assert keys[k] == keys[1..][k - 1] && vals[k] == more[k - 1]; }
    }
  }

  lemma {:induction false} TextJoin(text: FieldWriter, json: string, i: nat, keys: Keys, vals: seq<Token>, m: nat,
                                    n: nat)
    requires |keys| > 1 && |vals| == |keys|
    requires At(json, i, text(keys[0].0, vals[0])) && m == i + |text(keys[0].0, vals[0])| && Has(json, m, ',')
    requires At(json, m + 1, Joined(text, keys[1..], vals[1..])) && n == m + 1 + |Joined(text, keys[1..], vals[1..])|
    ensures At(json, i, Joined(text, keys, vals)) && n == i + |Joined(text, keys, vals)|
  {
    var first, rest := text(keys[0].0, vals[0]), Joined(text, keys[1..], vals[1..]);
    JoinedUnfolds(text, keys, vals, first, rest);
    HasIff(json, m, ',');
    AtJoin(json, m, ",", rest);
    AtJoin(json, i, first, "," + rest);
  }

  lemma FirstWritten(text: FieldWriter, run: FieldsRun, env: Env, json: string, i: nat, keys: Keys, ts: Tokens)
    returns (t: Token, m: nat)
    requires IsWriter(text) && IsFields(run, env, json) && keys != [] && run(i, keys, ts).Ok? && AskedFor(i, keys, ts)
    ensures Fit(env, KindOf(keys[0].1), t) && At(json, i, text(keys[0].0, t)) && m == i + |text(keys[0].0, t)|
    ensures |keys| == 1 ==> run(i, keys, ts) == Ok((ts + [(keys[0].1, t)], m))
    ensures |keys| > 1 ==> Has(json, m, ',') && run(i, keys, ts) == run(m + 1, keys[1..], ts + [(keys[0].1, t)])
  {
    var v;
    v, t, m := FirstField(env, json, i, keys, ts);
    FieldWritten(env, json, i, keys[0], v, t, m);
    assert AskedText(keys[0].0, t);
    assert AskedFor(m + 1, keys[1..], ts + [(keys[0].1, t)]);
  }

  lemma {:induction false} FieldsWritten(text: FieldWriter, run: FieldsRun, env: Env, json: string, i: nat, keys: Keys,
                                         ts: Tokens, read: Tokens, n: nat)
    returns (vals: seq<Token>)
    requires IsWriter(text) && IsFields(run, env, json) && keys != [] && run(i, keys, ts) == Ok((read, n))
    ensures FitAll(env, keys, vals) && At(json, i, Joined(text, keys, vals)) && n == i + |Joined(text, keys, vals)|
    ensures read == ts + Named(keys, vals)
    decreases |keys|
  {
    assert AskedFor(i, keys, ts);
    var t, m := FirstWritten(text, run, env, json, i, keys, ts);
    if |keys| == 1 {
      vals := [t];
      NamedMore(keys, vals, ts);
    } else {
      var more := FieldsWritten(text, run, env, json, m + 1, keys[1..], ts + [(keys[0].1, t)], read, n);
      vals := FieldsJoin(text, env, json, i, keys, t, more, ts, m, n);
    }
  }

  lemma {:induction false} FieldsJoin(text: FieldWriter, env: Env, json: string, i: nat, keys: Keys, t: Token,
                                      more: seq<Token>, ts: Tokens, m: nat, n: nat)
    returns (vals: seq<Token>)
    requires |keys| > 1 && Fit(env, KindOf(keys[0].1), t) && FitAll(env, keys[1..], more)
    requires At(json, i, text(keys[0].0, t)) && m == i + |text(keys[0].0, t)| && Has(json, m, ',')
    requires At(json, m + 1, Joined(text, keys[1..], more)) && n == m + 1 + |Joined(text, keys[1..], more)|
    ensures FitAll(env, keys, vals) && At(json, i, Joined(text, keys, vals)) && n == i + |Joined(text, keys, vals)|
    ensures ts + [(keys[0].1, t)] + Named(keys[1..], more) == ts + Named(keys, vals)
  {
    vals := [t] + more;
    assert vals[1..] == more;
    FitJoin(env, keys, t, more, vals);
    TextJoin(text, json, i, keys, vals, m, n);
    NamedMore(keys, vals, ts);
  }

  // ----- objects -----

  function ObjectText(keys: Keys, vals: seq<Token>): string
    requires keys != [] && |keys| == |vals|
  {
    "{" + (FieldsText(keys, vals) + "}")
  }

  lemma BracesAt(json: string, i: nat, fields: string, n: nat)
    requires At(json, i, "{" + (fields + "}")) && n == i + |"{" + (fields + "}")|
    ensures At(json, i, "{") && At(json, i + 1, fields) && n - 1 == i + 1 + |fields|
    ensures At(json, n - 1, "}") && Has(json, n - 1, '}')
  {
    AtSum(json, i, "{", fields + "}");
    AtSum(json, i + 1, fields, "}");
    FirstAt(json, i + 1 + |fields|, "}");
  }

  lemma {:induction false} ObjectSteps(env: Env, json: string, i: nat, keys: Keys, ts: Tokens, all: Tokens, n: nat)
    requires keys != [] && At(json, i, "{") && n > 0 && At(json, n - 1, "}")
    requires CompactFields(env, json, i + 1, keys, ts) == Ok((all, n - 1))
    ensures CompactObject(env, json, i, keys, ts) == Ok((all, n))
  {
  }

  lemma {:induction false} FieldsAreRead(text: FieldWriter, env: Env, json: string, i: nat, keys: Keys,
                                         vals: seq<Token>, ts: Tokens, all: Tokens, n: nat)
    requires IsWriter(text) && keys != [] && FitAll(env, keys, vals) && At(json, i, Joined(text, keys, vals))
    requires all == ts + Named(keys, vals) && n == i + |Joined(text, keys, vals)| && Has(json, n, '}')
    ensures CompactFields(env, json, i, keys, ts) == Ok((all, n))
  {
    var run := FieldsRunOf(env, json);
    FieldsRead(text, run, env, json, i, keys, vals, ts, all, n);
    assert AskedFor(i, keys, ts);
  }

  lemma {:induction false} BracedIsRead(text: FieldWriter, env: Env, json: string, i: nat, keys: Keys, vals: seq<Token>,
                                        ts: Tokens, all: Tokens, n: nat)
    requires IsWriter(text) && keys != [] && FitAll(env, keys, vals)
    requires At(json, i, "{" + (Joined(text, keys, vals) + "}"))
    requires all == ts + Named(keys, vals) && n == i + |"{" + (Joined(text, keys, vals) + "}")|
    ensures CompactObject(env, json, i, keys, ts) == Ok((all, n))
  {
    BracesAt(json, i, Joined(text, keys, vals), n);
    FieldsAreRead(text, env, json, i + 1, keys, vals, ts, all, n - 1);
    ObjectSteps(env, json, i, keys, ts, all, n);
  }

  lemma {:induction false} ObjectRead(env: Env, json: string, i: nat, keys: Keys, vals: seq<Token>, ts: Tokens,
                                      all: Tokens, n: nat)
    requires keys != [] && FitAll(env, keys, vals) && At(json, i, ObjectText(keys, vals))
    requires all == ts + Named(keys, vals) && n == i + |ObjectText(keys, vals)|
    ensures CompactObject(env, json, i, keys, ts) == Ok((all, n))
  {
    FieldTextWrites();
    BracedIsRead(FIELD_TEXT, env, json, i, keys, vals, ts, all, n);
  }

  lemma ObjectJoin(json: string, i: nat, fields: string, n: nat)
    requires Has(json, i, '{') && At(json, i + 1, fields) && n - 1 == i + 1 + |fields| && Has(json, n - 1, '}')
    ensures At(json, i, "{" + (fields + "}")) && n == i + |"{" + (fields + "}")|
  {
    HasIff(json, n - 1, '}');
    HasIff(json, i, '{');
    AtJoin(json, i + 1, fields, "}");
    AtJoin(json, i, "{", fields + "}");
  }

  lemma ObjectWritten(env: Env, json: string, i: nat, keys: Keys, ts: Tokens, read: Tokens, n: nat)
    returns (vals: seq<Token>)
    requires keys != [] && CompactObject(env, json, i, keys, ts) == Ok((read, n))
    ensures FitAll(env, keys, vals) && At(json, i, ObjectText(keys, vals)) && n == i + |ObjectText(keys, vals)|
    ensures read == ts + Named(keys, vals)
  {
    ObjectParts(env, json, i, keys, ts, read, n);
    var run := FieldsRunOf(env, json);
    assert AskedFor(i + 1, keys, ts);
    FieldTextWrites();
    vals := FieldsWritten(FIELD_TEXT, run, env, json, i + 1, keys, ts, read, n - 1);
    ObjectJoin(json, i, FieldsText(keys, vals), n);
  }

  // ----- sections -----

  function SectionText(key: string, keys: Keys, vals: seq<Token>): string
    requires keys != [] && |keys| == |vals|
  {
    "," + (Key(key) + ObjectText(keys, vals))
  }

  lemma SectionSteps(env: Env, json: string, i: nat, key: string, keys: Keys, ts: Tokens, v: nat, all: Tokens, n: nat)
    requires keys != [] && At(json, i, ",") && At(json, i + 1, Key(key)) && v == i + 1 + |Key(key)|
    requires CompactObject(env, json, v, keys, ts) == Ok((all, n))
    ensures CompactSection(env, json, i, key, keys, ts) == Ok((all, n))
  {
  }

  lemma SectionTextParts(json: string, i: nat, key: string, text: string, v: nat)
    requires At(json, i, "," + (Key(key) + text)) && v == i + 1 + |Key(key)|
    ensures At(json, i, ",") && At(json, i + 1, Key(key)) && At(json, v, text)
    ensures i + |"," + (Key(key) + text)| == v + |text|
  {
    AtSum(json, i, ",", Key(key) + text);
    AtSum(json, i + 1, Key(key), text);
  }

  lemma SectionRead(env: Env, json: string, i: nat, key: string, keys: Keys, vals: seq<Token>, ts: Tokens, all: Tokens,
                    n: nat)
    requires keys != [] && FitAll(env, keys, vals) && At(json, i, SectionText(key, keys, vals))
    requires all == ts + Named(keys, vals) && n == i + |SectionText(key, keys, vals)|
    ensures CompactSection(env, json, i, key, keys, ts) == Ok((all, n))
  {
    var v := i + 1 + |Key(key)|;
    SectionTextParts(json, i, key, ObjectText(keys, vals), v);
    ObjectRead(env, json, v, keys, vals, ts, all, n);
    SectionSteps(env, json, i, key, keys, ts, v, all, n);
  }

  lemma SectionWritten(env: Env, json: string, i: nat, key: string, keys: Keys, ts: Tokens, read: Tokens, n: nat)
    returns (vals: seq<Token>)
    requires keys != [] && CompactSection(env, json, i, key, keys, ts) == Ok((read, n))
    ensures FitAll(env, keys, vals) && At(json, i, SectionText(key, keys, vals))
    ensures n == i + |SectionText(key, keys, vals)|
    ensures read == ts + Named(keys, vals)
  {
    var v := i + 1 + |Key(key)|;
    SectionParts(env, json, i, key, v, keys, ts, read, n);
    vals := ObjectWritten(env, json, v, keys, ts, read, n);
    var text := ObjectText(keys, vals);
    AtJoin(json, i + 1, Key(key), text);
    AtJoin(json, i, ",", Key(key) + text);
  }

  /** The objects of the text: for each its key and the keys of its fields. */
  ghost predicate ValidShape(shape: seq<Part>) { forall k :: 0 <= k < |shape| ==> shape[k].1 != [] }

  function ShapeOf(secs: seq<Section>): (shape: seq<Part>)
    ensures |shape| == |secs|
  {
    seq(|secs|, k requires 0 <= k < |secs| => (KeyOf(secs[k]), KeysOf(secs[k])))
  }

  lemma ShapesAreValid(secs: seq<Section>)
    ensures ValidShape(ShapeOf(secs))
  {
  }

  // The reader of one section, named in the same way.

  type Part = (string, Keys)

  type SectionRun = (nat, Part, Tokens) -> Result<(Tokens, nat)>

  ghost predicate AskedPart(i: nat, part: Part, ts: Tokens) { true }

  ghost predicate IsSection(run: SectionRun, env: Env, json: string) {
    && (forall i: nat, part: Part, ts: Tokens {:trigger AskedPart(i, part, ts)} ::
          AskedPart(i, part, ts) && part.1 != [] ==>
            run(i, part, ts) == CompactSection(env, json, i, part.0, part.1, ts))
    && (forall i: nat, part: Part, ts: Tokens {:trigger run(i, part, ts)} ::
          run(i, part, ts).Ok? ==> run(i, part, ts).value.1 <= |json|)
  }

  lemma SectionRunOf(env: Env, json: string) returns (run: SectionRun)
    ensures IsSection(run, env, json)
  {
    run := (i: nat, part: Part, ts: Tokens) =>
        if part.1 != [] then CompactSection(env, json, i, part.0, part.1, ts) else Err(INVALID_FORMAT);
  }

  /** `CompactSections`, for any shape. */
  ghost function CompactShape(run: SectionRun, i: nat, shape: seq<Part>, ts: Tokens): (r: Result<(Tokens, nat)>)
    decreases |shape|
  {
    if shape == [] then Ok((ts, i))
    else
      var (read, n) :- run(i, shape[0], ts);
      CompactShape(run, n, shape[1..], read)
  }

  lemma {:induction false} ShapeOfSections(run: SectionRun, env: Env, json: string, i: nat, secs: seq<Section>,
                                           shape: seq<Part>, ts: Tokens)
    requires IsSection(run, env, json) && i <= |json| && shape == ShapeOf(secs)
    ensures CompactSections(env, json, i, secs, ts) == CompactShape(run, i, shape, ts)
    decreases |secs|
  {
    if secs != [] {
      assert shape[1..] == ShapeOf(secs[1..]) && AskedPart(i, shape[0], ts);
      var r := run(i, shape[0], ts);
      if r.Ok? { ShapeOfSections(run, env, json, r.value.1, secs[1..], shape[1..], r.value.0); }
    }
  }

  ghost predicate FitShape(env: Env, shape: seq<Part>, parts: seq<seq<Token>>) {
    && |shape| == |parts|
    && forall k :: 0 <= k < |shape| ==> shape[k].1 != [] && FitAll(env, shape[k].1, parts[k])
  }

  ghost predicate SameShape(shape: seq<Part>, parts: seq<seq<Token>>) {
    |shape| == |parts| && forall k :: 0 <= k < |shape| ==> shape[k].1 != [] && |shape[k].1| == |parts[k]|
  }

  ghost function SectionsText(shape: seq<Part>, parts: seq<seq<Token>>): string
    requires SameShape(shape, parts)
  {
    if shape == [] then "" else SectionText(shape[0].0, shape[0].1, parts[0]) + SectionsText(shape[1..], parts[1..])
  }

  ghost function NamedSections(shape: seq<Part>, parts: seq<seq<Token>>): Tokens
    requires SameShape(shape, parts)
  {
    if shape == [] then [] else Named(shape[0].1, parts[0]) + NamedSections(shape[1..], parts[1..])
  }

  lemma {:induction false} FirstSectionText(json: string, i: nat, shape: seq<Part>, parts: seq<seq<Token>>, ts: Tokens,
                                            first: string)
    requires shape != [] && SameShape(shape, parts) && At(json, i, SectionsText(shape, parts))
    requires first == SectionText(shape[0].0, shape[0].1, parts[0])
    ensures At(json, i, first) && At(json, i + |first|, SectionsText(shape[1..], parts[1..]))
    ensures |SectionsText(shape, parts)| == |first| + |SectionsText(shape[1..], parts[1..])|
    ensures ts + NamedSections(shape, parts) == ts + Named(shape[0].1, parts[0]) + NamedSections(shape[1..], parts[1..])
  {
    AtSum(json, i, first, SectionsText(shape[1..], parts[1..]));
    ConcatAssoc(ts, Named(shape[0].1, parts[0]), NamedSections(shape[1..], parts[1..]));
  }

  lemma FirstSectionRead(run: SectionRun, env: Env, json: string, i: nat, part: Part, vals: seq<Token>, ts: Tokens,
                         more: Tokens, m: nat)
    requires IsSection(run, env, json) && part.1 != [] && FitAll(env, part.1, vals)
    requires At(json, i, SectionText(part.0, part.1, vals))
    requires more == ts + Named(part.1, vals) && m == i + |SectionText(part.0, part.1, vals)|
    ensures run(i, part, ts) == Ok((more, m))
  {
    assert AskedPart(i, part, ts);
    SectionRead(env, json, i, part.0, part.1, vals, ts, more, m);
  }

  lemma {:induction false} SectionsRead(run: SectionRun, env: Env, json: string, i: nat, shape: seq<Part>,
                                        parts: seq<seq<Token>>, ts: Tokens, all: Tokens, n: nat)
    requires IsSection(run, env, json) && FitShape(env, shape, parts) && At(json, i, SectionsText(shape, parts))
    requires all == ts + NamedSections(shape, parts) && n == i + |SectionsText(shape, parts)|
    ensures CompactShape(run, i, shape, ts) == Ok((all, n))
    decreases |shape|
  {
    if shape == [] {
      assert ts + [] == ts;
    } else {
      var first := SectionText(shape[0].0, shape[0].1, parts[0]);
      var more, m := ts + Named(shape[0].1, parts[0]), i + |first|;
      FirstSectionText(json, i, shape, parts, ts, first);
      FirstSectionRead(run, env, json, i, shape[0], parts[0], ts, more, m);
      SectionsRead(run, env, json, m, shape[1..], parts[1..], more, all, n);
    }
  }

  lemma {:induction false} JoinSections(env: Env, json: string, i: nat, shape: seq<Part>, vals: seq<Token>,
                                        more: seq<seq<Token>>, parts: seq<seq<Token>>, m: nat)
    requires shape != [] && shape[0].1 != [] && parts == [vals] + more
    requires FitAll(env, shape[0].1, vals) && FitShape(env, shape[1..], more)
    requires At(json, i, SectionText(shape[0].0, shape[0].1, vals))
    requires m == i + |SectionText(shape[0].0, shape[0].1, vals)|
    requires At(json, m, SectionsText(shape[1..], more))
    ensures FitShape(env, shape, parts)
    ensures At(json, i, SectionsText(shape, parts))
    ensures i + |SectionsText(shape, parts)| == m + |SectionsText(shape[1..], more)|
    ensures NamedSections(shape, parts) == Named(shape[0].1, vals) + NamedSections(shape[1..], more)
  {
    assert parts[0] == vals && parts[1..] == more;
    forall k | 0 <= k < |shape| ensures shape[k].1 != [] && FitAll(env, shape[k].1, parts[k]) {
      if k > 0 { assert shape[k] == shape[1..][k - 1] && parts[k] == more[k - 1]; }
    }
    AtJoin(json, i, SectionText(shape[0].0, shape[0].1, vals), SectionsText(shape[1..], more));
  }

  lemma {:induction false} SectionsWritten(run: SectionRun, env: Env, json: string, i: nat, shape: seq<Part>,
                                           ts: Tokens, read: Tokens, n: nat) returns (parts: seq<seq<Token>>)
    requires IsSection(run, env, json) && i <= |json| && ValidShape(shape)
    requires CompactShape(run, i, shape, ts) == Ok((read, n))
    ensures FitShape(env, shape, parts) && At(json, i, SectionsText(shape, parts))
    ensures n == i + |SectionsText(shape, parts)|
    ensures read == ts + NamedSections(shape, parts)
    decreases |shape|
  {
    if shape == [] {
      parts := [];
      assert ts + [] == ts;
    } else {
      assert AskedPart(i, shape[0], ts);
      var (more, m) := run(i, shape[0], ts).value;
      var vals := SectionWritten(env, json, i, shape[0].0, shape[0].1, ts, more, m);
      var others := SectionsWritten(run, env, json, m, shape[1..], more, read, n);
      parts := [vals] + others;
      JoinSections(env, json, i, shape, vals, others, parts, m);
      ConcatAssoc(ts, Named(shape[0].1, vals), NamedSections(shape[1..], others));
    }
  }

  // ----- the whole text -----

  /** What a compact text says. */
  datatype Content = Content(id: string, sections: seq<seq<Token>>, last: Option<seq<Token>>)

  ghost predicate ContentFits(env: Env, shape: seq<Part>, keys: Keys, c: Content) {
    && Clean(c.id) && FitShape(env, shape, c.sections)
    && (c.last.Some? ==> FitAll(env, keys, c.last.value))
  }

  ghost predicate WellFormed(env: Env, c: Content) { ContentFits(env, ShapeOf(ORDER), KeysOf(Last), c) }

  function LastText(keys: Keys, last: Option<seq<Token>>): string
    requires keys != [] && (last.Some? ==> |keys| == |last.value|)
  {
    if last.None? then "null" else ObjectText(keys, last.value)
  }

  ghost function TextWith(first: string, shape: seq<Part>, lastKey: string, keys: Keys, c: Content): string
    requires SameShape(shape, c.sections) && keys != [] && (c.last.Some? ==> |keys| == |c.last.value|)
  {
    first + (Quoted(c.id) + (SectionsText(shape, c.sections) + ("," + (lastKey + (LastText(keys, c.last) + "}")))))
  }

  /** The text: no blanks, and all keys in their one order. */
  ghost function Render(env: Env, c: Content): string
    requires WellFormed(env, c)
  {
    TextWith("{" + Key("id"), ShapeOf(ORDER), Key(KeyOf(Last)), KeysOf(Last), c)
  }

  ghost function TokensWith(shape: seq<Part>, keys: Keys, c: Content): Tokens
    requires SameShape(shape, c.sections) && (c.last.Some? ==> |keys| == |c.last.value|)
  {
    NamedSections(shape, c.sections) + (if c.last.None? then [] else Named(keys, c.last.value))
  }

  ghost function TokensOf(env: Env, c: Content): Tokens
    requires WellFormed(env, c)
  {
    TokensWith(ShapeOf(ORDER), KeysOf(Last), c)
  }

  lemma NotNull(json: string, w: nat, text: string)
    requires At(json, w, "{" + text)
    ensures !At(json, w, "null")
  {
    FirstAt(json, w, "{" + text);
    if At(json, w, "null") { FirstAt(json, w, "null"); }
  }

  lemma EndRead(env: Env, json: string, w: nat, keys: Keys, last: Option<seq<Token>>, ts: Tokens, end: nat)
    requires keys != [] && (last.Some? ==> FitAll(env, keys, last.value)) && At(json, w, LastText(keys, last))
    requires end == w + |LastText(keys, last)| && At(json, end, "}") && end + 1 == |json|
    ensures CompactEnd(env, json, w, keys, ts) == Ok(ts + (if last.None? then [] else Named(keys, last.value)))
  {
    if last.Some? {
      NotNull(json, w, FieldsText(keys, last.value) + "}");
      ObjectRead(env, json, w, keys, last.value, ts, ts + Named(keys, last.value), end);
    } else {
      assert ts + [] == ts;
    }
  }

  lemma EndWritten(env: Env, json: string, w: nat, keys: Keys, ts: Tokens, all: Tokens)
    returns (last: Option<seq<Token>>, end: nat)
    requires keys != [] && CompactEnd(env, json, w, keys, ts) == Ok(all)
    ensures last.Some? ==> FitAll(env, keys, last.value)
    ensures At(json, w, LastText(keys, last)) && end == w + |LastText(keys, last)| && At(json, end, "}")
    ensures |json| == end + 1
    ensures all == ts + (if last.None? then [] else Named(keys, last.value))
  {
    if At(json, w, "null") {
      last, end := None, w + 4;
      assert ts + [] == ts;
    } else {
      var (read, n) := CompactObject(env, json, w, keys, ts).value;
      var vals := ObjectWritten(env, json, w, keys, ts, read, n);
      last, end := Some(vals), n;
    }
  }

  lemma {:induction false} FromParts(env: Env, json: string, first: string, last: string, keys: Keys,
                                     order: seq<Section>, v: nat, t: Token, b: nat, ts: Tokens, c: nat, w: nat,
                                     r: Result<Tokens>)
    requires keys != [] && Consume(json, 0, first) == Ok(v)
    requires CompactText(json, v) == Ok((t, b)) && CompactSections(env, json, b, order, []) == Ok((ts, c))
    requires Consume(json, c, ",") == Ok(c + 1) && Consume(json, c + 1, last) == Ok(w)
    requires CompactEnd(env, json, w, keys, ts) == r
    ensures CompactFrom(env, json, first, order, last, keys) == r
  {
  }

  lemma ConsumeAt(json: string, i: nat, s: string)
    requires At(json, i, s)
    ensures Consume(json, i, s) == Ok(i + |s|)
  {
  }

  /** Four texts, one behind the other. */
  lemma FourAt(json: string, i: nat, a: string, b: string, c: string, d: string)
    ensures At(json, i, a + (b + (c + d))) <==>
            At(json, i, a) && At(json, i + |a|, b) && At(json, i + |a| + |b|, c) && At(json, i + |a| + |b| + |c|, d)
  {
    if At(json, i, a + (b + (c + d))) {
      AtSum(json, i, a, b + (c + d));
      AtSum(json, i + |a|, b, c + d);
      AtSum(json, i + |a| + |b|, c, d);
    }
    if At(json, i, a) && At(json, i + |a|, b) && At(json, i + |a| + |b|, c) && At(json, i + |a| + |b| + |c|, d) {
      AtJoin(json, i + |a| + |b|, c, d);
      AtJoin(json, i + |a|, b, c + d);
      AtJoin(json, i, a, b + (c + d));
    }
  }

  lemma SevenAt(json: string, a: string, b: string, c: string, d: string, e: string, f: string, g: string, i: nat,
                j: nat, k: nat, l: nat)
    requires i == |a| + |b| && j == i + |c| && k == j + |d| + |e| && l == k + |f|
    ensures json == a + (b + (c + (d + (e + (f + g))))) <==>
            && At(json, 0, a) && At(json, |a|, b) && At(json, i, c) && At(json, j, d) && At(json, j + |d|, e)
            && At(json, k, f) && At(json, l, g) && |json| == l + |g|
  {
    var rest := d + (e + (f + g));
    FourAt(json, 0, a, b, c, rest);
    FourAt(json, j, d, e, f, g);
    Whole(json, a + (b + (c + rest)));
  }

  lemma Whole(json: string, s: string)
    ensures json == s <==> At(json, 0, s) && |json| == |s|
  {
    assert json[0..|json|] == json;
  }

  /** The parts of a text around its sections. */
  ghost predicate Around(json: string, first: string, id: string, lastKey: string, last: string, b: nat, d: nat, w: nat,
                         end: nat)
  {
    && b == |first| + |Quoted(id)| && w == d + 1 + |lastKey| && end == w + |last| && |json| == end + 1
    && At(json, 0, first) && At(json, |first|, Quoted(id)) && At(json, d, ",")
    && At(json, d + 1, lastKey) && At(json, w, last) && At(json, end, "}")
  }

  ghost predicate Laid(json: string, first: string, id: string, sections: string, lastKey: string, last: string, b: nat,
                       d: nat, w: nat, end: nat)
  {
    Around(json, first, id, lastKey, last, b, d, w, end) && d == b + |sections| && At(json, b, sections)
  }

  lemma LaidOut(json: string, first: string, id: string, sections: string, lastKey: string, last: string)
    returns (b: nat, d: nat, w: nat, end: nat)
    requires json == first + (Quoted(id) + (sections + ("," + (lastKey + (last + "}")))))
    ensures Laid(json, first, id, sections, lastKey, last, b, d, w, end)
  {
    b := |first| + |Quoted(id)|;
    d := b + |sections|;
    w := d + 1 + |lastKey|;
    end := w + |last|;
    SevenAt(json, first, Quoted(id), sections, ",", lastKey, last, "}", b, d, w, end);
  }

  lemma LaidJoins(json: string, first: string, id: string, sections: string, lastKey: string, last: string, b: nat,
                  d: nat, w: nat, end: nat)
    requires Laid(json, first, id, sections, lastKey, last, b, d, w, end)
    ensures json == first + (Quoted(id) + (sections + ("," + (lastKey + (last + "}")))))
  {
    SevenAt(json, first, Quoted(id), sections, ",", lastKey, last, "}", b, d, w, end);
  }

  lemma TextRead(env: Env, json: string, first: string, order: seq<Section>, shape: seq<Part>, lastKey: string,
                 keys: Keys, c: Content)
    requires keys != [] && shape == ShapeOf(order) && ContentFits(env, shape, keys, c)
    requires json == TextWith(first, shape, lastKey, keys, c)
    ensures CompactFrom(env, json, first, order, lastKey, keys) == Ok(TokensWith(shape, keys, c))
  {
    var sections, ts, last := SectionsText(shape, c.sections), NamedSections(shape, c.sections), LastText(keys, c.last);
    var b, d, w, end := LaidOut(json, first, c.id, sections, lastKey, last);
    OrderRead(env, json, b, order, shape, c.sections, ts, d);
    PartsRead(env, json, first, sections, lastKey, keys, c.id, c.last, last, order, ts, b, d, w, end);
  }

  /** The text read, when its sections are. */
  lemma {:induction false} PartsRead(env: Env, json: string, first: string, sections: string, lastKey: string,
                                     keys: Keys, id: string, last: Option<seq<Token>>, text: string,
                                     order: seq<Section>, ts: Tokens, b: nat, d: nat, w: nat, end: nat)
    requires keys != [] && Clean(id) && (last.Some? ==> FitAll(env, keys, last.value))
    requires text == LastText(keys, last) && Laid(json, first, id, sections, lastKey, text, b, d, w, end)
    requires CompactSections(env, json, b, order, []) == Ok((ts, d))
    ensures CompactFrom(env, json, first, order, lastKey, keys)
            == Ok(ts + (if last.None? then [] else Named(keys, last.value)))
  {
    LaidIsConsumed(json, first, id, sections, lastKey, text, b, d, w, end);
    EndRead(env, json, w, keys, last, ts, end);
    var all := ts + (if last.None? then [] else Named(keys, last.value));
    FromParts(env, json, first, lastKey, keys, order, |first|, Str(id), b, ts, d, w, Ok(all));
  }

  lemma LaidIsConsumed(json: string, first: string, id: string, sections: string, lastKey: string, last: string, b: nat,
                       d: nat, w: nat, end: nat)
    requires Laid(json, first, id, sections, lastKey, last, b, d, w, end) && Clean(id)
    ensures Consume(json, 0, first) == Ok(|first|) && CompactText(json, |first|) == Ok((Str(id), b))
    ensures Consume(json, d, ",") == Ok(d + 1) && Consume(json, d + 1, lastKey) == Ok(w)
  {
    ConsumeAt(json, 0, first);
    TextIff(json, |first|, id, b);
    ConsumeAt(json, d, ",");
    ConsumeAt(json, d + 1, lastKey);
  }

  lemma {:induction false} OrderRead(env: Env, json: string, b: nat, order: seq<Section>, shape: seq<Part>,
                                     parts: seq<seq<Token>>, ts: Tokens, d: nat)
    requires b <= |json| && shape == ShapeOf(order) && FitShape(env, shape, parts)
    requires At(json, b, SectionsText(shape, parts))
    requires ts == NamedSections(shape, parts) && d == b + |SectionsText(shape, parts)|
    ensures CompactSections(env, json, b, order, []) == Ok((ts, d))
  {
    assert [] + ts == ts;
    var run := SectionRunOf(env, json);
    ShapeOfSections(run, env, json, b, order, shape, []);
    SectionsRead(run, env, json, b, shape, parts, [], ts, d);
  }

  lemma OrderWritten(env: Env, json: string, b: nat, order: seq<Section>, shape: seq<Part>, ts: Tokens, d: nat)
    returns (parts: seq<seq<Token>>)
    requires b <= |json| && shape == ShapeOf(order) && CompactSections(env, json, b, order, []) == Ok((ts, d))
    ensures FitShape(env, shape, parts) && At(json, b, SectionsText(shape, parts))
    ensures ts == NamedSections(shape, parts) && d == b + |SectionsText(shape, parts)|
  {
    ShapesAreValid(order);
    var run := SectionRunOf(env, json);
    ShapeOfSections(run, env, json, b, order, shape, []);
    parts := SectionsWritten(run, env, json, b, shape, [], ts, d);
    var ns := NamedSections(shape, parts);
    assert [] + ns == ns;
  }

  /** What is read around the sections. */
  lemma PartsWritten(env: Env, json: string, first: string, lastKey: string, keys: Keys, order: seq<Section>,
                     all: Tokens)
    returns (id: string, b: nat, ts: Tokens, d: nat, w: nat, last: Option<seq<Token>>, end: nat)
    requires keys != [] && CompactFrom(env, json, first, order, lastKey, keys) == Ok(all)
    ensures b <= |json| && CompactSections(env, json, b, order, []) == Ok((ts, d)) && Clean(id)
    ensures last.Some? ==> FitAll(env, keys, last.value)
    ensures all == ts + (if last.None? then [] else Named(keys, last.value))
    ensures Around(json, first, id, lastKey, LastText(keys, last), b, d, w, end)
  {
    var v;
    v, b, ts, d, w := CompactSteps(env, json, first, order, lastKey, keys, all);
    id := CompactText(json, v).value.0.text;
    TextIff(json, v, id, b);
    HasIff(json, d, ',');
    last, end := EndWritten(env, json, w, keys, ts, all);
  }

  lemma TextWritten(env: Env, json: string, first: string, shape: seq<Part>, lastKey: string, keys: Keys,
                    order: seq<Section>, id: string, b: nat, ts: Tokens, d: nat, w: nat, last: Option<seq<Token>>,
                    end: nat)
    returns (c: Content)
    requires keys != [] && shape == ShapeOf(order) && b <= |json|
    requires CompactSections(env, json, b, order, []) == Ok((ts, d))
    requires Clean(id) && (last.Some? ==> FitAll(env, keys, last.value))
    requires Around(json, first, id, lastKey, LastText(keys, last), b, d, w, end)
    ensures ContentFits(env, shape, keys, c) && json == TextWith(first, shape, lastKey, keys, c)
    ensures TokensWith(shape, keys, c) == ts + (if last.None? then [] else Named(keys, last.value))
  {
    var parts := OrderWritten(env, json, b, order, shape, ts, d);
    c := Content(id, parts, last);
    LaidJoins(json, first, id, SectionsText(shape, parts), lastKey, LastText(keys, last), b, d, w, end);
  }

  ghost predicate IsTextOf(env: Env, json: string, first: string, shape: seq<Part>, lastKey: string, keys: Keys,
                           all: Tokens, c: Content)
    requires keys != []
  {
    ContentFits(env, shape, keys, c) && json == TextWith(first, shape, lastKey, keys, c)
      && all == TokensWith(shape, keys, c)
  }

  lemma FromIff(env: Env, json: string, first: string, order: seq<Section>, shape: seq<Part>, lastKey: string,
                keys: Keys, all: Tokens)
    requires keys != [] && shape == ShapeOf(order)
    ensures CompactFrom(env, json, first, order, lastKey, keys) == Ok(all) <==>
            exists c :: IsTextOf(env, json, first, shape, lastKey, keys, all, c)
  {
    if CompactFrom(env, json, first, order, lastKey, keys) == Ok(all) {
      var id, b, ts, d, w, last, end := PartsWritten(env, json, first, lastKey, keys, order, all);
      var c := TextWritten(env, json, first, shape, lastKey, keys, order, id, b, ts, d, w, last, end);
      assert IsTextOf(env, json, first, shape, lastKey, keys, all, c);
    }
    if c :| IsTextOf(env, json, first, shape, lastKey, keys, all, c) {
      TextRead(env, json, first, order, shape, lastKey, keys, c);
    }
  }

  /** The compact parser accepts exactly the rendered texts, and reads back what was rendered. */
  lemma CompactIff(env: Env, json: string, all: Tokens)
    ensures Compact(env, json) == Ok(all) <==>
            exists c :: WellFormed(env, c) && json == Render(env, c) && all == TokensOf(env, c)
  {
    var first, shape, lastKey, keys := "{" + Key("id"), ShapeOf(ORDER), Key(KeyOf(Last)), KeysOf(Last);
    FromIff(env, json, first, ORDER, shape, lastKey, keys, all);
    if c :| IsTextOf(env, json, first, shape, lastKey, keys, all, c) {
      assert WellFormed(env, c) && json == Render(env, c) && all == TokensOf(env, c);
    }
    if c :| WellFormed(env, c) && json == Render(env, c) && all == TokensOf(env, c) {
      assert IsTextOf(env, json, first, shape, lastKey, keys, all, c);
    }
  }

  // ----- texts that only one of the parsers accepts -----

  /** One object of a query whose numbers are all `amount`. */
  function SamplePart(sec: Section, amount: string, when: string, names: seq<string>): seq<Token> {
    match sec
    case Transaction => [Num(amount), Int("1"), Str(when)]
    case Customer => [Num(amount), Int("1"), Names(names)]
    case Merchant => [Str(""), Str(""), Num(amount)]
    case Terminal => [Flag(true), Flag(true), Num(amount)]
    case Last => []
  }

  /** A query whose numbers are all `amount`, without a last transaction. */
  function Sample(amount: string, when: string, names: seq<string>): Content {
    Content("", seq(4, k requires 0 <= k < 4 => SamplePart(ORDER[k], amount, when, names)), None)
  }

  ghost predicate IsSample(env: Env, amount: string, when: string, names: seq<string>) {
    NumberShape(amount) && env.fast(amount).Some? && Clean(when) && env.time(when).Ok? && AllClean(names)
  }

  lemma OneIsInt(one: string)
    requires one == "1"
    ensures IntShape(one)
  {
    assert SkipDigits(one, 1) == 1;
  }

  /** What the kinds of the three fields of an object are. */
  lemma KindsOf(sec: Section)
    requires sec != Last
    ensures var keys := KeysOf(sec);
            && |keys| == 3
            && (KindOf(keys[0].1), KindOf(keys[1].1), KindOf(keys[2].1)) ==
               match sec
               case Transaction => (NumberKind, IntKind, TimeKind)
               case Customer => (NumberKind, IntKind, ListKind)
               case Merchant => (TextKind, TextKind, NumberKind)
               case Terminal => (BoolKind, BoolKind, NumberKind)
  {
  }

  lemma FitThree(env: Env, keys: Keys, vals: seq<Token>)
    requires |keys| == |vals| == 3 && Fit(env, KindOf(keys[0].1), vals[0])
    requires Fit(env, KindOf(keys[1].1), vals[1]) && Fit(env, KindOf(keys[2].1), vals[2])
    ensures FitAll(env, keys, vals)
  {
  }

  lemma PartFits(env: Env, sec: Section, amount: string, when: string, names: seq<string>)
    requires IsSample(env, amount, when, names) && sec != Last
    ensures FitAll(env, KeysOf(sec), SamplePart(sec, amount, when, names))
  {
    OneIsInt("1");
    KindsOf(sec);
    FitThree(env, KeysOf(sec), SamplePart(sec, amount, when, names));
  }

  ghost predicate PlainPart(vals: seq<Token>) { forall j :: 0 <= j < |vals| ==> PlainToken(vals[j]) }

  lemma {:induction false} PartPlain(sec: Section, amount: string, when: string, names: seq<string>)
    requires sec != Last
    ensures PlainPart(SamplePart(sec, amount, when, names)) <==> !Dotted(amount) && (sec.Customer? ==> NoBracket(names))
  {
    var vals := SamplePart(sec, amount, when, names);
    assert PlainPart(vals) <==> PlainToken(vals[0]) && PlainToken(vals[1]) && PlainToken(vals[2]);
  }

  lemma {:induction false} SampleIsWellFormed(env: Env, amount: string, when: string, names: seq<string>, c: Content)
    requires IsSample(env, amount, when, names) && c == Sample(amount, when, names)
    ensures WellFormed(env, c)
    ensures (forall k :: 0 <= k < |c.sections| ==> PlainPart(c.sections[k])) <==> !Dotted(amount) && NoBracket(names)
  {
    forall k | 0 <= k < 4
      ensures FitAll(env, KeysOf(ORDER[k]), c.sections[k])
      ensures PlainPart(c.sections[k]) <==> !Dotted(amount) && (k == 1 ==> NoBracket(names))
    {
      PartFits(env, ORDER[k], amount, when, names);
      PartPlain(ORDER[k], amount, when, names);
    }
    assert PlainPart(c.sections[1]) <==> !Dotted(amount) && NoBracket(names);
  }

  lemma {:induction false} PlainParts(shape: seq<Part>, parts: seq<seq<Token>>)
    requires SameShape(shape, parts)
    ensures AllPlain(NamedSections(shape, parts)) <==> forall k :: 0 <= k < |parts| ==> PlainPart(parts[k])
  {
    if shape != [] {
      var first, rest := Named(shape[0].1, parts[0]), NamedSections(shape[1..], parts[1..]);
      PlainParts(shape[1..], parts[1..]);
      PlainSum(first, rest);
      PlainNamed(shape[0].1, parts[0]);
      assert forall k :: 1 <= k < |parts| ==> parts[k] == parts[1..][k - 1];
    }
  }

  lemma PlainSum(a: Tokens, b: Tokens)
    ensures AllPlain(a + b) <==> AllPlain(a) && AllPlain(b)
  {
    if AllPlain(a + b) {
      forall i | 0 <= i < |a| ensures PlainToken(a[i].1) { assert (a + b)[i] == a[i]; }
      forall i | 0 <= i < |b| ensures PlainToken(b[i].1) { assert (a + b)[|a| + i] == b[i]; }
    }
  }

  lemma PlainNamed(keys: Keys, vals: seq<Token>)
    requires |keys| == |vals|
    ensures AllPlain(Named(keys, vals)) <==> PlainPart(vals)
  {
    forall j | 0 <= j < |vals| ensures Named(keys, vals)[j].1 == vals[j] {}
  }

  /** The compact parser accepts the sample, and the single-pass parser exactly when its number
      does not begin with a dot and no name has a closing bracket. */
  lemma {:induction false} SampleText(env: Env, amount: string, when: string, names: seq<string>)
    requires IsSample(env, amount, when, names)
    ensures WellFormed(env, Sample(amount, when, names))
    ensures var json := Render(env, Sample(amount, when, names));
            Compact(env, json).Ok? && (SinglePass(env, json).Ok? <==> !Dotted(amount) && NoBracket(names))
  {
    var c := Sample(amount, when, names);
    SampleIsWellFormed(env, amount, when, names, c);
    PlainContent(env, c, TokensOf(env, c));
    RenderedIsRead(env, c, Render(env, c), TokensOf(env, c));
  }

  lemma PlainContent(env: Env, c: Content, all: Tokens)
    requires WellFormed(env, c) && c.last == None && all == TokensOf(env, c)
    ensures AllPlain(all) <==> forall k :: 0 <= k < |c.sections| ==> PlainPart(c.sections[k])
  {
    var shape := ShapeOf(ORDER);
    PlainParts(shape, c.sections);
    assert all == NamedSections(shape, c.sections);
  }

  lemma RenderedIsRead(env: Env, c: Content, json: string, all: Tokens)
    requires WellFormed(env, c) && json == Render(env, c) && all == TokensOf(env, c)
    ensures Compact(env, json) == Ok(all) && (SinglePass(env, json).Ok? <==> AllPlain(all))
  {
    CompactIff(env, json, all);
    ParsersAgree(env, json, all);
  }

  /** An amount `.5`, if it is a number, is read by one parser only. */
  lemma DottedIsRefused(env: Env, when: string)
    requires env.fast(".5").Some? && Clean(when) && env.time(when).Ok?
    ensures WellFormed(env, Sample(".5", when, []))
    ensures var json := Render(env, Sample(".5", when, [])); Compact(env, json).Ok? && SinglePass(env, json).Err?
  {
    var amount := ".5";
    assert DottedEnd(amount, 2, true, true) == Some(2);
    SampleText(env, amount, when, []);
  }

  /** So is the name `]`. */
  lemma BracketIsRefused(env: Env, when: string, names: seq<string>)
    requires env.fast("5").Some? && Clean(when) && env.time(when).Ok? && names == ["]"]
    ensures WellFormed(env, Sample("5", when, names))
    ensures var json := Render(env, Sample("5", when, names)); Compact(env, json).Ok? && SinglePass(env, json).Err?
  {
    var amount := "5";
    assert DottedEnd(amount, 1, false, true) == Some(1);
    SampleText(env, amount, when, names);
  }
}
