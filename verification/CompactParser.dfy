/**
 * The parser of the compact text: which texts it accepts, and that the single-pass parser
 * reads the same from them.
 */
module CompactParser {
  import opened Base
  import opened JsonScan
  import opened QueryParsers
  import Calendar

  function Key(k: string): string { "\"" + k + "\":" }

  // ----- tokens -----

  /** No quote and no escape. */
  predicate Clean(s: string) { forall i :: 0 <= i < |s| ==> s[i] != '"' && s[i] != '\\' }

  // ----- the readers, as functions of the position -----

  function Consume(json: string, i: nat, expected: string): Result<nat> {
    if At(json, i, expected) then Ok(i + |expected|) else Err(INVALID_FORMAT)
  }

  /** The next quote, unless an escape comes first. */
  function CleanEnd(json: string, j: nat): (r: Option<nat>)
    ensures r.Some? ==> j <= r.value < |json| && json[r.value] == '"'
    decreases |json| - j
  {
    if j >= |json| || json[j] == '\\' then None else if json[j] == '"' then Some(j) else CleanEnd(json, j + 1)
  }

  function CompactString(json: string, i: nat): (r: Result<(string, nat)>)
    ensures r.Ok? ==> i < r.value.1 <= |json|
  {
    var end :- Or(CleanEnd(json, i), INVALID_FORMAT);
    Ok((json[i..end], end + 1))
  }

  function DottedEnd(json: string, j: nat, seenDot: bool, seenDigit: bool): (r: Option<nat>)
    ensures r.Some? ==> j <= r.value && (j <= |json| ==> r.value <= |json|)
    decreases |json| - j
  {
    if j < |json| && IsDigit(json[j]) then DottedEnd(json, j + 1, seenDot, true)
    else if j < |json| && json[j] == '.' && !seenDot then DottedEnd(json, j + 1, true, seenDigit)
    else if seenDigit then Some(j)
    else None
  }

  function CompactNumber(env: Env, json: string, i: nat): (r: Result<(string, nat)>)
    requires i <= |json|
    ensures r.Ok? ==> i <= r.value.1 <= |json|
  {
    var end :- Or(DottedEnd(json, SkipSign(json, i), false, false), INVALID_VALUE);
    if env.fast(json[i..end]).None? then Err(INVALID_VALUE) else Ok((json[i..end], end))
  }

  function CompactInt(json: string, i: nat): (r: Result<(string, nat)>)
    requires i <= |json|
    ensures r.Ok? ==> i <= r.value.1 <= |json|
  {
    var digits := if i < |json| && json[i] == '-' then i + 1 else i;
    var end := SkipDigits(json, digits);
    if end == digits then Err(INVALID_VALUE) else Ok((json[i..end], end))
  }

  function CompactBool(json: string, i: nat): (r: Result<(bool, nat)>)
    ensures r.Ok? ==> i <= r.value.1 <= |json|
  {
    if At(json, i, "true") then Ok((true, i + 4))
    else if At(json, i, "false") then Ok((false, i + 5))
    else Err(INVALID_VALUE)
  }

  /** A list that is not empty, from its first quote. */
  function CompactList(json: string, i: nat): (r: Result<(seq<string>, nat)>)
    ensures r.Ok? ==> i <= r.value.1 <= |json|
    decreases |json| - i
  {
    var at :- Consume(json, i, "\"");
    var (name, next) :- CompactString(json, at);
    if Has(json, next, ',') then
      var (more, end) :- CompactList(json, next + 1);
      Ok(([name] + more, end))
    else if Has(json, next, ']') then Ok(([name], next + 1))
    else Err(INVALID_FORMAT)
  }

  function CompactMerchants(json: string, i: nat): (r: Result<(seq<string>, nat)>)
    ensures r.Ok? ==> i <= r.value.1 <= |json|
  {
    var at :- Consume(json, i, "[");
    if Has(json, at, ']') then Ok(([], at + 1)) else CompactList(json, at)
  }

  // ----- the readers, as loops -----

  method ReadCompactString(json: string, i: nat) returns (r: Result<(string, nat)>)
    ensures r == CompactString(json, i)
  {
    var j := i;
    while j < |json|
      invariant i <= j && CleanEnd(json, i) == CleanEnd(json, j)
    {
      if json[j] == '"' { return Ok((json[i..j], j + 1)); }
      if json[j] == '\\' { return Err(INVALID_FORMAT); }
      j := j + 1;
    }
    r := Err(INVALID_FORMAT);
  }

  method ReadCompactNumber(env: Env, json: string, start: nat) returns (r: Result<(string, nat)>)
    requires start <= |json|
    ensures r == CompactNumber(env, json, start)
  {
    var i := start;
    if i < |json| && (json[i] == '-' || json[i] == '+') { i := i + 1; }
    var seenDot, seenDigit := false, false;
    while i < |json|
      invariant start <= i <= |json|
      invariant DottedEnd(json, SkipSign(json, start), false, false) == DottedEnd(json, i, seenDot, seenDigit)
    {
      if IsDigit(json[i]) {
        seenDigit, i := true, i + 1;
      } else if json[i] == '.' && !seenDot {
        seenDot, i := true, i + 1;
      } else {
        break;
      }
    }
    if !seenDigit { return Err(INVALID_VALUE); }
    if env.fast(json[start..i]).None? { return Err(INVALID_VALUE); }
    r := Ok((json[start..i], i));
  }

  function QuotedName(json: string, i: nat): (r: Result<(string, nat)>)
    ensures r.Ok? ==> i < r.value.1 <= |json|
  {
    var at :- Consume(json, i, "\"");
    CompactString(json, at)
  }

  method ReadQuotedName(json: string, i: nat) returns (r: Result<(string, nat)>)
    ensures r == QuotedName(json, i)
  {
    var at :- Consume(json, i, "\"");
    r := ReadCompactString(json, at);
  }

  method ReadCompactMerchants(json: string, start: nat) returns (r: Result<(seq<string>, nat)>)
    ensures r == CompactMerchants(json, start)
  {
    var i :- Consume(json, start, "[");
    if Has(json, i, ']') { return Ok(([], i + 1)); }
    var names: seq<string> := [];
    PrependNothing(CompactList(json, i));
    while true
      invariant ReadTo(json, start, i, names)
      decreases |json| - i
    {
      OneCompactName(json, start, i, names);
      var read :- ReadQuotedName(json, i);
      var name, next := read.0, read.1;
      if !Has(json, next, ',') {
        return if Has(json, next, ']') then Ok((names + [name], next + 1)) else Err(INVALID_FORMAT);
      }
      names, i := names + [name], next + 1;
    }
  }

  ghost predicate ReadTo(json: string, start: nat, i: nat, names: seq<string>) {
    start < i <= |json| && CompactMerchants(json, start) == Prepend(names, CompactList(json, i))
  }

  /** One more name: the list goes on, or ends here, or fails here. */
  lemma {:induction false} OneCompactName(json: string, start: nat, i: nat, names: seq<string>)
    requires ReadTo(json, start, i, names)
    ensures match QuotedName(json, i)
            case Err(e) => CompactMerchants(json, start) == Err(e)
            case Ok((name, next)) =>
              if Has(json, next, ',') then ReadTo(json, start, next + 1, names + [name])
              else CompactMerchants(json, start)
                   == if Has(json, next, ']') then Ok((names + [name], next + 1)) else Err(INVALID_FORMAT)
  {
    var r := QuotedName(json, i);
    ListUnfolds(json, i, r);
    if r.Ok? && Has(json, r.value.1, ',') {
      PrependOne(names, r.value.0, CompactList(json, r.value.1 + 1));
    }
  }

  lemma {:induction false} ListUnfolds(json: string, i: nat, r: Result<(string, nat)>)
    requires r == QuotedName(json, i)
    ensures CompactList(json, i) ==
            match r
            case Err(e) => Err(e)
            case Ok((name, next)) =>
              if Has(json, next, ',') then Prepend([name], CompactList(json, next + 1))
              else if Has(json, next, ']') then Ok(([name], next + 1)) else Err(INVALID_FORMAT)
  {
  }

  ghost function Prepend(names: seq<string>, rest: Result<(seq<string>, nat)>): Result<(seq<string>, nat)> {
    if rest.Err? then rest else Ok((names + rest.value.0, rest.value.1))
  }

  lemma PrependNothing(rest: Result<(seq<string>, nat)>)
    ensures Prepend([], rest) == rest
  {
    if rest.Ok? { assert [] + rest.value.0 == rest.value.0; }
  }

  lemma PrependOne(names: seq<string>, name: string, rest: Result<(seq<string>, nat)>)
    ensures Prepend(names, Prepend([name], rest)) == Prepend(names + [name], rest)
  {
    if rest.Ok? { ConcatAssoc(names, [name], rest.value.0); }
  }

  // ----- the parser -----

  /** What is read for a field. */
  datatype Token =
    | Num(text: string) | Int(text: string) | Flag(value: bool) | Str(text: string) | Names(names: seq<string>)

  type Tokens = seq<(FieldName, Token)>

  datatype Kind = NumberKind | IntKind | BoolKind | TextKind | TimeKind | ListKind

  function KindOf(name: FieldName): Kind {
    match name
    case Amount | CustomerAvg | MerchantAvg | KmFromHome | KmFromCurrent => NumberKind
    case Installments | TxCount => IntKind
    case IsOnline | CardPresent => BoolKind
    case MerchantId | Mcc => TextKind
    case RequestedAt | Timestamp => TimeKind
    case KnownMerchants => ListKind
  }

  /** The value of a field, from behind its key. */
  function CompactValue(env: Env, json: string, v: nat, kind: Kind): (r: Result<(Token, nat)>)
    requires v <= |json|
    ensures r.Ok? ==> v <= r.value.1 <= |json|
  {
    match kind
    case NumberKind =>
      var (t, n) :- CompactNumber(env, json, v);
      Ok((Num(t), n))
    case IntKind =>
      var (t, n) :- CompactInt(json, v);
      Ok((Int(t), n))
    case BoolKind =>
      var (b, n) :- CompactBool(json, v);
      Ok((Flag(b), n))
    case TextKind => CompactText(json, v)
    case TimeKind =>
      var (t, n) :- CompactText(json, v);
      var _ :- env.time(t.text);
      Ok((t, n))
    case ListKind =>
      var (names, n) :- CompactMerchants(json, v);
      Ok((Names(names), n))
  }

  function CompactText(json: string, v: nat): (r: Result<(Token, nat)>)
    ensures r.Ok? ==> r.value.0.Str? && v <= r.value.1 <= |json|
  {
    var at :- Consume(json, v, "\"");
    var (t, n) :- CompactString(json, at);
    Ok((Str(t), n))
  }

  /** The keys of an object, in the order of the compact text. */
  function KeysOf(sec: Section): (keys: seq<(string, FieldName)>)
    ensures keys != []
  {
    match sec
    case Transaction => [("amount", Amount), ("installments", Installments), ("requested_at", RequestedAt)]
    case Customer => [("avg_amount", CustomerAvg), ("tx_count_24h", TxCount), ("known_merchants", KnownMerchants)]
    case Merchant => [("id", MerchantId), ("mcc", Mcc), ("avg_amount", MerchantAvg)]
    case Terminal => [("is_online", IsOnline), ("card_present", CardPresent), ("km_from_home", KmFromHome)]
    case Last => [("timestamp", Timestamp), ("km_from_current", KmFromCurrent)]
  }

  function KeyOf(sec: Section): string {
    match sec
    case Transaction => "transaction"
    case Customer => "customer"
    case Merchant => "merchant"
    case Terminal => "terminal"
    case Last => "last_transaction"
  }

  const ORDER := [Transaction, Customer, Merchant, Terminal]

  /** The fields of an object, with commas between them; their tokens go behind `ts`. */
  function CompactFields(env: Env, json: string, i: nat, keys: seq<(string, FieldName)>, ts: Tokens):
    (r: Result<(Tokens, nat)>)
    requires keys != []
    ensures r.Ok? ==> r.value.1 <= |json|
    decreases |keys|, 1
  {
    var v :- Consume(json, i, Key(keys[0].0));
    FieldsBehind(env, json, keys, ts, CompactValue(env, json, v, KindOf(keys[0].1)))
  }

  /** The rest of them, when the value of the first has been read. */
  function FieldsBehind(env: Env, json: string, keys: seq<(string, FieldName)>, ts: Tokens,
                        first: Result<(Token, nat)>): (r: Result<(Tokens, nat)>)
    requires keys != [] && (first.Ok? ==> first.value.1 <= |json|)
    ensures r.Ok? ==> r.value.1 <= |json|
    decreases |keys|, 0
  {
    var (t, n) :- first;
    if |keys| == 1 then Ok((ts + [(keys[0].1, t)], n))
    else
      var next :- Consume(json, n, ",");
      CompactFields(env, json, next, keys[1..], ts + [(keys[0].1, t)])
  }

  function CompactObject(env: Env, json: string, i: nat, keys: seq<(string, FieldName)>, ts: Tokens):
    (r: Result<(Tokens, nat)>)
    requires keys != []
    ensures r.Ok? ==> r.value.1 <= |json|
  {
    var o :- Consume(json, i, "{");
    var (read, n) :- CompactFields(env, json, o, keys, ts);
    var end :- Consume(json, n, "}");
    Ok((read, end))
  }

  /** An object with its key, behind a comma. */
  function CompactSection(env: Env, json: string, i: nat, key: string, keys: seq<(string, FieldName)>, ts: Tokens):
    (r: Result<(Tokens, nat)>)
    requires keys != []
    ensures r.Ok? ==> r.value.1 <= |json|
  {
    var k :- Consume(json, i, ",");
    var v :- Consume(json, k, Key(key));
    CompactObject(env, json, v, keys, ts)
  }

  function CompactSections(env: Env, json: string, i: nat, secs: seq<Section>, ts: Tokens): (r: Result<(Tokens, nat)>)
    requires i <= |json|
    ensures r.Ok? ==> r.value.1 <= |json|
    decreases |secs|
  {
    if secs == [] then Ok((ts, i))
    else
      var (read, n) :- CompactSection(env, json, i, KeyOf(secs[0]), KeysOf(secs[0]), ts);
      CompactSections(env, json, n, secs[1..], read)
  }

  /** The last transaction, behind its key, and the end of the text. */
  function CompactEnd(env: Env, json: string, w: nat, keys: seq<(string, FieldName)>, ts: Tokens): Result<Tokens>
    requires keys != []
  {
    var (all, end) :- if At(json, w, "null") then Ok((ts, w + 4)) else CompactObject(env, json, w, keys, ts);
    var n :- Consume(json, end, "}");
    if n != |json| then Err(INVALID_FORMAT) else Ok(all)
  }

  function CompactFrom(env: Env, json: string, first: string, order: seq<Section>, last: string,
                       keys: seq<(string, FieldName)>): Result<Tokens>
    requires keys != []
  {
    var v :- Consume(json, 0, first);
    var (_, b) :- CompactText(json, v);
    var (ts, c) :- CompactSections(env, json, b, order, []);
    var k :- Consume(json, c, ",");
    var w :- Consume(json, k, last);
    CompactEnd(env, json, w, keys, ts)
  }

  /** `try_parse_compact_ordered`: the tokens of the text, if it has the one form accepted. */
  function Compact(env: Env, json: string): Result<Tokens> {
    CompactFrom(env, json, "{" + Key("id"), ORDER, Key(KeyOf(Last)), KeysOf(Last))
  }

  // ----- what the tokens stand for -----

  function TextOf(t: Token): string { if t.Num? || t.Int? || t.Str? then t.text else "" }

  function TimeOf(env: Env, t: Token): Option<Calendar.DateTime> {
    if env.time(TextOf(t)).Ok? then Some(env.time(TextOf(t)).value) else None
  }

  function Put(env: Env, f: Fields, name: FieldName, t: Token): Fields {
    match name
    case Amount => f.(amount := env.fast(TextOf(t)))
    case Installments => f.(installments := Some(env.integer(TextOf(t))))
    case RequestedAt => f.(requested := TimeOf(env, t))
    case CustomerAvg => f.(customerAvg := env.fast(TextOf(t)))
    case TxCount => f.(txCount := Some(env.integer(TextOf(t))))
    case KnownMerchants => f.(known := Some(Hashed(env, if t.Names? then t.names else [])))
    case MerchantId => f.(merchant := Some(env.hash(TextOf(t))))
    case Mcc => f.(mcc := Some(env.risk(TextOf(t))))
    case MerchantAvg => f.(merchantAvg := env.fast(TextOf(t)))
    case IsOnline => f.(online := Some(t == Flag(true)))
    case CardPresent => f.(card := Some(t == Flag(true)))
    case KmFromHome => f.(km := env.fast(TextOf(t)))
    case Timestamp => f.(lastMinute := if TimeOf(env, t).Some? then Some(TimeOf(env, t).value.epochMinute) else None)
    case KmFromCurrent => f.(lastKm := env.fast(TextOf(t)))
  }

  function PutAll(env: Env, f: Fields, ts: Tokens): Fields {
    if ts == [] then f else Put(env, PutAll(env, f, ts[..|ts| - 1]), ts[|ts| - 1].0, ts[|ts| - 1].1)
  }

  /** The fields of a compact text. */
  function FieldsOf(env: Env, ts: Tokens): Fields { PutAll(env, NOTHING_READ.(last := true), ts) }

  /** What the single-pass parser insists on beyond the compact form: a number that does not
      begin with a dot, and merchant names without a closing bracket. */
  predicate PlainToken(t: Token) {
    match t
    case Num(text) => !Dotted(text)
    case Names(names) => NoBracket(names)
    case _ => true
  }

  predicate AllPlain(ts: Tokens) { forall i :: 0 <= i < |ts| ==> PlainToken(ts[i].1) }

  // ----- which fields there are -----

  predicate Present(f: Fields, name: FieldName) {
    match name
    case Amount => f.amount.Some?
    case Installments => f.installments.Some?
    case RequestedAt => f.requested.Some?
    case CustomerAvg => f.customerAvg.Some?
    case TxCount => f.txCount.Some?
    case KnownMerchants => f.known.Some?
    case MerchantId => f.merchant.Some?
    case Mcc => f.mcc.Some?
    case MerchantAvg => f.merchantAvg.Some?
    case IsOnline => f.online.Some?
    case CardPresent => f.card.Some?
    case KmFromHome => f.km.Some?
    case Timestamp => f.lastMinute.Some?
    case KmFromCurrent => f.lastKm.Some?
  }

  /** A token that stands for something. */
  predicate Good(env: Env, name: FieldName, t: Token) { Present(Put(env, NOTHING_READ, name, t), name) }

  predicate AllGood(env: Env, ts: Tokens) { forall i :: 0 <= i < |ts| ==> Good(env, ts[i].0, ts[i].1) }

  function FieldNames(ts: Tokens): seq<FieldName> { seq(|ts|, i requires 0 <= i < |ts| => ts[i].0) }

  function KeyNames(keys: seq<(string, FieldName)>): seq<FieldName> {
    seq(|keys|, i requires 0 <= i < |keys| => keys[i].1)
  }

  function NamesIn(secs: seq<Section>): seq<FieldName> {
    if secs == [] then [] else KeyNames(KeysOf(secs[0])) + NamesIn(secs[1..])
  }

  /** Tokens with these names, each standing for something, have been read behind `ts`. */
  ghost predicate Extends(env: Env, ts: Tokens, read: Tokens, names: seq<FieldName>) {
    ts <= read && FieldNames(read) == FieldNames(ts) + names && (AllGood(env, ts) ==> AllGood(env, read))
  }

  lemma OneToken(env: Env, json: string, v: nat, ts: Tokens, name: FieldName, t: Token, n: nat)
    requires v <= |json| && CompactValue(env, json, v, KindOf(name)) == Ok((t, n))
    ensures Extends(env, ts, ts + [(name, t)], [name])
  {
    assert Good(env, name, t);
  }

  lemma ExtendsTwice(env: Env, a: Tokens, b: Tokens, c: Tokens, m: seq<FieldName>, n: seq<FieldName>)
    requires Extends(env, a, b, m) && Extends(env, b, c, n)
    ensures Extends(env, a, c, m + n)
  {
  }

  lemma {:induction false} FieldsUnfold(env: Env, json: string, i: nat, keys: seq<(string, FieldName)>, ts: Tokens,
                                        v: nat, first: Result<(Token, nat)>)
    requires keys != [] && CompactFields(env, json, i, keys, ts).Ok? && v == i + |Key(keys[0].0)|
    requires v <= |json| && first == CompactValue(env, json, v, KindOf(keys[0].1))
    ensures first.Ok? && CompactFields(env, json, i, keys, ts) == FieldsBehind(env, json, keys, ts, first)
  {
  }

  lemma {:induction false} BehindFirst(env: Env, json: string, keys: seq<(string, FieldName)>, ts: Tokens, t: Token,
                                       n: nat)
    requires keys != [] && n <= |json| && FieldsBehind(env, json, keys, ts, Ok((t, n))).Ok?
    ensures |keys| > 1 ==> Has(json, n, ',')
    ensures FieldsBehind(env, json, keys, ts, Ok((t, n)))
            == if |keys| == 1 then Ok((ts + [(keys[0].1, t)], n))
               else CompactFields(env, json, n + 1, keys[1..], ts + [(keys[0].1, t)])
  {
    if |keys| > 1 { FirstAt(json, n, ","); }
  }

  /** The first of the fields, and where the next one begins. */
  lemma FirstField(env: Env, json: string, i: nat, keys: seq<(string, FieldName)>, ts: Tokens)
    returns (v: nat, t: Token, n: nat)
    requires keys != [] && CompactFields(env, json, i, keys, ts).Ok?
    ensures At(json, i, Key(keys[0].0)) && i <= v == i + |Key(keys[0].0)| <= |json|
    ensures CompactValue(env, json, v, KindOf(keys[0].1)) == Ok((t, n))
    ensures |keys| == 1 ==> CompactFields(env, json, i, keys, ts) == Ok((ts + [(keys[0].1, t)], n))
    ensures |keys| > 1 ==>
              Has(json, n, ',') && CompactFields(env, json, i, keys, ts)
                == CompactFields(env, json, n + 1, keys[1..], ts + [(keys[0].1, t)])
  {
    v := i + |Key(keys[0].0)|;
    assert At(json, i, Key(keys[0].0));
    var first := CompactValue(env, json, v, KindOf(keys[0].1));
    FieldsUnfold(env, json, i, keys, ts, v, first);
    t, n := first.value.0, first.value.1;
    BehindFirst(env, json, keys, ts, t, n);
  }

  lemma KeyNamesFirst(keys: seq<(string, FieldName)>)
    requires keys != []
    ensures KeyNames(keys) == [keys[0].1] + KeyNames(keys[1..]) && (|keys| == 1 ==> KeyNames(keys) == [keys[0].1])
  {
  }

  lemma FirstExtends(env: Env, json: string, i: nat, keys: seq<(string, FieldName)>, ts: Tokens)
    returns (more: Tokens, next: nat)
    requires keys != [] && CompactFields(env, json, i, keys, ts).Ok?
    ensures Extends(env, ts, more, [keys[0].1])
    ensures |keys| == 1 ==> CompactFields(env, json, i, keys, ts) == Ok((more, next))
    ensures |keys| > 1 ==> CompactFields(env, json, i, keys, ts) == CompactFields(env, json, next, keys[1..], more)
  {
    var v, t, m := FirstField(env, json, i, keys, ts);
    OneToken(env, json, v, ts, keys[0].1, t, m);
    more, next := ts + [(keys[0].1, t)], if |keys| == 1 then m else m + 1;
  }

  lemma {:induction false} FieldsExtend(env: Env, json: string, i: nat, keys: seq<(string, FieldName)>, ts: Tokens,
                                        read: Tokens, n: nat)
    requires keys != [] && CompactFields(env, json, i, keys, ts) == Ok((read, n))
    ensures Extends(env, ts, read, KeyNames(keys))
    decreases |keys|
  {
    var more, next := FirstExtends(env, json, i, keys, ts);
    KeyNamesFirst(keys);
    if |keys| > 1 {
      FieldsExtend(env, json, next, keys[1..], more, read, n);
      ExtendsTwice(env, ts, more, read, [keys[0].1], KeyNames(keys[1..]));
    }
  }

  lemma ObjectExtends(env: Env, json: string, i: nat, keys: seq<(string, FieldName)>, ts: Tokens, read: Tokens,
                      end: nat)
    requires keys != [] && CompactObject(env, json, i, keys, ts) == Ok((read, end))
    ensures Extends(env, ts, read, KeyNames(keys))
  {
    FieldsExtend(env, json, i + 1, keys, ts, read, end - 1);
  }

  lemma SectionParts(env: Env, json: string, i: nat, key: string, v: nat, keys: seq<(string, FieldName)>, ts: Tokens,
                     read: Tokens, n: nat)
    requires keys != [] && CompactSection(env, json, i, key, keys, ts) == Ok((read, n)) && v == i + 1 + |Key(key)|
    ensures At(json, i, ",") && At(json, i + 1, Key(key)) && CompactObject(env, json, v, keys, ts) == Ok((read, n))
  {
    assert Consume(json, i, ",") == Ok(i + 1) && Consume(json, i + 1, Key(key)) == Ok(v);
  }

  lemma {:induction false} SectionsExtend(env: Env, json: string, i: nat, secs: seq<Section>, ts: Tokens, read: Tokens,
                                          n: nat)
    requires i <= |json| && CompactSections(env, json, i, secs, ts) == Ok((read, n))
    ensures Extends(env, ts, read, NamesIn(secs))
    decreases |secs|
  {
    if secs == [] {
      assert FieldNames(ts) + NamesIn(secs) == FieldNames(ts);
    } else {
      var key, keys := KeyOf(secs[0]), KeysOf(secs[0]);
      var v := i + 1 + |Key(key)|;
      var (more, m) := CompactSection(env, json, i, key, keys, ts).value;
      SectionParts(env, json, i, key, v, keys, ts, more, m);
      ObjectExtends(env, json, v, keys, ts, more, m);
      SectionsExtend(env, json, m, secs[1..], more, read, n);
      ExtendsTwice(env, ts, more, read, KeyNames(keys), NamesIn(secs[1..]));
    }
  }

  // ----- one field, in both parsers -----

  predicate EndsField(json: string, n: nat) { Has(json, n, ',') || Has(json, n, '}') }

  lemma {:induction false} CleanStringEnds(json: string, j: nat, end: nat)
    requires CleanEnd(json, j) == Some(end)
    ensures StringEnd(json, j, false) == Some(end + 1) && Clean(json[j..end])
    decreases |json| - j
  {
    if j < end {
      CleanStringEnds(json, j + 1, end);
      assert json[j..end] == [json[j]] + json[j + 1..end];
    }
  }

  lemma {:induction false} CleanEndAt(json: string, j: nat, s: string)
    requires At(json, j, s) && Clean(s) && Has(json, j + |s|, '"')
    ensures CleanEnd(json, j) == Some(j + |s|)
    decreases |s|
  {
    if s != "" {
      FirstAt(json, j, s);
      assert s == [s[0]] + s[1..];
      AtSum(json, j, [s[0]], s[1..]);
      CleanEndAt(json, j + 1, s[1..]);
    }
  }

  lemma {:induction false} KeyIsRead(json: string, i: nat, k: string, v: nat)
    requires At(json, i, Key(k)) && Clean(k) && v == i + |Key(k)| < |json| && !IsWs(json[v])
    ensures SkipWs(json, i) == i && !Has(json, i, '}') && ReadKey(json, i) == Ok((k, v))
  {
    AtSum(json, i, "\"" + k, "\":");
    AtSum(json, i, "\"", k);
    FirstAt(json, i, "\"");
    FirstAt(json, i + 1 + |k|, "\":");
    assert json[i + 1 + |k|..v][1] == json[i + 2 + |k|];
    CleanEndAt(json, i + 1, k);
    CleanStringEnds(json, i + 1, i + 1 + |k|);
    assert json[i + 1..i + 1 + |k|] == k;
  }

  /** The value at `v` ends at `n`, where the field ends. */
  predicate ValueEnds(json: string, v: nat, n: nat) {
    v < |json| && !IsWs(json[v]) && SkipAt(json, v) == Some(n) && EndsField(json, n)
  }

  /** The field that ends at `n` is followed by the position `next`. */
  predicate Continues(json: string, n: nat, next: nat) {
    next <= |json| && next == if Has(json, n, ',') then n + 1 else n
  }

  lemma {:induction false} EntryIsRead(env: Env, json: string, i: nat, sec: Section, k: string, name: FieldName, v: nat,
                                       n: nat, next: nat, f: Fields, f': Fields)
    requires i <= |json| && ReadKey(json, i) == Ok((k, v)) && NameOf(sec, k) == Some(name)
    requires ReadNamed(env, json, name, v, f) == Ok(f') && SkipValue(json, v) == Some(n) && SkipComma(json, n) == next
    ensures ReadEntry(env, json, i, sec, f) == Ok((f', next))
  {
  }

  lemma {:induction false} EntryThenRest(env: Env, json: string, i: nat, sec: Section, f: Fields, f': Fields, next: nat)
    requires i <= |json| && SkipWs(json, i) == i && !Has(json, i, '}')
    requires ReadEntry(env, json, i, sec, f) == Ok((f', next))
    ensures ReadObject(env, json, i, sec, f) == ReadObject(env, json, next, sec, f')
  {
  }

  /** One round of the object loop. */
  lemma {:induction false} FieldIsRead(env: Env, json: string, i: nat, sec: Section, k: string, name: FieldName, v: nat,
                                       n: nat, next: nat, f: Fields, f': Fields)
    requires i <= |json| && At(json, i, Key(k)) && Clean(k) && v == i + |Key(k)| && Continues(json, n, next)
    requires NameOf(sec, k) == Some(name) && ValueEnds(json, v, n) && ReadNamed(env, json, name, v, f) == Ok(f')
    ensures ReadObject(env, json, i, sec, f) == ReadObject(env, json, next, sec, f')
  {
    KeyIsRead(json, i, k, v);
    assert SkipWs(json, v) == v && SkipWs(json, n) == n;
    EntryIsRead(env, json, i, sec, k, name, v, n, next, f, f');
    EntryThenRest(env, json, i, sec, f, f', next);
  }

  lemma {:induction false} FieldFails(env: Env, json: string, i: nat, sec: Section, k: string, name: FieldName, v: nat,
                                      f: Fields)
    requires i <= |json| && At(json, i, Key(k)) && Clean(k) && v == i + |Key(k)| < |json| && !IsWs(json[v])
    requires NameOf(sec, k) == Some(name) && (ReadNamed(env, json, name, v, f).Err? || SkipAt(json, v).None?)
    ensures ReadObject(env, json, i, sec, f).Err?
  {
    KeyIsRead(json, i, k, v);
    assert SkipWs(json, v) == v;
  }

  lemma {:induction false} ObjectEnds(env: Env, json: string, i: nat, sec: Section, f: Fields)
    requires Has(json, i, '}')
    ensures ReadObject(env, json, i, sec, f) == Ok((f, i + 1))
  {
  }

  /** A key that the parser of section `sec` knows. */
  predicate Known(sec: Section, k: string, name: FieldName) { Clean(k) && NameOf(sec, k) == Some(name) }

  // ----- values, in both parsers -----

  lemma {:induction false} SameSpan(json: string, start: nat, j: nat, seenDot: bool, seenDigit: bool, end: nat)
    requires DottedEnd(json, j, seenDot, seenDigit) == Some(end) && EndsField(json, end)
    requires start <= j && (j == start ==> !Has(json, j, '-') && !Has(json, j, '+'))
    ensures Mantissa(json, j, seenDot, seenDigit) == Some(end) && DoubleEnd(json, start, j, seenDot, seenDigit) == end
    decreases |json| - j
  {
    if j < |json| {
      if IsDigit(json[j]) {
        SameSpan(json, start, j + 1, seenDot, true, end);
      } else if json[j] == '.' && !seenDot {
        SameSpan(json, start, j + 1, true, seenDigit, end);
      }
    }
  }

  lemma {:induction false} SpanNotEmpty(json: string, j: nat, seenDot: bool, end: nat)
    requires DottedEnd(json, j, seenDot, false) == Some(end)
    ensures j < end && j < |json| && (IsDigit(json[j]) || json[j] == '.')
  {
  }

  /** A number token is read alike by both; only one that begins with a dot is not skipped. */
  lemma NumberAgrees(env: Env, json: string, v: nat, t: string, n: nat)
    requires v <= |json| && CompactNumber(env, json, v) == Ok((t, n)) && EndsField(json, n)
    ensures v < |json| && !IsWs(json[v]) && Dotted(t) == (json[v] == '.') && env.fast(t).Some?
    ensures ReadDouble(env, json, v) == Ok(env.fast(t).value)
    ensures if Dotted(t) then SkipAt(json, v).None? else ValueEnds(json, v, n)
  {
    var j := SkipSign(json, v);
    SpanNotEmpty(json, j, false, n);
    SameSpan(json, v, j, false, false, n);
    assert DoubleEnd(json, v, v, false, false) == n;
    assert json[v..n][0] == json[v];
  }

  predicate Dotted(token: string) { token != "" && token[0] == '.' }

  lemma IntAgrees(env: Env, json: string, v: nat, t: string, n: nat)
    requires v <= |json| && CompactInt(json, v) == Ok((t, n)) && EndsField(json, n)
    ensures ValueEnds(json, v, n) && ReadInt(env, json, v) == Ok(env.integer(t))
  {
    var digits := if Has(json, v, '-') then v + 1 else v;
    DigitsSpan(json, digits);
  }

  lemma {:induction false} DigitsAreMantissa(json: string, j: nat, seenDigit: bool)
    requires EndsField(json, SkipDigits(json, j))
    ensures Mantissa(json, j, false, seenDigit)
            == if seenDigit || SkipDigits(json, j) > j then Some(SkipDigits(json, j)) else None
    decreases |json| - j
  {
    if j < |json| && IsDigit(json[j]) { DigitsAreMantissa(json, j + 1, true); }
  }

  lemma {:induction false} DigitsSpan(json: string, j: nat)
    requires EndsField(json, SkipDigits(json, j)) && SkipDigits(json, j) > j
    ensures Mantissa(json, j, false, false) == Some(SkipDigits(json, j)) && j < |json| && IsDigit(json[j])
  {
    DigitsAreMantissa(json, j, false);
  }

  lemma BoolAgrees(json: string, v: nat, b: bool, n: nat)
    requires CompactBool(json, v) == Ok((b, n)) && EndsField(json, n)
    ensures ValueEnds(json, v, n) && ReadBool(json, v) == Ok(b)
  {
    FirstAt(json, v, if At(json, v, "true") then "true" else "false");
  }

  /** A string without escapes, `v` being its opening quote. */
  lemma StringAgrees(json: string, v: nat, s: string, n: nat)
    requires Has(json, v, '"') && CompactString(json, v + 1) == Ok((s, n))
    ensures SkipAt(json, v) == Some(n) && ReadString(json, v) == Ok(s) && !IsWs(json[v])
  {
    CleanStringEnds(json, v + 1, n - 1);
  }

  // ----- the merchant list, in both parsers -----

  predicate NoBracket(names: seq<string>) { names == [] || (']' !in names[0] && NoBracket(names[1..])) }

  // The reader of a list, named so that a proof need not look into it at every step.

  type ListRun = nat -> Result<(seq<string>, nat)>

  ghost predicate AskedList(i: nat) { true }

  ghost predicate IsList(run: ListRun, json: string) {
    forall i: nat {:trigger AskedList(i)} :: AskedList(i) ==> run(i) == CompactList(json, i)
  }

  lemma ListRunOf(json: string) returns (run: ListRun)
    ensures IsList(run, json)
  {
    run := (i: nat) => CompactList(json, i);
  }

  lemma QuotedParts(json: string, i: nat, name: string, next: nat)
    requires QuotedName(json, i) == Ok((name, next))
    ensures Has(json, i, '"') && i + 1 < next <= |json| && Has(json, next - 1, '"')
    ensures name == json[i + 1..next - 1] && Clean(name) && SkipString(json, i) == Some(next)
  {
    FirstAt(json, i, "\"");
    StringAgrees(json, i, name, next);
    CleanStringEnds(json, i + 1, next - 1);
  }

  lemma {:induction false} ListStep(json: string, i: nat, names: seq<string>, n: nat)
    returns (name: string, next: nat, more: seq<string>)
    requires CompactList(json, i) == Ok((names, n))
    ensures QuotedName(json, i) == Ok((name, next))
    ensures if Has(json, next, ',') then CompactList(json, next + 1) == Ok((more, n)) && names == [name] + more
            else Has(json, next, ']') && names == [name] && n == next + 1
  {
    var r := QuotedName(json, i);
    ListUnfolds(json, i, r);
    name, next := r.value.0, r.value.1;
    more := [];
    if Has(json, next, ',') {
      var rest := CompactList(json, next + 1);
      more := rest.value.0;
    }
  }

  /** The first string of a list, from the quote at `i` to the one before `next`, and the rest. */
  lemma FirstName(run: ListRun, json: string, i: nat, names: seq<string>, n: nat)
    returns (name: string, next: nat, more: seq<string>)
    requires IsList(run, json) && run(i) == Ok((names, n))
    ensures Has(json, i, '"') && i + 1 < next <= |json| && Has(json, next - 1, '"')
    ensures name == json[i + 1..next - 1] && Clean(name) && SkipString(json, i) == Some(next)
    ensures if Has(json, next, ',') then run(next + 1) == Ok((more, n)) && names == [name] + more
            else Has(json, next, ']') && names == [name] && n == next + 1
  {
    assert AskedList(i);
    name, next, more := ListStep(json, i, names, n);
    assert AskedList(next + 1);
    QuotedParts(json, i, name, next);
  }

  lemma {:induction false} StringNests(json: string, i: nat, next: nat)
    requires Has(json, i, '"') && SkipString(json, i) == Some(next) && i < next
    ensures Nested(json, i, 1, '[', ']') == Nested(json, next, 1, '[', ']')
  {
  }

  lemma CommaNests(json: string, i: nat)
    requires Has(json, i, ',')
    ensures Nested(json, i, 1, '[', ']') == Nested(json, i + 1, 1, '[', ']')
  {
  }

  lemma {:induction false} BracketNests(json: string, i: nat)
    requires Has(json, i, ']')
    ensures Nested(json, i, 1, '[', ']') == Some(i + 1)
  {
    assert Nested(json, i + 1, 0, '[', ']') == Some(i + 1);
  }

  lemma {:induction false} ListNests(run: ListRun, json: string, i: nat, names: seq<string>, n: nat)
    requires IsList(run, json) && run(i) == Ok((names, n))
    ensures Nested(json, i, 1, '[', ']') == Some(n) && i < n <= |json| && json[n - 1] == ']'
    decreases |json| - i
  {
    var name, next, more := FirstName(run, json, i, names, n);
    StringNests(json, i, next);
    if Has(json, next, ',') {
      ListNests(run, json, next + 1, more, n);
      CommaNests(json, next);
    } else {
      BracketNests(json, next);
    }
  }

  /** A name before the bracket at `end` is found, and the search goes on behind it. */
  lemma NameIsFound(json: string, i: nat, close: nat, end: nat)
    requires Has(json, i, '"') && Has(json, close, '"') && i < close < end <= |json| && Clean(json[i + 1..close])
    ensures MerchantsIn(json, i, end) == After([json[i + 1..close]], MerchantsIn(json, close + 1, end))
  {
    assert forall k :: i + 1 <= k < close ==> json[k] == json[i + 1..close][k - i - 1];
    PositionSkips(json, '"', i + 1, close, end);
  }

  lemma CommaSkips(json: string, i: nat, end: nat)
    requires Has(json, i, ',') && i < end <= |json|
    ensures MerchantsIn(json, i, end) == MerchantsIn(json, i + 1, end)
  {
  }

  lemma BracketBehind(json: string, i: nat, close: nat)
    requires Has(json, i, '"') && Has(json, close, '"') && i < close && ']' !in json[i + 1..close]
    ensures Position(json, ']', i, |json|) == Position(json, ']', close + 1, |json|)
  {
    assert forall k :: i + 1 <= k < close ==> json[k] == json[i + 1..close][k - i - 1];
    PositionSkips(json, ']', i, close + 1, |json|);
  }

  lemma {:induction false} BracketInside(json: string, i: nat, close: nat)
    requires Has(json, i, '"') && Has(json, close, '"') && i < close && Clean(json[i + 1..close])
    requires ']' in json[i + 1..close]
    ensures Position(json, ']', i, |json|).Some? && i < Position(json, ']', i, |json|).value < close
    ensures MerchantsIn(json, i, Position(json, ']', i, |json|).value).Err?
  {
    var name := json[i + 1..close];
    var k :| 0 <= k < |name| && name[k] == ']';
    assert json[i + 1 + k] == ']';
    PositionIsFirst(json, ']', i, |json|);
    var end := Position(json, ']', i, |json|).value;
    assert forall k :: i + 1 <= k < end ==> json[k] == name[k - i - 1];
    PositionSkips(json, '"', i + 1, end, end);
  }

  /** Looking for the first closing bracket finds the end of the list exactly when no name
      has one in it; otherwise the search stops inside a name and fails. */
  predicate SearchedTo(json: string, i: nat, names: seq<string>, n: nat) {
    && i < n <= |json| && Position(json, ']', i, |json|).Some?
    && Outcome(names, n, Position(json, ']', i, |json|).value,
      MerchantsIn(json, i, Position(json, ']', i, |json|).value))
  }

  predicate Outcome(names: seq<string>, n: nat, end: nat, found: Result<seq<string>>) {
    if NoBracket(names) then end == n - 1 && found == Ok(names) else found.Err?
  }

  lemma OutcomeOfMore(name: string, more: seq<string>, n: nat, end: nat, rest: Result<seq<string>>)
    requires Outcome(more, n, end, rest) && ']' !in name
    ensures Outcome([name] + more, n, end, After([name], rest))
  {
    var names := [name] + more;
    assert names[0] == name && names[1..] == more;
  }

  lemma LastName(json: string, i: nat, close: nat)
    requires Has(json, i, '"') && Has(json, close, '"') && i < close && Clean(json[i + 1..close])
    requires Has(json, close + 1, ']')
    requires ']' !in json[i + 1..close]
    ensures SearchedTo(json, i, [json[i + 1..close]], close + 2)
  {
    var name := json[i + 1..close];
    BracketBehind(json, i, close);
    NameIsFound(json, i, close, close + 1);
    assert MerchantsIn(json, close + 1, close + 1) == Ok([]);
    var names := [name];
    assert names[0] == name && names[1..] == [] && names + [] == names;
    assert NoBracket(names);
  }

  lemma BracketBehindComma(json: string, i: nat, close: nat)
    requires Has(json, i, '"') && Has(json, close, '"') && i < close && Has(json, close + 1, ',')
    requires ']' !in json[i + 1..close]
    ensures Position(json, ']', i, |json|) == Position(json, ']', close + 2, |json|)
  {
    BracketBehind(json, i, close);
    PositionSkips(json, ']', close + 1, close + 2, |json|);
  }

  lemma NameThenComma(json: string, i: nat, close: nat, end: nat)
    requires Has(json, i, '"') && Has(json, close, '"') && i < close && Clean(json[i + 1..close])
    requires Has(json, close + 1, ',')
    requires close + 2 <= end <= |json|
    ensures MerchantsIn(json, i, end) == After([json[i + 1..close]], MerchantsIn(json, close + 2, end))
  {
    NameIsFound(json, i, close, end);
    CommaSkips(json, close + 1, end);
  }

  lemma OneMoreName(json: string, i: nat, close: nat, more: seq<string>, n: nat)
    requires Has(json, i, '"') && Has(json, close, '"') && i < close && Clean(json[i + 1..close])
    requires Has(json, close + 1, ',')
    requires ']' !in json[i + 1..close] && SearchedTo(json, close + 2, more, n)
    ensures SearchedTo(json, i, [json[i + 1..close]] + more, n)
  {
    var name, end := json[i + 1..close], Position(json, ']', close + 2, |json|).value;
    BracketBehindComma(json, i, close);
    NameThenComma(json, i, close, end);
    OutcomeOfMore(name, more, n, end, MerchantsIn(json, close + 2, end));
  }

  lemma NameWithBracket(json: string, i: nat, close: nat, names: seq<string>, n: nat)
    requires Has(json, i, '"') && Has(json, close, '"') && i < close && Clean(json[i + 1..close])
    requires ']' in json[i + 1..close]
    requires i < n <= |json| && names != [] && names[0] == json[i + 1..close]
    ensures SearchedTo(json, i, names, n)
  {
    BracketInside(json, i, close);
  }

  lemma {:induction false} ListAgrees(run: ListRun, json: string, i: nat, names: seq<string>, n: nat)
    requires IsList(run, json) && run(i) == Ok((names, n)) && i < n <= |json|
    ensures SearchedTo(json, i, names, n)
    decreases |json| - i
  {
    var name, next, more := FirstName(run, json, i, names, n);
    if ']' in name {
      NameWithBracket(json, i, next - 1, names, n);
    } else if Has(json, next, ',') {
      ListNests(run, json, next + 1, more, n);
      ListAgrees(run, json, next + 1, more, n);
      OneMoreName(json, i, next - 1, more, n);
    } else {
      LastName(json, i, next - 1);
    }
  }

  lemma {:induction false} MerchantsAgree(env: Env, json: string, v: nat, names: seq<string>, n: nat)
    requires CompactMerchants(json, v) == Ok((names, n)) && EndsField(json, n)
    ensures ValueEnds(json, v, n)
    ensures if NoBracket(names) then ReadMerchants(env, json, v) == Ok(Hashed(env, names))
            else ReadMerchants(env, json, v).Err?
  {
    FirstAt(json, v, "[");
    if Has(json, v + 1, ']') {
      EmptyList(env, json, v);
    } else {
      var run := ListRunOf(json);
      assert AskedList(v + 1);
      ListNests(run, json, v + 1, names, n);
      ListAgrees(run, json, v + 1, names, n);
      ListSkips(json, v, n);
      FullList(env, json, v, names, n);
    }
  }

  lemma {:induction false} ListSkips(json: string, v: nat, n: nat)
    requires Has(json, v, '[') && Nested(json, v + 1, 1, '[', ']') == Some(n)
    ensures SkipAt(json, v) == Some(n) && !IsWs(json[v])
  {
  }

  lemma {:induction false} FullList(env: Env, json: string, v: nat, names: seq<string>, n: nat)
    requires Has(json, v, '[') && SearchedTo(json, v + 1, names, n)
    ensures if NoBracket(names) then ReadMerchants(env, json, v) == Ok(Hashed(env, names))
            else ReadMerchants(env, json, v).Err?
  {
    SearchBehindOpening(json, v);
  }

  lemma EmptyList(env: Env, json: string, v: nat)
    requires Has(json, v, '[') && Has(json, v + 1, ']')
    ensures SkipAt(json, v) == Some(v + 2) && ReadMerchants(env, json, v) == Ok(Hashed(env, []))
  {
    assert Nested(json, v + 2, 0, '[', ']') == Some(v + 2);
    assert Position(json, ']', v + 1, |json|) == Some(v + 1);
    assert MerchantsIn(json, v + 1, v + 1) == Ok([]);
  }

  lemma SearchBehindOpening(json: string, v: nat)
    requires Has(json, v, '[')
    ensures Position(json, ']', v, |json|) == Position(json, ']', v + 1, |json|)
  {
  }

  // ----- one object, in both parsers -----

  /** Reading a value: alike when its token is plain, and otherwise refused by the other parser. */
  predicate Alike(env: Env, json: string, v: nat, name: FieldName, t: Token, n: nat, f: Fields)
    requires v <= |json|
  {
    && v < |json| && !IsWs(json[v])
    && (PlainToken(t) ==> ValueEnds(json, v, n) && ReadNamed(env, json, name, v, f) == Ok(Put(env, f, name, t)))
    && (!PlainToken(t) ==> ReadNamed(env, json, name, v, f).Err? || SkipAt(json, v).None?)
  }

  lemma TextAlike(env: Env, json: string, v: nat, name: FieldName, text: string, n: nat, f: Fields)
    requires v <= |json| && CompactValue(env, json, v, KindOf(name)) == Ok((Str(text), n)) && EndsField(json, n)
    ensures Alike(env, json, v, name, Str(text), n, f)
  {
    FirstAt(json, v, "\"");
    StringAgrees(json, v, text, n);
  }

  lemma NumberAlike(env: Env, json: string, v: nat, name: FieldName, text: string, n: nat, f: Fields)
    requires v <= |json| && CompactValue(env, json, v, KindOf(name)) == Ok((Num(text), n)) && EndsField(json, n)
    ensures Alike(env, json, v, name, Num(text), n, f)
  {
    NumberAgrees(env, json, v, text, n);
  }

  lemma ValueAgrees(env: Env, json: string, v: nat, name: FieldName, t: Token, n: nat, f: Fields)
    requires v <= |json| && CompactValue(env, json, v, KindOf(name)) == Ok((t, n)) && EndsField(json, n)
    ensures Alike(env, json, v, name, t, n, f)
  {
    match t
    case Num(text) => NumberAlike(env, json, v, name, text, n, f);
    case Int(text) => IntAgrees(env, json, v, text, n);
    case Flag(b) => BoolAgrees(json, v, b, n);
    case Str(text) => TextAlike(env, json, v, name, text, n, f);
    case Names(names) => MerchantsAgree(env, json, v, names, n);
  }

  // The loop of one object, named so that a proof need not look into it at every step.

  type ObjectLoop = (nat, Fields) -> Result<(Fields, nat)>

  ghost predicate Asked(i: nat, f: Fields) { true }

  ghost predicate IsLoop(run: ObjectLoop, env: Env, json: string, sec: Section) {
    forall i: nat, f: Fields {:trigger Asked(i, f)} :: Asked(i, f) && i <= |json| ==>
      run(i, f) == ReadObject(env, json, i, sec, f)
  }

  lemma LoopOf(env: Env, json: string, sec: Section) returns (run: ObjectLoop)
    ensures IsLoop(run, env, json, sec)
  {
    run := (i: nat, f: Fields) => if i <= |json| then ReadObject(env, json, i, sec, f) else Err(INVALID_FORMAT);
  }

  /** The fields after the tokens, named for the same reason. */
  type Reading = Tokens -> Fields

  ghost predicate Shown(ts: Tokens) { true }

  ghost predicate IsReading(g: Reading, env: Env, f: Fields) {
    forall ts: Tokens {:trigger Shown(ts)} :: Shown(ts) ==> g(ts) == PutAll(env, f, ts)
  }

  lemma ReadingOf(env: Env, f: Fields) returns (g: Reading)
    ensures IsReading(g, env, f)
  {
    g := (ts: Tokens) => PutAll(env, f, ts);
  }

  /** One field: its key, its value, and a comma unless it is the last. */
  lemma FieldAgrees(run: ObjectLoop, g: Reading, env: Env, json: string, i: nat, sec: Section, k: string,
                    name: FieldName, v: nat, t: Token, n: nat, next: nat, ts: Tokens, f: Fields)
    requires IsLoop(run, env, json, sec) && IsReading(g, env, f)
    requires At(json, i, Key(k)) && Known(sec, k, name) && i <= v == i + |Key(k)| <= |json| && Continues(json, n, next)
    requires CompactValue(env, json, v, KindOf(name)) == Ok((t, n)) && EndsField(json, n)
    ensures PlainToken(t) ==> run(i, g(ts)) == run(next, g(ts + [(name, t)]))
    ensures !PlainToken(t) ==> run(i, g(ts)).Err?
  {
    var before, after := PutAll(env, f, ts), Put(env, PutAll(env, f, ts), name, t);
    PutOneMore(env, f, ts, name, t);
    assert Shown(ts) && Shown(ts + [(name, t)]);
    assert Asked(i, before) && Asked(next, after);
    ValueAgrees(env, json, v, name, t, n, before);
    if PlainToken(t) {
      FieldIsRead(env, json, i, sec, k, name, v, n, next, before, after);
    } else {
      FieldFails(env, json, i, sec, k, name, v, before);
    }
  }

  lemma LoopEnds(run: ObjectLoop, env: Env, json: string, i: nat, sec: Section, f: Fields)
    requires IsLoop(run, env, json, sec) && Has(json, i, '}')
    ensures run(i, f) == Ok((f, i + 1))
  {
    ObjectEnds(env, json, i, sec, f);
    assert Asked(i, f);
  }

  lemma {:induction false} PutOneMore(env: Env, f: Fields, ts: Tokens, name: FieldName, t: Token)
    ensures PutAll(env, f, ts + [(name, t)]) == Put(env, PutAll(env, f, ts), name, t)
  {
    assert (ts + [(name, t)])[..|ts|] == ts;
  }

  lemma PlainOneMore(ts: Tokens, name: FieldName, t: Token)
    ensures AllPlain(ts + [(name, t)]) <==> AllPlain(ts) && PlainToken(t)
  {
    var more := ts + [(name, t)];
    assert more[|ts|] == (name, t);
    if AllPlain(more) { forall i | 0 <= i < |ts| ensures PlainToken(ts[i].1) { assert more[i] == ts[i]; } }
  }

  lemma {:induction false} FieldsAgree(run: ObjectLoop, g: Reading, env: Env, json: string, i: nat, sec: Section,
                                       keys: seq<(string, FieldName)>, ts: Tokens, read: Tokens, n: nat, f: Fields)
    requires IsLoop(run, env, json, sec) && IsReading(g, env, f)
    requires AllKnown(sec, keys) && AllPlain(ts)
    requires CompactFields(env, json, i, keys, ts) == Ok((read, n)) && Has(json, n, '}')
    ensures AllPlain(read) ==> run(i, g(ts)) == Ok((g(read), n + 1))
    ensures !AllPlain(read) ==> run(i, g(ts)).Err?
    decreases |keys|
  {
    var k, name := keys[0].0, keys[0].1;
    var v, t, m := FirstField(env, json, i, keys, ts);
    var more := ts + [(name, t)];
    var next := if |keys| == 1 then m else m + 1;
    PlainOneMore(ts, name, t);
    FieldAgrees(run, g, env, json, i, sec, k, name, v, t, m, next, ts, f);
    if |keys| == 1 {
      LoopEnds(run, env, json, n, sec, g(read));
    } else if AllPlain(more) {
      FieldsAgree(run, g, env, json, next, sec, keys[1..], more, read, n, f);
    } else {
      FieldsExtend(env, json, next, keys[1..], more, read, n);
      NotPlain(more, read);
    }
  }

  lemma NotPlain(ts: Tokens, read: Tokens)
    requires ts <= read && !AllPlain(ts)
    ensures !AllPlain(read)
  {
    var j :| 0 <= j < |ts| && !PlainToken(ts[j].1);
    assert read[j] == ts[j];
  }

  ghost predicate AllKnown(sec: Section, keys: seq<(string, FieldName)>) {
    keys != [] && forall j :: 0 <= j < |keys| ==> Known(sec, keys[j].0, keys[j].1)
  }

  lemma TransactionKnown()
    ensures AllKnown(Transaction, KeysOf(Transaction))
  {
    assert Known(Transaction, "amount", Amount) && Known(Transaction, "installments", Installments);
    assert Known(Transaction, "requested_at", RequestedAt);
  }

  lemma CustomerKnown()
    ensures AllKnown(Customer, KeysOf(Customer))
  {
    assert Known(Customer, "avg_amount", CustomerAvg) && Known(Customer, "tx_count_24h", TxCount);
    assert Known(Customer, "known_merchants", KnownMerchants);
  }

  lemma MerchantKnown()
    ensures AllKnown(Merchant, KeysOf(Merchant))
  {
    assert Known(Merchant, "id", MerchantId) && Known(Merchant, "mcc", Mcc)
      && Known(Merchant, "avg_amount", MerchantAvg);
  }

  lemma TerminalKnown()
    ensures AllKnown(Terminal, KeysOf(Terminal))
  {
    assert Known(Terminal, "is_online", IsOnline) && Known(Terminal, "card_present", CardPresent);
    assert Known(Terminal, "km_from_home", KmFromHome);
  }

  lemma LastKnown()
    ensures AllKnown(Last, KeysOf(Last))
  {
    assert Known(Last, "timestamp", Timestamp) && Known(Last, "km_from_current", KmFromCurrent);
  }

  lemma KeysKnown(sec: Section)
    ensures AllKnown(sec, KeysOf(sec))
  {
    match sec
    case Transaction => TransactionKnown();
    case Customer => CustomerKnown();
    case Merchant => MerchantKnown();
    case Terminal => TerminalKnown();
    case Last => LastKnown();
  }

  /** One object, from its opening to its closing brace. */
  lemma {:induction false} ObjectAgrees(env: Env, json: string, i: nat, sec: Section, keys: seq<(string, FieldName)>,
                                        ts: Tokens, read: Tokens, end: nat, f: Fields)
    requires AllKnown(sec, keys) && CompactObject(env, json, i, keys, ts) == Ok((read, end)) && AllPlain(ts)
    ensures Has(json, i, '{')
    ensures AllPlain(read) ==> ReadObject(env, json, i + 1, sec, PutAll(env, f, ts)) == Ok((PutAll(env, f, read), end))
    ensures !AllPlain(read) ==> ReadObject(env, json, i + 1, sec, PutAll(env, f, ts)).Err?
  {
    var run := LoopOf(env, json, sec);
    var g := ReadingOf(env, f);
    EntriesAgree(run, g, env, json, i, sec, keys, ts, read, end, f);
    assert Asked(i + 1, PutAll(env, f, ts)) && Shown(ts) && Shown(read);
  }

  lemma {:induction false} EntriesAgree(run: ObjectLoop, g: Reading, env: Env, json: string, i: nat, sec: Section,
                                        keys: seq<(string, FieldName)>, ts: Tokens, read: Tokens, end: nat, f: Fields)
    requires IsLoop(run, env, json, sec) && IsReading(g, env, f) && AllKnown(sec, keys) && AllPlain(ts)
    requires CompactObject(env, json, i, keys, ts) == Ok((read, end))
    ensures Has(json, i, '{')
    ensures AllPlain(read) ==> run(i + 1, g(ts)) == Ok((g(read), end))
    ensures !AllPlain(read) ==> run(i + 1, g(ts)).Err?
  {
    ObjectParts(env, json, i, keys, ts, read, end);
    FieldsAgree(run, g, env, json, i + 1, sec, keys, ts, read, end - 1, f);
  }

  lemma {:induction false} ObjectParts(env: Env, json: string, i: nat, keys: seq<(string, FieldName)>, ts: Tokens,
                                       read: Tokens, end: nat)
    requires keys != [] && CompactObject(env, json, i, keys, ts) == Ok((read, end))
    ensures Has(json, i, '{') && 0 < end && CompactFields(env, json, i + 1, keys, ts) == Ok((read, end - 1))
    ensures Has(json, end - 1, '}')
  {
    FirstAt(json, i, "{");
    FirstAt(json, end - 1, "}");
  }

  // ----- the outermost object, in both parsers -----

  lemma {:induction false} MemberThenRest(env: Env, json: string, i: nat, k: string, v: nat, end: nat, next: nat,
                                          f: Fields, f': Fields)
    requires i < |json| && SkipWs(json, i) == i && json[i] != '}' && ReadKey(json, i) == Ok((k, v))
    requires ReadTopValue(env, json, k, v, f) == Ok((f', end)) && SkipComma(json, end) == next
    ensures ReadTop(env, json, i, f) == ReadTop(env, json, next, f')
  {
  }

  /** One round of the outermost loop. */
  lemma {:induction false} TopIsRead(env: Env, json: string, i: nat, k: string, v: nat, end: nat, next: nat, f: Fields,
                                     f': Fields)
    requires i <= |json| && At(json, i, Key(k)) && Clean(k) && v == i + |Key(k)| < |json| && !IsWs(json[v])
    requires ReadTopValue(env, json, k, v, f) == Ok((f', end)) && EndsField(json, end) && Continues(json, end, next)
    ensures ReadTop(env, json, i, f) == ReadTop(env, json, next, f')
  {
    KeyIsRead(json, i, k, v);
    FirstAt(json, i, Key(k));
    assert SkipWs(json, end) == end;
    MemberThenRest(env, json, i, k, v, end, next, f, f');
  }

  lemma {:induction false} TopFails(env: Env, json: string, i: nat, k: string, v: nat, f: Fields)
    requires i <= |json| && At(json, i, Key(k)) && Clean(k) && v == i + |Key(k)| < |json| && !IsWs(json[v])
    requires ReadTopValue(env, json, k, v, f).Err?
    ensures ReadTop(env, json, i, f).Err?
  {
    KeyIsRead(json, i, k, v);
    FirstAt(json, i, Key(k));
  }

  lemma SectionKeys(sec: Section)
    ensures Clean(KeyOf(sec)) && SectionOf(KeyOf(sec)) == (if sec == Last then None else Some(sec))
  {
  }

  // The outermost loop, named for the same reason.

  type TopLoop = (nat, Fields) -> Result<Fields>

  ghost predicate IsTop(top: TopLoop, env: Env, json: string) {
    forall i: nat, f: Fields {:trigger Asked(i, f)} :: Asked(i, f) && i <= |json| ==>
      top(i, f) == ReadTop(env, json, i, f)
  }

  lemma TopOf(env: Env, json: string) returns (top: TopLoop)
    ensures IsTop(top, env, json)
  {
    top := (i: nat, f: Fields) => if i <= |json| then ReadTop(env, json, i, f) else Err(INVALID_FORMAT);
  }

  /** One of the first four objects, which a comma follows. */
  lemma {:induction false} SectionAgrees(top: TopLoop, env: Env, json: string, i: nat, key: string, sec: Section,
                                         keys: seq<(string, FieldName)>, ts: Tokens, read: Tokens, n: nat, f: Fields)
    requires IsTop(top, env, json) && Clean(key) && SectionOf(key) == Some(sec) && AllKnown(sec, keys)
    requires CompactSection(env, json, i, key, keys, ts) == Ok((read, n)) && AllPlain(ts) && Has(json, n, ',')
    ensures AllPlain(read) ==> top(i + 1, PutAll(env, f, ts)) == top(n + 1, PutAll(env, f, read))
    ensures !AllPlain(read) ==> top(i + 1, PutAll(env, f, ts)).Err?
  {
    var v, before, after := i + 1 + |Key(key)|, PutAll(env, f, ts), PutAll(env, f, read);
    SectionParts(env, json, i, key, v, keys, ts, read, n);
    ObjectAgrees(env, json, v, sec, keys, ts, read, n, f);
    assert Asked(i + 1, before) && Asked(n + 1, after);
    if AllPlain(read) {
      TopIsRead(env, json, i + 1, key, v, n, n + 1, before, after);
    } else {
      TopFails(env, json, i + 1, key, v, before);
    }
  }

  /** Whether or not an object follows, there is a comma. */
  lemma {:induction false} CommaNext(env: Env, json: string, i: nat, secs: seq<Section>, ts: Tokens)
    requires i <= |json| && CompactSections(env, json, i, secs, ts).Ok?
    requires Has(json, CompactSections(env, json, i, secs, ts).value.1, ',')
    ensures Has(json, i, ',')
  {
    if secs != [] {
      assert At(json, i, ",");
      FirstAt(json, i, ",");
    }
  }

  lemma {:induction false} SectionsAgree(top: TopLoop, env: Env, json: string, i: nat, secs: seq<Section>, ts: Tokens,
                                         read: Tokens, n: nat, f: Fields)
    requires IsTop(top, env, json) && Last !in secs && AllPlain(ts)
    requires i <= |json| && CompactSections(env, json, i, secs, ts) == Ok((read, n)) && Has(json, n, ',')
    ensures AllPlain(read) ==> top(i + 1, PutAll(env, f, ts)) == top(n + 1, PutAll(env, f, read))
    ensures !AllPlain(read) ==> top(i + 1, PutAll(env, f, ts)).Err?
    decreases |secs|
  {
    if secs != [] {
      var sec, rest := secs[0], secs[1..];
      var (more, m) := CompactSection(env, json, i, KeyOf(sec), KeysOf(sec), ts).value;
      SectionKeys(sec);
      KeysKnown(sec);
      CommaNext(env, json, m, rest, more);
      SectionAgrees(top, env, json, i, KeyOf(sec), sec, KeysOf(sec), ts, more, m, f);
      if AllPlain(more) {
        SectionsAgree(top, env, json, m, rest, more, read, n, f);
      } else {
        SectionsExtend(env, json, m, rest, more, read, n);
        NotPlain(more, read);
      }
    }
  }

  lemma {:induction false} LastIsKept(env: Env, f: Fields, ts: Tokens)
    ensures PutAll(env, f, ts).(last := true) == PutAll(env, f.(last := true), ts)
  {
    if ts != [] { LastIsKept(env, f, ts[..|ts| - 1]); }
  }

  lemma {:induction false} NullAgrees(env: Env, json: string, w: nat, ts: Tokens, f: Fields)
    requires At(json, w, "null") && Has(json, w + 4, '}') && f == PutAll(env, NOTHING_READ, ts)
    ensures ReadLast(env, json, w, f) == Ok((FieldsOf(env, ts), w + 4)) && w < |json| && !IsWs(json[w])
  {
    LastIsKept(env, NOTHING_READ, ts);
    FirstAt(json, w, "null");
  }

  lemma {:induction false} LastObject(env: Env, json: string, keys: seq<(string, FieldName)>, w: nat, ts: Tokens,
                                      all: Tokens, f: Fields, end: nat)
    requires AllKnown(Last, keys) && f == PutAll(env, NOTHING_READ, ts) && AllPlain(ts)
    requires CompactObject(env, json, w, keys, ts) == Ok((all, end))
    ensures w < |json| && json[w] == '{'
    ensures AllPlain(all) ==> ReadLast(env, json, w, f) == Ok((FieldsOf(env, all), end))
    ensures !AllPlain(all) ==> ReadLast(env, json, w, f).Err?
  {
    LastIsKept(env, NOTHING_READ, ts);
    ObjectAgrees(env, json, w, Last, keys, ts, all, end, NOTHING_READ.(last := true));
  }

  /** What stands for the last transaction, and where it ends. */
  lemma {:induction false} EndParts(env: Env, json: string, w: nat, keys: seq<(string, FieldName)>, ts: Tokens,
                                    all: Tokens, end: nat)
    requires keys != [] && CompactEnd(env, json, w, keys, ts) == Ok(all) && end == |json| - 1
    ensures Has(json, end, '}')
    ensures if At(json, w, "null") then all == ts && end == w + 4
            else CompactObject(env, json, w, keys, ts) == Ok((all, end))
  {
    FirstAt(json, end, "}");
  }

  lemma {:induction false} LastAgrees(env: Env, json: string, keys: seq<(string, FieldName)>, w: nat, ts: Tokens,
                                      all: Tokens, f: Fields, end: nat)
    requires AllKnown(Last, keys) && f == PutAll(env, NOTHING_READ, ts) && AllPlain(ts)
    requires CompactEnd(env, json, w, keys, ts) == Ok(all)
    requires end == |json| - 1
    ensures w < |json| && !IsWs(json[w]) && Has(json, end, '}')
    ensures AllPlain(all) ==> ReadLast(env, json, w, f) == Ok((FieldsOf(env, all), end))
    ensures !AllPlain(all) ==> ReadLast(env, json, w, f).Err?
  {
    EndParts(env, json, w, keys, ts, all, end);
    if At(json, w, "null") {
      NullAgrees(env, json, w, ts, f);
    } else {
      LastObject(env, json, keys, w, ts, all, f, end);
    }
  }

  /** The last key and its value, up to the end of the outermost object. */
  lemma {:induction false} EndAgrees(env: Env, json: string, k: nat, key: string, keys: seq<(string, FieldName)>,
                                     w: nat, ts: Tokens, all: Tokens, f: Fields, g: Fields, end: nat)
    requires key == KeyOf(Last) && Clean(key) && SectionOf(key) == None && AllKnown(Last, keys)
    requires At(json, k, Key(key)) && k <= w == k + |Key(key)| && AllPlain(ts)
    requires CompactEnd(env, json, w, keys, ts) == Ok(all)
    requires f == PutAll(env, NOTHING_READ, ts) && g == FieldsOf(env, all) && end == |json| - 1
    ensures if AllPlain(all) then ReadTop(env, json, k, f) == Ok(g) else ReadTop(env, json, k, f).Err?
  {
    LastAgrees(env, json, keys, w, ts, all, f, end);
    var plain := AllPlain(all);
    TopEnds(env, json, k, key, w, end, plain, f, g);
  }

  lemma {:induction false} TopEnds(env: Env, json: string, k: nat, key: string, w: nat, end: nat, plain: bool,
                                   f: Fields, g: Fields)
    requires key == KeyOf(Last) && Clean(key) && SectionOf(key) == None && At(json, k, Key(key))
    requires k <= w == k + |Key(key)| < |json|
    requires !IsWs(json[w]) && Has(json, end, '}')
    requires if plain then ReadLast(env, json, w, f) == Ok((g, end)) else ReadLast(env, json, w, f).Err?
    ensures if plain then ReadTop(env, json, k, f) == Ok(g) else ReadTop(env, json, k, f).Err?
  {
    if plain { TopIsRead(env, json, k, key, w, end, end, f, g); } else { TopFails(env, json, k, key, w, f); }
  }

  // ----- the theorem -----

  /** A good token makes its own field present, and no other. */
  lemma PutPresent(env: Env, f: Fields, name: FieldName, t: Token, other: FieldName)
    requires Good(env, name, t)
    ensures Present(Put(env, f, name, t), other) <==> Present(f, other) || other == name
  {
  }

  lemma {:induction false} PresentIff(env: Env, f: Fields, ts: Tokens, name: FieldName)
    requires AllGood(env, ts)
    ensures Present(PutAll(env, f, ts), name) <==> Present(f, name) || name in FieldNames(ts)
  {
    if ts != [] {
      var front, last := ts[..|ts| - 1], ts[|ts| - 1];
      PresentIff(env, f, front, name);
      assert FieldNames(ts) == FieldNames(front) + [last.0];
      PutPresent(env, PutAll(env, f, front), last.0, last.1, name);
    }
  }

  const TWELVE := [Amount, Installments, RequestedAt, CustomerAvg, TxCount, KnownMerchants, MerchantId, Mcc,
                   MerchantAvg, IsOnline, CardPresent, KmFromHome]

  lemma OrderNames()
    ensures NamesIn(ORDER) == TWELVE
  {
    assert ORDER[1..] == [Customer, Merchant, Terminal] && ORDER[1..][1..] == [Merchant, Terminal];
    assert [Merchant, Terminal][1..] == [Terminal] && [Terminal][1..] == [];
  }

  /** Nothing is missing, and the last transaction is there as a whole or not at all. */
  lemma NothingMissing(env: Env, ts: Tokens)
    requires AllGood(env, ts)
    requires FieldNames(ts) == NamesIn(ORDER) || FieldNames(ts) == NamesIn(ORDER) + KeyNames(KeysOf(Last))
    ensures Finish(FieldsOf(env, ts)) == Ok(FieldsOf(env, ts))
  {
    OrderNames();
    assert KeyNames(KeysOf(Last)) == [Timestamp, KmFromCurrent];
    AllThere(env, ts, TWELVE, FieldNames(ts) != TWELVE);
  }

  lemma AllThere(env: Env, ts: Tokens, twelve: seq<FieldName>, long: bool)
    requires AllGood(env, ts) && twelve == TWELVE
    requires FieldNames(ts) == if long then twelve + [Timestamp, KmFromCurrent] else twelve
    ensures Finish(FieldsOf(env, ts)) == Ok(FieldsOf(env, ts))
  {
    var f, none := FieldsOf(env, ts), NOTHING_READ.(last := true);
    LastIsKept(env, NOTHING_READ, ts);
    assert f == PutAll(env, NOTHING_READ, ts).(last := true);
    forall i | 0 <= i < 12 ensures Present(f, twelve[i]) {
      assert FieldNames(ts)[i] == twelve[i];
      PresentIff(env, none, ts, twelve[i]);
    }
    TwelvePresent(f, twelve);
    assert Timestamp !in twelve && KmFromCurrent !in twelve;
    PresentIff(env, none, ts, Timestamp);
    PresentIff(env, none, ts, KmFromCurrent);
  }

  lemma TwelvePresent(f: Fields, names: seq<FieldName>)
    requires names == TWELVE && f.last && forall i :: 0 <= i < 12 ==> Present(f, names[i])
    ensures AllPresent(f)
  {
    assert Present(f, names[0]) && Present(f, names[1]) && Present(f, names[2]) && Present(f, names[3]);
    assert Present(f, names[4]) && Present(f, names[5]) && Present(f, names[6]) && Present(f, names[7]);
    assert Present(f, names[8]) && Present(f, names[9]) && Present(f, names[10]) && Present(f, names[11]);
  }

  /** The first field, which no one looks at. */
  lemma {:induction false} IdIsSkipped(env: Env, json: string, k: string, v: nat, b: nat, f: Fields)
    requires At(json, 0, "{" + Key(k)) && k == "id" && v == 1 + |Key(k)| && CompactText(json, v).Ok?
    requires CompactText(json, v).value.1 == b
    requires Has(json, b, ',')
    ensures Has(json, 0, '{') && ReadTop(env, json, 1, f) == ReadTop(env, json, b + 1, f)
  {
    AtSum(json, 0, "{", Key(k));
    FirstAt(json, 0, "{");
    FirstAt(json, v, "\"");
    StringAgrees(json, v, CompactText(json, v).value.0.text, b);
    OtherValue(env, json, k, v, b, f);
    TopIsRead(env, json, 1, k, v, b, b + 1, f, f);
  }

  lemma OtherValue(env: Env, json: string, k: string, v: nat, end: nat, f: Fields)
    requires v <= |json| && SectionOf(k) == None && k != "last_transaction" && SkipValue(json, v) == Some(end)
    ensures ReadTopValue(env, json, k, v, f) == Ok((f, end))
  {
  }

  /** Where the parts of an accepted text are. */
  lemma CompactSteps(env: Env, json: string, first: string, order: seq<Section>, last: string,
                     keys: seq<(string, FieldName)>, all: Tokens)
    returns (v: nat, b: nat, ts: Tokens, c: nat, w: nat)
    requires keys != [] && CompactFrom(env, json, first, order, last, keys) == Ok(all)
    ensures At(json, 0, first) && v == |first| <= |json| && CompactText(json, v).Ok?
    ensures CompactText(json, v).value.1 == b <= |json|
    ensures CompactSections(env, json, b, order, []) == Ok((ts, c)) && Has(json, c, ',')
    ensures At(json, c + 1, last) && w == c + 1 + |last| && CompactEnd(env, json, w, keys, ts) == Ok(all)
  {
    v, b := |first|, CompactText(json, |first|).value.1;
    ts, c := CompactSections(env, json, b, order, []).value.0, CompactSections(env, json, b, order, []).value.1;
    w := c + 1 + |last|;
    FirstAt(json, c, ",");
  }

  /** The outermost object, from behind its brace. */
  lemma {:induction false} MembersAgree(top: TopLoop, env: Env, json: string, first: string, id: string,
                                        order: seq<Section>, key: string, keys: seq<(string, FieldName)>, all: Tokens)
    requires IsTop(top, env, json) && first == "{" + Key(id) && id == "id"
    requires key == KeyOf(Last) && Clean(key) && SectionOf(key) == None
    requires order != [] && Last !in order && AllKnown(Last, keys)
    requires CompactFrom(env, json, first, order, Key(key), keys) == Ok(all)
    ensures Has(json, 0, '{')
    ensures if AllPlain(all) then top(1, NOTHING_READ) == Ok(FieldsOf(env, all)) else top(1, NOTHING_READ).Err?
  {
    var v, b, ts, c, w := CompactSteps(env, json, first, order, Key(key), keys, all);
    SectionsAgree(top, env, json, b, order, [], ts, c, NOTHING_READ);
    CommaNext(env, json, b, order, []);
    StartAgrees(top, env, json, id, v, b, NOTHING_READ);
    if AllPlain(ts) {
      TailAgrees(top, env, json, c + 1, key, keys, w, ts, all);
    } else {
      EndExtends(env, json, w, keys, ts, all);
      NotPlain(ts, all);
    }
  }

  lemma {:induction false} StartAgrees(top: TopLoop, env: Env, json: string, id: string, v: nat, b: nat, f: Fields)
    requires IsTop(top, env, json) && At(json, 0, "{" + Key(id)) && id == "id" && v == 1 + |Key(id)|
    requires CompactText(json, v).Ok? && CompactText(json, v).value.1 == b && Has(json, b, ',')
    ensures Has(json, 0, '{') && top(1, f) == top(b + 1, f)
  {
    IdIsSkipped(env, json, id, v, b, f);
    assert Asked(1, f) && Asked(b + 1, f);
  }

  lemma {:induction false} TailAgrees(top: TopLoop, env: Env, json: string, k: nat, key: string,
                                      keys: seq<(string, FieldName)>, w: nat, ts: Tokens, all: Tokens)
    requires IsTop(top, env, json) && key == KeyOf(Last) && Clean(key) && SectionOf(key) == None && AllKnown(Last, keys)
    requires At(json, k, Key(key)) && k <= w == k + |Key(key)| && AllPlain(ts)
    requires CompactEnd(env, json, w, keys, ts) == Ok(all)
    ensures var f := PutAll(env, NOTHING_READ, ts);
            if AllPlain(all) then top(k, f) == Ok(FieldsOf(env, all)) else top(k, f).Err?
  {
    var f := PutAll(env, NOTHING_READ, ts);
    EndAgrees(env, json, k, key, keys, w, ts, all, f, FieldsOf(env, all), |json| - 1);
    assert Asked(k, f);
  }

  /** The two parsers agree: on a text that the compact parser accepts, the single-pass parser
      reads the same fields, or refuses it because a number begins with a dot or the name of
      a merchant has a closing bracket in it. */
  lemma ParsersAgree(env: Env, json: string, all: Tokens)
    requires Compact(env, json) == Ok(all)
    ensures SinglePass(env, json).Ok? <==> AllPlain(all)
    ensures SinglePass(env, json).Ok? ==> SinglePass(env, json).value == FieldsOf(env, all)
  {
    var first, key, keys := "{" + Key("id"), KeyOf(Last), KeysOf(Last);
    SectionKeys(Last);
    KeysKnown(Last);
    var top := TopOf(env, json);
    MembersAgree(top, env, json, first, "id", ORDER, key, keys, all);
    assert Asked(1, NOTHING_READ);
    FromBrace(env, json);
    TokensThere(env, json, first, ORDER, Key(key), keys, all);
    NothingMissing(env, all);
  }

  lemma {:induction false} TokensThere(env: Env, json: string, first: string, order: seq<Section>, last: string,
                                       keys: seq<(string, FieldName)>, all: Tokens)
    requires keys != [] && CompactFrom(env, json, first, order, last, keys) == Ok(all)
    ensures AllGood(env, all)
    ensures FieldNames(all) == NamesIn(order) || FieldNames(all) == NamesIn(order) + KeyNames(keys)
  {
    var v, b, ts, c, w := CompactSteps(env, json, first, order, last, keys, all);
    SectionsExtend(env, json, b, order, [], ts, c);
    assert FieldNames([]) + NamesIn(order) == NamesIn(order);
    EndExtends(env, json, w, keys, ts, all);
  }

  lemma EndExtends(env: Env, json: string, w: nat, keys: seq<(string, FieldName)>, ts: Tokens, all: Tokens)
    requires keys != [] && CompactEnd(env, json, w, keys, ts) == Ok(all)
    ensures all == ts || Extends(env, ts, all, KeyNames(keys))
  {
    if !At(json, w, "null") {
      var (read, end) := CompactObject(env, json, w, keys, ts).value;
      ObjectExtends(env, json, w, keys, ts, read, end);
    }
  }

  lemma {:induction false} FromBrace(env: Env, json: string)
    requires Has(json, 0, '{')
    ensures SinglePass(env, json) == Finished(ReadTop(env, json, 1, NOTHING_READ))
  {
  }
}
