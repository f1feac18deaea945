/**
 * What the single-pass parser reads from a well-formed JSON text: the same as a walk over the
 * tree of its values, whatever the order and spacing of the fields and whatever else is there.
 */
module QueryMeaning {
  import opened Base
  import opened JsonScan
  import opened QueryParsers
  import Calendar

  // ----- the walk over the tree -----

  function DoubleOf(env: Env, v: Value): Result<real> {
    if v.Number? then NumberOf(env, NumberText(v)) else Err(INVALID_VALUE)
  }

  /** A fraction or an exponent is cut off. */
  function IntOf(env: Env, v: Value): Result<int> {
    if v.Number? then Ok(env.integer(SignText(v) + v.whole)) else Err(INVALID_VALUE)
  }

  function BoolOf(v: Value): Result<bool> {
    if v == Word("true") then Ok(true) else if v == Word("false") then Ok(false) else Err(INVALID_VALUE)
  }

  /** The text between the quotes, with its escapes. */
  function StringOf(v: Value): Result<string> { if v.Quoted? then Ok(BodyText(v.body)) else Err(INVALID_VALUE) }

  function TimeOf(env: Env, v: Value): Result<Calendar.DateTime> {
    var text :- StringOf(v);
    env.time(text)
  }

  /** The strings of an array. */
  function NamesOf(items: Items): seq<string> {
    match items
    case NoItems => []
    case Item(value, _, _, more) => (if value.Quoted? then [BodyText(value.body)] else []) + NamesOf(more)
  }

  function MerchantsOf(env: Env, v: Value): Result<seq<int>> {
    if v.Array? then Ok(Hashed(env, NamesOf(v.items))) else Err(INVALID_FORMAT)
  }

  function NamedOf(env: Env, name: FieldName, v: Value, f: Fields): Result<Fields> {
    match name
    case Amount => var x :- DoubleOf(env, v); Ok(f.(amount := Some(x)))
    case Installments => var x :- IntOf(env, v); Ok(f.(installments := Some(x)))
    case RequestedAt => var x :- TimeOf(env, v); Ok(f.(requested := Some(x)))
    case CustomerAvg => var x :- DoubleOf(env, v); Ok(f.(customerAvg := Some(x)))
    case TxCount => var x :- IntOf(env, v); Ok(f.(txCount := Some(x)))
    case KnownMerchants => var x :- MerchantsOf(env, v); Ok(f.(known := Some(x)))
    case MerchantId => var x :- StringOf(v); Ok(f.(merchant := Some(env.hash(x))))
    case Mcc => var x :- StringOf(v); Ok(f.(mcc := Some(env.risk(x))))
    case MerchantAvg => var x :- DoubleOf(env, v); Ok(f.(merchantAvg := Some(x)))
    case IsOnline => var x :- BoolOf(v); Ok(f.(online := Some(x)))
    case CardPresent => var x :- BoolOf(v); Ok(f.(card := Some(x)))
    case KmFromHome => var x :- DoubleOf(env, v); Ok(f.(km := Some(x)))
    case Timestamp => var x :- TimeOf(env, v); Ok(f.(lastMinute := Some(x.epochMinute)))
    case KmFromCurrent => var x :- DoubleOf(env, v); Ok(f.(lastKm := Some(x)))
  }

  function FieldOf(env: Env, sec: Section, key: string, v: Value, f: Fields): Result<Fields> {
    match NameOf(sec, key)
    case None => Ok(f)
    case Some(name) => NamedOf(env, name, v, f)
  }

  /** The members of one object in their order: the first error, or the last value of each field. */
  function FieldsOf(env: Env, sec: Section, ms: JsonScan.Members, f: Fields): Result<Fields> {
    match ms
    case NoMembers => Ok(f)
    case Member(key, _, _, value, _, _, more) =>
      var g :- FieldOf(env, sec, BodyText(key), value, f);
      FieldsOf(env, sec, more, g)
  }

  function TopValueOf(env: Env, key: string, v: Value, f: Fields): Result<Fields> {
    if SectionOf(key).Some? then
      if v.Object? then FieldsOf(env, SectionOf(key).value, v.members, f) else Err(INVALID_FORMAT)
    else if key == "last_transaction" then
      if v == Word("null") then Ok(f.(last := true))
      else if v.Object? then FieldsOf(env, Last, v.members, f.(last := true))
      else Err(INVALID_FORMAT)
    else Ok(f)
  }

  function DocumentOf(env: Env, ms: JsonScan.Members, f: Fields): Result<Fields> {
    match ms
    case NoMembers => Ok(f)
    case Member(key, _, _, value, _, _, more) =>
      var g :- TopValueOf(env, BodyText(key), value, f);
      DocumentOf(env, more, g)
  }

  // ----- the one restriction -----

  predicate Lacks(s: string, c: char) { forall i :: 0 <= i < |s| ==> s[i] != c }

  /** No closing bracket and no quote, escaped or not. */
  predicate Quiet(s: string) { Lacks(s, ']') && Lacks(s, '"') }

  predicate NotNested(v: Value) { !v.Object? && !v.Array? }

  /** An array without further brackets and braces. */
  predicate FlatItems(items: Items) { items.Item? ==> NotNested(items.value) && FlatItems(items.more) }

  predicate PlainNames(items: Items) {
    items.Item? ==> (items.value.Quoted? ==> Quiet(BodyText(items.value.body))) && PlainNames(items.more)
  }

  /** An array of merchants can be searched for brackets and quotes. */
  predicate ArrayPlain(v: Value) { v.Array? ==> FlatItems(v.items) && PlainNames(v.items) }

  predicate FieldPlain(sec: Section, key: string, v: Value) {
    sec.Customer? && key == "known_merchants" ==> ArrayPlain(v)
  }

  predicate FieldsPlain(sec: Section, ms: JsonScan.Members) {
    ms.Member? ==> FieldPlain(sec, BodyText(ms.key), ms.value) && FieldsPlain(sec, ms.more)
  }

  predicate TopValuePlain(key: string, v: Value) {
    v.Object? ==>
      && (SectionOf(key).Some? ==> FieldsPlain(SectionOf(key).value, v.members))
      && (key == "last_transaction" ==> FieldsPlain(Last, v.members))
  }

  predicate DocumentPlain(ms: JsonScan.Members) {
    ms.Member? ==> TopValuePlain(BodyText(ms.key), ms.value) && DocumentPlain(ms.more)
  }

  // ----- the first character of a value -----

  /** Which kind of value a character begins. */
  predicate Begins(c: char, v: Value) {
    && !IsWs(c) && c != '+' && c != '.' && c != ']' && c != '}' && c != ','
    && (c == '"' <==> v.Quoted?) && (c == '-' || IsDigit(c) <==> v.Number?)
    && (c == '{' <==> v.Object?) && (c == '[' <==> v.Array?)
    && (c == 't' <==> v == Word("true")) && (c == 'f' <==> v == Word("false")) && (c == 'n' <==> v == Word("null"))
  }

  lemma WordBegins(word: string)
    requires word == "true" || word == "false" || word == "null"
    ensures word != "" && Begins(word[0], Word(word))
  {
    var t, f, n := "true", "false", "null";
    assert t[0] == 't' && f[0] == 'f' && n[0] == 'n';
  }

  lemma {:induction false} ValueBegins(json: string, i: nat, v: Value)
    requires ValueOk(v) && At(json, i, Text(v))
    ensures i < |json| && Begins(json[i], v)
  {
    match v
    case Quoted(body) => QuotesAt(json, i, BodyText(body));
    case Number(_, _, _, _) => NumberBegins(json, i, v);
    case Word(word) =>
      WordBegins(word);
      FirstAt(json, i, word);
    case Object(gap, members) => ConcatAssoc("{", gap, MembersText(members));
      Opens(json, i, '{', gap + MembersText(members), '}');
    case Array(gap, items) => ConcatAssoc("[", gap, ItemsText(items)); Opens(json, i, '[', gap + ItemsText(items), ']');
  }

  lemma NumberBegins(json: string, i: nat, v: Value)
    requires v.Number? && NumberOk(v) && At(json, i, NumberText(v))
    ensures i < |json| && (json[i] == '-' || IsDigit(json[i]))
  {
    NumberParts(json, i, v);
    SignSkipped(json, i, v.negative, v.whole);
  }

  // ----- reading a plain value -----

  lemma {:induction false} DoubleFollowsMantissa(json: string, start: nat, j: nat, seenDot: bool, seenDigit: bool,
                                                 end: nat)
    requires start < j && Mantissa(json, j, seenDot, seenDigit) == Some(end)
    ensures DoubleEnd(json, start, j, seenDot, seenDigit) == end
    decreases |json| - j
  {
    if j < |json| && IsDigit(json[j]) {
      DoubleFollowsMantissa(json, start, j + 1, seenDot, true, end);
    } else if j < |json| && json[j] == '.' && !seenDot {
      DoubleFollowsMantissa(json, start, j + 1, true, seenDigit, end);
    }
  }

  lemma {:induction false} DoubleFollowsNumber(json: string, i: nat, end: nat)
    requires SkipNumber(json, i) == Some(end) && i < |json| && (json[i] == '-' || IsDigit(json[i]))
    ensures DoubleEnd(json, i, i, false, false) == end && i < end
  {
    DoubleFollowsMantissa(json, i, i + 1, false, IsDigit(json[i]), end);
  }

  lemma {:induction false} DoubleMeans(env: Env, json: string, i: nat, v: Value)
    requires ValueOk(v) && At(json, i, Text(v)) && (v.Number? ==> Delimited(json, i + |Text(v)|))
    ensures ReadDouble(env, json, i) == DoubleOf(env, v)
  {
    if v.Number? {
      NumberLands(json, i, v);
      DoubleFollowsNumber(json, i, i + |NumberText(v)|);
    } else {
      ValueBegins(json, i, v);
      NothingToRead(json, i);
    }
  }

  lemma {:induction false} NothingToRead(json: string, i: nat)
    requires i < |json| && json[i] != '-' && json[i] != '+' && json[i] != '.' && !IsDigit(json[i])
    ensures DoubleEnd(json, i, i, false, false) == i && SkipDigits(json, i) == i
  {
  }

  lemma FractionStops(json: string, k: nat, v: Value)
    requires v.Number? && At(json, k, FractionText(v)) && v.fraction.Some?
    ensures k < |json| && json[k] == '.'
  {
    AtSum(json, k, ".", v.fraction.value);
    FirstAt(json, k, ".");
  }

  lemma ExponentStops(json: string, k: nat, v: Value)
    requires v.Number? && NumberOk(v) && At(json, k, ExponentText(v)) && v.exponent.Some?
    ensures k < |json| && !IsDigit(json[k])
  {
    var e := v.exponent.value;
    AtSum(json, k, [e.letter] + e.sign, e.digits);
    AtSum(json, k, [e.letter], e.sign);
    FirstAt(json, k, [e.letter]);
  }

  /** What stands behind the whole part of a number is not a digit. */
  lemma WholeEnds(json: string, k: nat, v: Value)
    requires v.Number? && NumberOk(v) && At(json, k, FractionText(v))
    requires At(json, k + |FractionText(v)|, ExponentText(v))
    requires Delimited(json, k + |FractionText(v)| + |ExponentText(v)|)
    ensures k < |json| ==> !IsDigit(json[k])
  {
    if v.fraction.Some? {
      FractionStops(json, k, v);
    } else if v.exponent.Some? {
      ExponentStops(json, k, v);
    }
  }

  lemma {:induction false} IntReads(env: Env, json: string, i: nat, sign: string, whole: string)
    requires (sign == "" || sign == "-") && whole != "" && AllDigits(whole)
    requires At(json, i, sign) && At(json, i + |sign|, whole)
    requires i + |sign| + |whole| < |json| ==> !IsDigit(json[i + |sign| + |whole|])
    ensures ReadInt(env, json, i) == Ok(env.integer(sign + whole))
  {
    DigitsEnd(json, i + |sign|, whole);
    FirstAt(json, i + |sign|, whole);
    if sign != "" { FirstAt(json, i, sign); }
    TwoTogether(json, i, sign, whole);
  }

  lemma {:induction false} IntMeans(env: Env, json: string, i: nat, v: Value)
    requires ValueOk(v) && At(json, i, Text(v)) && (v.Number? ==> Delimited(json, i + |Text(v)|))
    ensures ReadInt(env, json, i) == IntOf(env, v)
  {
    if v.Number? {
      NumberParts(json, i, v);
      WholeEnds(json, i + |SignText(v)| + |v.whole|, v);
      IntReads(env, json, i, SignText(v), v.whole);
    } else {
      ValueBegins(json, i, v);
      NothingToRead(json, i);
    }
  }

  lemma TwoTogether(json: string, i: nat, a: string, b: string)
    requires At(json, i, a) && At(json, i + |a|, b)
    ensures At(json, i, a + b)
  {
    assert json[i..i + |a| + |b|] == json[i..i + |a|] + json[i + |a|..i + |a| + |b|];
  }

  lemma {:induction false} BoolMeans(json: string, i: nat, v: Value, yes: string, no: string)
    requires ValueOk(v) && At(json, i, Text(v)) && yes == "true" && no == "false"
    ensures ReadBool(json, i) == BoolOf(v)
  {
    ValueBegins(json, i, v);
    assert yes[0] == 't' && no[0] == 'f';
    if At(json, i, yes) { FirstAt(json, i, yes); }
    if At(json, i, no) { FirstAt(json, i, no); }
  }

  lemma {:induction false} StringMeans(json: string, i: nat, v: Value)
    requires ValueOk(v) && At(json, i, Text(v))
    ensures ReadString(json, i) == StringOf(v)
  {
    ValueBegins(json, i, v);
    if v.Quoted? {
      StringLands(json, i, v.body);
      QuotesAt(json, i, BodyText(v.body));
    }
  }

  // ----- reading the merchants -----

  lemma Found(json: string, i: nat, s: string)
    requires At(json, i, s)
    ensures forall k :: i <= k < i + |s| ==> json[k] == s[k - i]
  {
    assert forall k :: i <= k < i + |s| ==> json[i..i + |s|][k - i] == json[k];
  }

  /** Where the first closing bracket is does not depend on text without one. */
  lemma BracketLater(json: string, i: nat, s: string)
    requires At(json, i, s) && Lacks(s, ']')
    ensures Position(json, ']', i, |json|) == Position(json, ']', i + |s|, |json|)
  {
    Found(json, i, s);
    PositionSkips(json, ']', i, i + |s|, |json|);
  }

  lemma {:induction false} QuietSkips(json: string, i: nat, s: string, end: nat)
    requires At(json, i, s) && Quiet(s) && i + |s| <= end <= |json|
    ensures MerchantsIn(json, i, end) == MerchantsIn(json, i + |s|, end)
  {
    Found(json, i, s);
    PositionSkips(json, '"', i, i + |s|, end);
    assert FindName(json, i, end) == FindName(json, i + |s|, end);
  }

  /** One name in its quotes. */
  lemma {:induction false} NameIsFound(json: string, i: nat, name: string, end: nat)
    requires At(json, i, "\"" + name + "\"") && Lacks(name, '"') && i + |name| + 2 <= end <= |json|
    ensures FindName(json, i, end) == Name(name, i + |name| + 2)
  {
    QuotesAt(json, i, name);
    Found(json, i + 1, name);
    PositionSkips(json, '"', i + 1, i + 1 + |name|, end);
  }

  /** A name with a bracket or a quote is not found as a whole. */
  lemma {:induction false} NameIsMissed(json: string, i: nat, name: string)
    requires At(json, i, "\"" + name + "\"") && !Quiet(name)
    requires Position(json, ']', i, |json|).Some?
    ensures var end := Position(json, ']', i, |json|).value;
            var r := FindName(json, i, end); r.Unclosed? || (r.Name? && r.text != name)
  {
    QuotesAt(json, i, name);
    Found(json, i + 1, name);
    var end := Position(json, ']', i, |json|).value;
    PositionIsFirst(json, ']', i, |json|);
    PositionIsFirst(json, '"', i + 1, end);
    var close := Position(json, '"', i + 1, end);
    if Lacks(name, ']') {
      var k :| 0 <= k < |name| && name[k] == '"';
      assert json[i + 1 + k] == '"';
    } else {
      var k :| 0 <= k < |name| && name[k] == ']';
      assert json[i + 1 + k] == ']';
    }
  }

  lemma {:induction false} ValueIsQuiet(v: Value)
    requires ValueOk(v) && NotNested(v) && !v.Quoted?
    ensures Quiet(Text(v))
  {
    if v.Number? { NumberIsBland(v); }
  }

  /** Behind one item: the next one, or the end. */
  function ItemGap(xs: Items): string
    requires xs.Item?
  {
    xs.after + (if xs.more.NoItems? then "" else "," + xs.nextGap)
  }

  lemma {:induction false} ItemGapIsQuiet(xs: Items)
    requires xs.Item? && ItemsOk(xs)
    ensures Quiet(ItemGap(xs))
  {
    forall k | 0 <= k < |ItemGap(xs)| ensures ItemGap(xs)[k] != ']' && ItemGap(xs)[k] != '"' {
      assert ItemGap(xs)[k] == ',' || IsWs(ItemGap(xs)[k]);
    }
  }

  /** From `i` on, up to the first closing bracket, the names are found if and only if all of
      them are plain; then that bracket is the end of the array. */
  ghost predicate NamesFound(json: string, i: nat, names: seq<string>, plain: bool, end: nat) {
    i <= |json| &&
    var p := Position(json, ']', i, |json|);
    && p.Some? && (plain ==> p.value == end)
    && (MerchantsIn(json, i, p.value) == Ok(names) <==> plain)
  }

  lemma {:induction false} QuietFound(json: string, i: nat, s: string, j: nat, names: seq<string>, plain: bool,
                                      end: nat)
    requires At(json, i, s) && Quiet(s) && j == i + |s| && NamesFound(json, j, names, plain, end)
    ensures NamesFound(json, i, names, plain, end)
  {
    BracketLater(json, i, s);
    QuietSkips(json, i, s, Position(json, ']', i, |json|).value);
  }

  lemma {:induction false} NameFound(json: string, i: nat, name: string, j: nat, names: seq<string>, plain: bool,
                                     end: nat)
    requires At(json, i, "\"" + name + "\"") && j == i + |name| + 2 && NamesFound(json, j, names, plain, end)
    ensures NamesFound(json, i, [name] + names, Quiet(name) && plain, end)
  {
    var p := Position(json, ']', i, |json|);
    if Quiet(name) {
      BracketLater(json, i, "\"" + name + "\"");
      NameIsFound(json, i, name, p.value);
      SameNames(name, names, MerchantsIn(json, j, p.value));
    } else {
      BracketSomewhere(json, i, j);
      NameIsMissed(json, i, name);
      OtherName(json, i, Position(json, ']', i, |json|).value, name, names);
    }
  }

  lemma SameNames(name: string, names: seq<string>, r: Result<seq<string>>)
    ensures r.Ok? ==> ([name] + r.value == [name] + names <==> r.value == names)
  {
    if r.Ok? && [name] + r.value == [name] + names {
      assert ([name] + r.value)[1..] == r.value && ([name] + names)[1..] == names;
    }
  }

  lemma {:induction false} OtherName(json: string, i: nat, end: nat, name: string, names: seq<string>)
    requires i <= end <= |json|
    requires FindName(json, i, end).Unclosed? || (FindName(json, i, end).Name? && FindName(json, i, end).text != name)
    ensures MerchantsIn(json, i, end) != Ok([name] + names)
  {
    var found, r := FindName(json, i, end), MerchantsIn(json, i, end);
    if found.Name? && r.Ok? { assert r.value[0] == found.text && ([name] + names)[0] == name; }
  }

  lemma {:induction false} BracketSomewhere(json: string, i: nat, j: nat)
    requires i <= j <= |json| && Position(json, ']', j, |json|).Some?
    ensures Position(json, ']', i, |json|).Some?
    decreases j - i
  {
    if i < j { BracketSomewhere(json, i + 1, j); }
  }

  lemma {:induction false} ItemParts(json: string, i: nat, xs: Items)
    requires xs.Item? && At(json, i, ItemsText(xs))
    ensures var j := i + |Text(xs.value)|;
            && At(json, i, Text(xs.value)) && At(json, j, ItemGap(xs))
              && At(json, j + |ItemGap(xs)|, ItemsText(xs.more))
            && j + |ItemGap(xs)| + |ItemsText(xs.more)| == i + |ItemsText(xs)|
  {
    AtSum(json, i, Text(xs.value) + ItemGap(xs), ItemsText(xs.more));
    AtSum(json, i, Text(xs.value), ItemGap(xs));
  }

  lemma {:induction false} NamesMean(json: string, i: nat, items: Items, names: seq<string>, plain: bool, end: nat)
    requires ItemsOk(items) && FlatItems(items) && At(json, i, ItemsText(items)) && end == i + |ItemsText(items)|
    requires end < |json| && json[end] == ']' && names == NamesOf(items) && plain == PlainNames(items)
    ensures NamesFound(json, i, names, plain, end)
    decreases items
  {
    if items.Item? {
      ItemParts(json, i, items);
      var j := i + |Text(items.value)|;
      var next, more, plainMore := j + |ItemGap(items)|, NamesOf(items.more), PlainNames(items.more);
      NamesMean(json, next, items.more, more, plainMore, end);
      ItemGapIsQuiet(items);
      QuietFound(json, j, ItemGap(items), next, more, plainMore, end);
      OneItemFound(json, i, items, j, more, plainMore, end);
    } else {
      NoNames(json, i);
    }
  }

  lemma NoNames(json: string, i: nat)
    requires i < |json| && json[i] == ']'
    ensures NamesFound(json, i, [], true, i)
  {
  }

  lemma {:induction false} OneItemFound(json: string, i: nat, xs: Items, j: nat, more: seq<string>, plain: bool,
                                        end: nat)
    requires xs.Item? && ValueOk(xs.value) && NotNested(xs.value) && At(json, i, Text(xs.value))
    requires j == i + |Text(xs.value)| && more == NamesOf(xs.more) && plain == PlainNames(xs.more)
    requires NamesFound(json, j, more, plain, end)
    ensures NamesFound(json, i, NamesOf(xs), PlainNames(xs), end)
  {
    if xs.value.Quoted? {
      NameFound(json, i, BodyText(xs.value.body), j, more, plain, end);
    } else {
      ValueIsQuiet(xs.value);
      QuietFound(json, i, Text(xs.value), j, more, plain, end);
      NoName(xs);
    }
  }

  lemma {:induction false} NoName(xs: Items)
    requires xs.Item? && !xs.value.Quoted?
    ensures NamesOf(xs) == NamesOf(xs.more) && PlainNames(xs) == PlainNames(xs.more)
  {
    assert [] + NamesOf(xs.more) == NamesOf(xs.more);
  }

  /** The names of an array that has no array or object in it are read as they are if and only
      if none of them has a closing bracket or an escaped quote. */
  lemma {:induction false} ArrayNamesIff(json: string, i: nat, gap: string, items: Items)
    requires AllWs(gap) && ItemsOk(items) && FlatItems(items) && At(json, i, "[" + gap + ItemsText(items) + "]")
    ensures i < |json| && json[i] == '['
    ensures NamesFound(json, i + 1, NamesOf(items), PlainNames(items), i + 1 + |gap| + |ItemsText(items)|)
  {
    BracketParts(json, i, "[", gap, ItemsText(items), "]");
    var first := i + 1 + |gap|;
    InnerNames(json, i + 1, gap, first, items, NamesOf(items), PlainNames(items), first + |ItemsText(items)|);
  }

  lemma {:induction false} InnerNames(json: string, i: nat, gap: string, first: nat, items: Items, names: seq<string>,
                                      plain: bool, end: nat)
    requires At(json, i, gap) && AllWs(gap) && first == i + |gap| && ItemsOk(items) && FlatItems(items)
    requires At(json, first, ItemsText(items)) && end == first + |ItemsText(items)| && end < |json| && json[end] == ']'
    requires names == NamesOf(items) && plain == PlainNames(items)
    ensures NamesFound(json, i, names, plain, end)
  {
    NamesMean(json, first, items, names, plain, end);
    QuietFound(json, i, gap, first, names, plain, end);
  }

  lemma BracketParts(json: string, i: nat, open: string, gap: string, inner: string, close: string)
    requires At(json, i, open + gap + inner + close) && |open| == |close| == 1
    ensures i + |gap| + |inner| + 2 <= |json| && json[i] == open[0] && json[i + 1 + |gap| + |inner|] == close[0]
    ensures At(json, i + 1, gap) && At(json, i + 1 + |gap|, inner)
  {
    AtSum(json, i, open + gap + inner, close);
    AtSum(json, i, open + gap, inner);
    AtSum(json, i, open, gap);
    FirstAt(json, i, open);
    FirstAt(json, i + 1 + |gap| + |inner|, close);
  }

  lemma {:induction false} MerchantsMean(env: Env, json: string, i: nat, v: Value)
    requires ValueOk(v) && At(json, i, Text(v)) && ArrayPlain(v)
    ensures ReadMerchants(env, json, i) == MerchantsOf(env, v)
  {
    ValueBegins(json, i, v);
    if v.Array? {
      ArrayNamesIff(json, i, v.gap, v.items);
      assert Position(json, ']', i, |json|) == Position(json, ']', i + 1, |json|);
    }
  }

  // ----- reading a field -----

  /** All that the readers see of a value that stands at `i`. */
  ghost predicate Reads(env: Env, json: string, i: nat, v: Value) {
    && i <= |json| && ReadDouble(env, json, i) == DoubleOf(env, v) && ReadInt(env, json, i) == IntOf(env, v)
    && ReadBool(json, i) == BoolOf(v) && ReadString(json, i) == StringOf(v)
  }

  lemma {:induction false} ValueReads(env: Env, json: string, i: nat, v: Value)
    requires ValueOk(v) && At(json, i, Text(v)) && (v.Number? ==> Delimited(json, i + |Text(v)|))
    ensures Reads(env, json, i, v)
  {
    DoubleMeans(env, json, i, v);
    IntMeans(env, json, i, v);
    BoolMeans(json, i, v, "true", "false");
    StringMeans(json, i, v);
  }

  lemma {:induction false} NamedMeans(env: Env, json: string, name: FieldName, i: nat, v: Value, f: Fields)
    requires Reads(env, json, i, v)
    requires name == KnownMerchants ==> ReadMerchants(env, json, i) == MerchantsOf(env, v)
    ensures ReadNamed(env, json, name, i, f) == NamedOf(env, name, v, f)
  {
  }

  lemma {:induction false} FieldMeans(env: Env, json: string, sec: Section, key: string, i: nat, v: Value, f: Fields)
    requires ValueOk(v) && At(json, i, Text(v)) && (v.Number? ==> Delimited(json, i + |Text(v)|))
    requires FieldPlain(sec, key, v)
    ensures ReadField(env, json, sec, key, i, f) == FieldOf(env, sec, key, v, f)
  {
    var name := NameOf(sec, key);
    if name.Some? {
      ValueReads(env, json, i, v);
      if name.value == KnownMerchants { MerchantsMean(env, json, i, v); }
      NamedMeans(env, json, name.value, i, v, f);
    }
  }

  // ----- one member -----

  lemma {:induction false} GapEnds(json: string, i: nat, gap: string)
    requires At(json, i, gap) && AllWs(gap) && (i + |gap| < |json| ==> !IsWs(json[i + |gap|]))
    ensures SkipWs(json, i) == i + |gap|
  {
    GapSkips(json, i, gap);
  }

  /** Behind one member: the next one, or the end. */
  function MemberGap(ms: JsonScan.Members): string
    requires ms.Member?
  {
    ms.after + (if ms.comma.Some? then "," + ms.comma.value else "")
  }

  function KeyText(ms: JsonScan.Members): string
    requires ms.Member?
  {
    QuotedText(ms.key) + (ms.beforeColon + ":" + ms.afterColon)
  }

  /** The predicates that use this unfold where it is asked and nowhere else. */
  predicate Asked(x: int) { true }

  /** The members stand at `i`, and behind them, at `close`, the closing brace. */
  ghost predicate MembersAt(json: string, i: nat, ms: JsonScan.Members, close: nat) {
    Has(json, close, '}') && forall x :: Asked(x) ==> At(json, i, MembersText(ms)) && close == i + |MembersText(ms)|
  }

  /** Where the value of the first member begins, where it ends, where the next member begins. */
  lemma {:induction false} MemberParts(json: string, i: nat, ms: JsonScan.Members, close: nat, v: nat, end: nat,
                                       next: nat)
    requires ms.Member? && MembersAt(json, i, ms, close)
    requires v == i + |KeyText(ms)| && end == v + |Text(ms.value)| && next == end + |MemberGap(ms)|
    ensures At(json, i, KeyText(ms)) && At(json, v, Text(ms.value)) && At(json, end, MemberGap(ms))
    ensures MembersAt(json, next, ms.more, close)
  {
    assert Asked(0);
    FourParts(json, i, KeyText(ms), Text(ms.value), MemberGap(ms), MembersText(ms.more), MembersText(ms), v, end, next,
              close);
  }

  lemma FourParts(json: string, i: nat, a: string, b: string, c: string, d: string, all: string, v: nat, end: nat,
                  next: nat, close: nat)
    requires At(json, i, all) && all == a + b + c + d && close == i + |all|
    requires v == i + |a| && end == v + |b| && next == end + |c|
    ensures At(json, i, a) && At(json, v, b) && At(json, end, c) && At(json, next, d) && close == next + |d|
  {
    AtSum(json, i, a + b + c, d);
    AtSum(json, i, a + b, c);
    AtSum(json, i, a, b);
  }

  /** Members begin with a quote; without any there is the brace. */
  lemma {:induction false} MembersBegin(json: string, i: nat, ms: JsonScan.Members, close: nat)
    requires MembersAt(json, i, ms, close)
    ensures Has(json, i, if ms.NoMembers? then '}' else '"')
  {
    assert Asked(0);
    if ms.Member? {
      var v := i + |KeyText(ms)|;
      MemberParts(json, i, ms, close, v, v + |Text(ms.value)|, v + |Text(ms.value)| + |MemberGap(ms)|);
      AtSum(json, i, QuotedText(ms.key), ms.beforeColon + ":" + ms.afterColon);
      QuotesAt(json, i, BodyText(ms.key));
    }
  }

  lemma {:induction false} QuotedKey(json: string, i: nat, key: seq<StrChar>, end: nat)
    requires At(json, i, QuotedText(key)) && BodyOk(key) && end == i + |QuotedText(key)|
    ensures SkipString(json, i) == Some(end) && end >= 2 && i + 1 <= end - 1 && json[i + 1..end - 1] == BodyText(key)
  {
    StringLands(json, i, key);
    QuotesAt(json, i, BodyText(key));
  }

  lemma {:induction false} ColonMeans(json: string, end: nat, before: string, behind: string, v: nat)
    requires At(json, end, before + ":" + behind) && v == end + |before| + 1 + |behind|
    requires AllWs(before) && AllWs(behind) && v < |json| && !IsWs(json[v])
    ensures SkipWs(json, end) == end + |before| && Has(json, end + |before|, ':')
    ensures SkipWs(json, end + |before| + 1) == v
  {
    AtSum(json, end, before + ":", behind);
    AtSum(json, end, before, ":");
    FirstAt(json, end + |before|, ":");
    GapEnds(json, end, before);
    GapEnds(json, end + |before| + 1, behind);
  }

  lemma {:induction false} KeyMeans(json: string, i: nat, quoted: string, key: seq<StrChar>, before: string,
                                    behind: string, v: nat)
    requires quoted == QuotedText(key) && At(json, i, quoted + (before + ":" + behind))
    requires v == i + |quoted| + |before| + 1 + |behind|
    requires BodyOk(key) && AllWs(before) && AllWs(behind) && v < |json| && !IsWs(json[v])
    ensures ReadKey(json, i) == Ok((BodyText(key), v))
  {
    var end := i + |quoted|;
    AtSum(json, i, quoted, before + ":" + behind);
    QuotedKey(json, i, key, end);
    ColonMeans(json, end, before, behind, v);
    KeyRead(json, i, end, end + |before|, v);
  }

  lemma KeyRead(json: string, i: nat, end: nat, colon: nat, v: nat)
    requires SkipString(json, i) == Some(end) && SkipWs(json, end) == colon && Has(json, colon, ':')
    requires SkipWs(json, colon + 1) == v && i + 1 <= end - 1 <= |json|
    ensures ReadKey(json, i) == Ok((json[i + 1..end - 1], v))
  {
  }

  /** What follows a value: a comma and a gap, or the closing brace. */
  lemma {:induction false} CommaMeans(json: string, end: nat, after: string, comma: bool, gap: string, next: nat)
    requires AllWs(after) && AllWs(gap) && At(json, end, after + (if comma then "," + gap else ""))
    requires next == end + |after| + (if comma then 1 + |gap| else 0)
    requires next < |json| && !IsWs(json[next]) && json[next] != ','
    ensures SkipComma(json, end) <= |json| && SkipWs(json, SkipComma(json, end)) == next
    ensures Delimited(json, end) || next == end
  {
    if comma {
      var at := end + |after|;
      CommaParts(json, end, after, ",", gap, at);
      CommaRead(json, end, after, gap, at, next);
    } else {
      assert after + "" == after;
      NoCommaRead(json, end, after, next);
    }
  }

  lemma CommaParts(json: string, end: nat, after: string, comma: string, gap: string, at: nat)
    requires At(json, end, after + (comma + gap)) && |comma| == 1 && at == end + |after|
    ensures At(json, end, after) && Has(json, at, comma[0]) && At(json, at + 1, gap)
  {
    AtSum(json, end, after, comma + gap);
    AtSum(json, at, comma, gap);
    FirstAt(json, at, comma);
  }

  lemma {:induction false} CommaRead(json: string, end: nat, after: string, gap: string, at: nat, next: nat)
    requires At(json, end, after) && AllWs(after) && at == end + |after| && Has(json, at, ',')
    requires At(json, at + 1, gap) && AllWs(gap) && next == at + 1 + |gap| && next < |json| && !IsWs(json[next])
    ensures SkipComma(json, end) == at + 1 && SkipWs(json, at + 1) == next && Delimited(json, end)
  {
    GapEnds(json, end, after);
    GapEnds(json, at + 1, gap);
    if after != "" { FirstAt(json, end, after); }
  }

  lemma {:induction false} NoCommaRead(json: string, end: nat, after: string, next: nat)
    requires At(json, end, after) && AllWs(after) && next == end + |after|
    requires next < |json| && !IsWs(json[next]) && json[next] != ','
    ensures SkipComma(json, end) == next && SkipWs(json, next) == next && (Delimited(json, end) || next == end)
  {
    GapEnds(json, end, after);
    if after != "" { FirstAt(json, end, after); }
  }

  /** One member: its key, its value, and what the loop does behind it. */
  ghost predicate MemberRead(json: string, i: nat, ms: JsonScan.Members, close: nat, v: nat, end: nat, next: nat)
    requires ms.Member?
  {
    && i < v < end <= |json| && ReadKey(json, i) == Ok((BodyText(ms.key), v)) && At(json, v, Text(ms.value))
    && end == v + |Text(ms.value)| && Delimited(json, end)
    && i < SkipComma(json, end) <= |json| && SkipWs(json, SkipComma(json, end)) == next
    && MembersAt(json, next, ms.more, close)
  }

  lemma {:induction false} MemberIsRead(json: string, i: nat, ms: JsonScan.Members, close: nat)
    returns (v: nat, end: nat, next: nat)
    requires ms.Member? && MembersOk(ms) && MembersAt(json, i, ms, close)
    ensures MemberRead(json, i, ms, close, v, end, next)
  {
    v := i + |KeyText(ms)|;
    end := v + |Text(ms.value)|;
    next := end + |MemberGap(ms)|;
    MemberParts(json, i, ms, close, v, end, next);
    ValueBegins(json, v, ms.value);
    KeyMeans(json, i, QuotedText(ms.key), ms.key, ms.beforeColon, ms.afterColon, v);
    MembersBegin(json, next, ms.more, close);
    CommaMeans(json, end, ms.after, ms.comma.Some?, if ms.comma.Some? then ms.comma.value else "", next);
  }

  // ----- objects -----

  function Landed(r: Result<Fields>, end: nat): Result<(Fields, nat)> {
    if r.Err? then Err(r.message) else Ok((r.value, end))
  }

  lemma {:induction false} ValueSkipped(json: string, v: nat, value: Value, end: nat)
    requires ValueOk(value) && At(json, v, Text(value)) && end == v + |Text(value)| && Delimited(json, end)
    ensures SkipValue(json, v) == Some(end)
  {
    ValueLands(json, v, value);
  }

  /** One entry is read as `g`, up to `next`. */
  ghost predicate EntryIs(env: Env, json: string, i: nat, sec: Section, key: string, value: Value, f: Fields,
                          g: Result<Fields>, next: nat)
  {
    i <= |json| && forall x :: Asked(x) ==>
      g == FieldOf(env, sec, key, value, f) && ReadEntry(env, json, i, sec, f) == Landed(g, next)
  }

  /** The members of an object are read from `start` to `end`. */
  ghost predicate ObjectIs(env: Env, json: string, start: nat, sec: Section, ms: JsonScan.Members, f: Fields, end: nat)
  {
    start <= |json| && forall x :: Asked(x) ==>
      ReadObject(env, json, start, sec, f) == Landed(FieldsOf(env, sec, ms, f), end)
  }

  lemma {:induction false} EntryRead(env: Env, json: string, i: nat, sec: Section, f: Fields, key: string, v: nat,
                                     g: Result<Fields>, end: nat)
    requires i <= |json| && ReadKey(json, i) == Ok((key, v)) && v <= |json| && ReadField(env, json, sec, key, v, f) == g
    requires SkipValue(json, v) == Some(end)
    ensures ReadEntry(env, json, i, sec, f) == Landed(g, SkipComma(json, end))
  {
  }

  lemma {:induction false} EntryMeans(env: Env, json: string, i: nat, sec: Section, value: Value, f: Fields, v: nat,
                                      end: nat, key: string) returns (g: Result<Fields>)
    requires i < v <= |json| && ReadKey(json, i) == Ok((key, v)) && At(json, v, Text(value)) && ValueOk(value)
    requires end == v + |Text(value)| && Delimited(json, end) && FieldPlain(sec, key, value)
    ensures EntryIs(env, json, i, sec, key, value, f, g, SkipComma(json, end))
  {
    g := FieldOf(env, sec, key, value, f);
    FieldMeans(env, json, sec, key, v, value, f);
    ValueSkipped(json, v, value, end);
    EntryRead(env, json, i, sec, f, key, v, g, end);
  }

  lemma {:induction false} ObjectEnds(env: Env, json: string, start: nat, i: nat, sec: Section, ms: JsonScan.Members,
                                      f: Fields, close: nat)
    requires start <= |json| && SkipWs(json, start) == i && MembersAt(json, i, ms, close) && ms.NoMembers?
    ensures ObjectIs(env, json, start, sec, ms, f, close + 1)
  {
    assert Asked(0);
  }

  lemma {:induction false} OneEntry(env: Env, json: string, start: nat, i: nat, sec: Section, ms: JsonScan.Members,
                                    f: Fields, key: string, g: Result<Fields>, next: nat, end: nat)
    requires start <= |json| && SkipWs(json, start) == i && Has(json, i, '"') && i < next
    requires ms.Member? && key == BodyText(ms.key) && EntryIs(env, json, i, sec, key, ms.value, f, g, next)
    requires g.Ok? ==> ObjectIs(env, json, next, sec, ms.more, g.value, end)
    ensures ObjectIs(env, json, start, sec, ms, f, end)
  {
    assert Asked(0);
  }

  lemma {:induction false} ObjectMeans(env: Env, json: string, start: nat, i: nat, sec: Section, ms: JsonScan.Members,
                                       f: Fields, close: nat)
    requires start <= |json| && SkipWs(json, start) == i && MembersAt(json, i, ms, close) && MembersOk(ms)
    requires FieldsPlain(sec, ms)
    ensures ObjectIs(env, json, start, sec, ms, f, close + 1)
    decreases ms
  {
    MembersBegin(json, i, ms, close);
    if ms.Member? {
      var v, end, next := MemberIsRead(json, i, ms, close);
      var key, behind := BodyText(ms.key), SkipComma(json, end);
      var g := EntryMeans(env, json, i, sec, ms.value, f, v, end, key);
      if g.Ok? { ObjectMeans(env, json, behind, next, sec, ms.more, g.value, close); }
      OneEntry(env, json, start, i, sec, ms, f, key, g, behind, close + 1);
    } else {
      ObjectEnds(env, json, start, i, sec, ms, f, close);
    }
  }

  lemma {:induction false} ObjectOpens(json: string, v: nat, value: Value, i: nat, close: nat)
    requires value.Object? && ValueOk(value) && At(json, v, Text(value)) && i == v + 1 + |value.gap|
    requires close + 1 == v + |Text(value)|
    ensures Has(json, v, '{') && v + 1 <= |json| && SkipWs(json, v + 1) == i
    ensures MembersAt(json, i, value.members, close)
  {
    BraceOpens(json, v, value.gap, value.members, MembersText(value.members), i, close);
  }

  lemma {:induction false} BraceOpens(json: string, v: nat, gap: string, ms: JsonScan.Members, inner: string, i: nat,
                                      close: nat)
    requires inner == MembersText(ms) && At(json, v, "{" + gap + inner + "}") && AllWs(gap)
    requires i == v + 1 + |gap| && close == i + |inner|
    ensures Has(json, v, '{') && v + 1 <= |json| && SkipWs(json, v + 1) == i && MembersAt(json, i, ms, close)
  {
    BracketParts(json, v, "{", gap, inner, "}");
    MembersBegin(json, i, ms, close);
    GapEnds(json, v + 1, gap);
  }

  /** An object from behind its opening brace. */
  lemma {:induction false} BracedMeans(env: Env, json: string, v: nat, sec: Section, value: Value, ms: JsonScan.Members,
                                       f: Fields, end: nat)
    requires value.Object? && ValueOk(value) && At(json, v, Text(value)) && end == v + |Text(value)|
    requires ms == value.members && FieldsPlain(sec, ms)
    ensures Has(json, v, '{') && ObjectIs(env, json, v + 1, sec, ms, f, end)
  {
    var i := v + 1 + |value.gap|;
    ObjectOpens(json, v, value, i, end - 1);
    ObjectMeans(env, json, v + 1, i, sec, ms, f, end - 1);
  }

  // ----- the document -----

  /** One member of the document is read as `g`, up to `next`. */
  ghost predicate TopMemberIs(env: Env, json: string, i: nat, key: string, value: Value, f: Fields, g: Result<Fields>,
                              next: nat)
  {
    i <= |json| && forall x :: Asked(x) ==>
      g == TopValueOf(env, key, value, f) && ReadMember(env, json, i, f) == Landed(g, next)
  }

  ghost predicate DocumentIs(env: Env, json: string, start: nat, ms: JsonScan.Members, f: Fields) {
    start <= |json| && forall x :: Asked(x) ==> ReadTop(env, json, start, f) == DocumentOf(env, ms, f)
  }

  lemma {:induction false} TopValueMeans(env: Env, json: string, key: string, v: nat, value: Value, f: Fields, end: nat)
    requires ValueOk(value) && At(json, v, Text(value)) && end == v + |Text(value)| && Delimited(json, end)
    requires TopValuePlain(key, value)
    ensures ReadTopValue(env, json, key, v, f) == Landed(TopValueOf(env, key, value, f), end)
  {
    ValueBegins(json, v, value);
    if SectionOf(key).Some? {
      if value.Object? { BracedRead(env, json, v, SectionOf(key).value, value, value.members, f, end); }
    } else {
      ValueSkipped(json, v, value, end);
      if key == "last_transaction" && value.Object? {
        BracedRead(env, json, v, Last, value, value.members, f.(last := true), end);
      }
    }
  }

  lemma {:induction false} BracedRead(env: Env, json: string, v: nat, sec: Section, value: Value, ms: JsonScan.Members,
                                      f: Fields, end: nat)
    requires value.Object? && ValueOk(value) && At(json, v, Text(value)) && end == v + |Text(value)|
    requires ms == value.members && FieldsPlain(sec, ms)
    ensures Has(json, v, '{') && ReadObject(env, json, v + 1, sec, f) == Landed(FieldsOf(env, sec, ms, f), end)
  {
    BracedMeans(env, json, v, sec, value, ms, f, end);
    ObjectRead(env, json, v + 1, sec, ms, f, end);
  }

  lemma {:induction false} ObjectRead(env: Env, json: string, start: nat, sec: Section, ms: JsonScan.Members, f: Fields,
                                      end: nat)
    requires ObjectIs(env, json, start, sec, ms, f, end)
    ensures ReadObject(env, json, start, sec, f) == Landed(FieldsOf(env, sec, ms, f), end)
  {
    assert Asked(0);
  }

  lemma {:induction false} TopMemberRead(env: Env, json: string, i: nat, f: Fields, key: string, v: nat,
                                         g: Result<Fields>, end: nat)
    requires i <= |json| && ReadKey(json, i) == Ok((key, v)) && v <= |json|
    requires ReadTopValue(env, json, key, v, f) == Landed(g, end)
    ensures ReadMember(env, json, i, f) == Landed(g, SkipComma(json, end))
  {
  }

  lemma {:induction false} TopMemberMeans(env: Env, json: string, i: nat, value: Value, f: Fields, v: nat, end: nat,
                                          key: string) returns (g: Result<Fields>)
    requires i < v <= |json| && ReadKey(json, i) == Ok((key, v)) && At(json, v, Text(value)) && ValueOk(value)
    requires end == v + |Text(value)| && Delimited(json, end) && TopValuePlain(key, value)
    ensures TopMemberIs(env, json, i, key, value, f, g, SkipComma(json, end))
  {
    g := TopValueOf(env, key, value, f);
    TopValueMeans(env, json, key, v, value, f, end);
    TopMemberRead(env, json, i, f, key, v, g, end);
  }

  lemma {:induction false} DocumentEnds(env: Env, json: string, start: nat, i: nat, ms: JsonScan.Members, f: Fields)
    requires start <= |json| && SkipWs(json, start) == i && Has(json, i, '}') && ms.NoMembers?
    ensures DocumentIs(env, json, start, ms, f)
  {
  }

  lemma {:induction false} OneMember(env: Env, json: string, start: nat, i: nat, ms: JsonScan.Members, f: Fields,
                                     key: string, g: Result<Fields>, next: nat)
    requires start <= |json| && SkipWs(json, start) == i && Has(json, i, '"') && i < next
    requires ms.Member? && key == BodyText(ms.key) && TopMemberIs(env, json, i, key, ms.value, f, g, next)
    requires g.Ok? ==> DocumentIs(env, json, next, ms.more, g.value)
    ensures DocumentIs(env, json, start, ms, f)
  {
    assert Asked(0);
  }

  lemma {:induction false} DocumentMeans(env: Env, json: string, start: nat, i: nat, ms: JsonScan.Members, f: Fields,
                                         close: nat)
    requires start <= |json| && SkipWs(json, start) == i && MembersAt(json, i, ms, close) && MembersOk(ms)
    requires DocumentPlain(ms)
    ensures DocumentIs(env, json, start, ms, f)
    decreases ms
  {
    MembersBegin(json, i, ms, close);
    if ms.Member? {
      var v, end, next := MemberIsRead(json, i, ms, close);
      var key, behind := BodyText(ms.key), SkipComma(json, end);
      var g := TopMemberMeans(env, json, i, ms.value, f, v, end, key);
      if g.Ok? { DocumentMeans(env, json, behind, next, ms.more, g.value, close); }
      OneMember(env, json, start, i, ms, f, key, g, behind);
    } else {
      DocumentEnds(env, json, start, i, ms, f);
    }
  }

  /** For every well-formed JSON object, with its members in any order, any whitespace, unknown
      members of any kind and anything behind it: the parser reads what the walk over the tree
      reads, the first error included. */
  lemma {:induction false} SinglePassMeans(env: Env, json: string, lead: string, document: Value, tail: string)
    requires document.Object? && ValueOk(document) && DocumentPlain(document.members) && AllWs(lead)
    requires json == lead + Text(document) + tail
    ensures SinglePass(env, json) == Finished(DocumentOf(env, document.members, NOTHING_READ))
  {
    var i := |lead|;
    assert At(json, 0, lead) && At(json, i, Text(document));
    var close := i + |Text(document)| - 1;
    ObjectOpens(json, i, document, i + 1 + |document.gap|, close);
    GapEnds(json, 0, lead);
    DocumentMeans(env, json, i + 1, i + 1 + |document.gap|, document.members, NOTHING_READ, close);
    assert Asked(0);
  }
}
