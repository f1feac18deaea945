/**
 * The two hand-written parsers of a query: one for any order and spacing of the fields, one
 * for the compact text in the usual order.
 */
module QueryParsers {
  import opened Base
  import opened JsonScan
  import Calendar

  const INVALID_FORMAT := "InvalidFormat"
  const INVALID_VALUE := "InvalidValue"
  const MISSING_FIELD := "MissingField"
  const MAX_HASHES := 64

  /** Number parsing, hashing, the risk table and timestamps (Calendar.ParseDateTime), as
      functions of the token alone. */
  datatype Env = Env(fast: string -> Option<real>, slow: string -> Option<real>, integer: string -> int,
                     hash: string -> int, risk: string -> real, time: string -> Result<Calendar.DateTime>)

  /** What has been read so far. */
  datatype Fields = Fields(amount: Option<real>, installments: Option<int>, requested: Option<Calendar.DateTime>,
                           customerAvg: Option<real>, txCount: Option<int>, known: Option<seq<int>>,
                           merchant: Option<int>, mcc: Option<real>, merchantAvg: Option<real>,
                           online: Option<bool>, card: Option<bool>, km: Option<real>,
                           last: bool, lastMinute: Option<int>, lastKm: Option<real>)

  const NOTHING_READ :=
    Fields(None, None, None, None, None, None, None, None, None, None, None, None, false, None, None)

  datatype Section = Transaction | Customer | Merchant | Terminal | Last

  // ----- reading one value -----

  function Or<T>(o: Option<T>, error: string): Result<T> { if o.Some? then Ok(o.value) else Err(error) }

  /** The end of the longest number-like token. */
  function DoubleEnd(json: string, start: nat, j: nat, seenDot: bool, seenDigit: bool): (r: nat)
    ensures j <= r && (j <= |json| ==> r <= |json|)
    decreases |json| - j
  {
    if j >= |json| then j
    else if IsDigit(json[j]) then DoubleEnd(json, start, j + 1, seenDot, true)
    else if (json[j] == '-' || json[j] == '+') && j == start then DoubleEnd(json, start, j + 1, seenDot, seenDigit)
    else if json[j] == '.' && !seenDot then DoubleEnd(json, start, j + 1, true, seenDigit)
    else if (json[j] == 'e' || json[j] == 'E') && seenDigit then SkipDigits(json, SkipSign(json, j + 1))
    else j
  }

  function NumberOf(env: Env, token: string): Result<real> {
    if env.fast(token).Some? then Ok(env.fast(token).value) else Or(env.slow(token), INVALID_VALUE)
  }

  function ReadDouble(env: Env, json: string, start: nat): Result<real>
    requires start <= |json|
  {
    var end := DoubleEnd(json, start, start, false, false);
    if end == start then Err(INVALID_VALUE) else NumberOf(env, json[start..end])
  }

  function ReadInt(env: Env, json: string, start: nat): Result<int>
    requires start <= |json|
  {
    var digits := if start < |json| && json[start] == '-' then start + 1 else start;
    var end := SkipDigits(json, digits);
    if end == digits then Err(INVALID_VALUE) else Ok(env.integer(json[start..end]))
  }

  function ReadBool(json: string, start: nat): Result<bool> {
    if At(json, start, "true") then Ok(true) else if At(json, start, "false") then Ok(false) else Err(INVALID_VALUE)
  }

  function ReadString(json: string, start: nat): Result<string> {
    match SkipString(json, start)
    case None => Err(INVALID_VALUE)
    case Some(end) => Ok(json[start + 1..end - 1])
  }

  datatype NextName = NoName | Unclosed | Name(text: string, next: nat)

  /** The next string between `i` and `end`. */
  function FindName(json: string, i: nat, end: nat): (r: NextName)
    requires i <= end <= |json|
    ensures r.Name? ==> i < r.next <= end
  {
    match Position(json, '"', i, end)
    case None => NoName
    case Some(open) =>
      match Position(json, '"', open + 1, end)
      case None => Unclosed
      case Some(close) => Name(json[open + 1..close], close + 1)
  }

  /** The strings between `i` and `end`, each up to the next quote. */
  function MerchantsIn(json: string, i: nat, end: nat): (r: Result<seq<string>>)
    requires i <= end <= |json|
    ensures r.Err? ==> r.message == INVALID_FORMAT
    decreases end - i
  {
    match FindName(json, i, end)
    case NoName => Ok([])
    case Unclosed => Err(INVALID_FORMAT)
    case Name(name, next) =>
      var more :- MerchantsIn(json, next, end);
      Ok([name] + more)
  }

  function Hashed(env: Env, names: seq<string>): seq<int> {
    seq(Min(|names|, MAX_HASHES), i requires 0 <= i < |names| => env.hash(names[i]))
  }

  /** Up to the first closing bracket, wherever that is. */
  function ReadMerchants(env: Env, json: string, start: nat): Result<seq<int>> {
    if start >= |json| || json[start] != '[' then Err(INVALID_FORMAT)
    else
      match Position(json, ']', start, |json|)
      case None => Err(INVALID_FORMAT)
      case Some(end) =>
        var names :- MerchantsIn(json, start + 1, end);
        Ok(Hashed(env, names))
  }

  function ReadTime(env: Env, json: string, start: nat): Result<Calendar.DateTime> {
    var text :- ReadString(json, start);
    env.time(text)
  }

  // ----- objects -----

  datatype FieldName = Amount | Installments | RequestedAt | CustomerAvg | TxCount | KnownMerchants | MerchantId | Mcc
                     | MerchantAvg | IsOnline | CardPresent | KmFromHome | Timestamp | KmFromCurrent

  /** The fields of the five objects; other keys are ignored. */
  function NameOf(sec: Section, key: string): Option<FieldName> {
    match sec
    case Transaction =>
      if key == "amount" then Some(Amount) else if key == "installments" then Some(Installments)
      else if key == "requested_at" then Some(RequestedAt) else None
    case Customer =>
      if key == "avg_amount" then Some(CustomerAvg) else if key == "tx_count_24h" then Some(TxCount)
      else if key == "known_merchants" then Some(KnownMerchants) else None
    case Merchant =>
      if key == "id" then Some(MerchantId) else if key == "mcc" then Some(Mcc)
      else if key == "avg_amount" then Some(MerchantAvg) else None
    case Terminal =>
      if key == "is_online" then Some(IsOnline) else if key == "card_present" then Some(CardPresent)
      else if key == "km_from_home" then Some(KmFromHome) else None
    case Last =>
      if key == "timestamp" then Some(Timestamp) else if key == "km_from_current" then Some(KmFromCurrent) else None
  }

  function ReadNamed(env: Env, json: string, name: FieldName, v: nat, f: Fields): Result<Fields>
    requires v <= |json|
  {
    match name
    case Amount => var x :- ReadDouble(env, json, v); Ok(f.(amount := Some(x)))
    case Installments => var x :- ReadInt(env, json, v); Ok(f.(installments := Some(x)))
    case RequestedAt => var x :- ReadTime(env, json, v); Ok(f.(requested := Some(x)))
    case CustomerAvg => var x :- ReadDouble(env, json, v); Ok(f.(customerAvg := Some(x)))
    case TxCount => var x :- ReadInt(env, json, v); Ok(f.(txCount := Some(x)))
    case KnownMerchants => var x :- ReadMerchants(env, json, v); Ok(f.(known := Some(x)))
    case MerchantId => var x :- ReadString(json, v); Ok(f.(merchant := Some(env.hash(x))))
    case Mcc => var x :- ReadString(json, v); Ok(f.(mcc := Some(env.risk(x))))
    case MerchantAvg => var x :- ReadDouble(env, json, v); Ok(f.(merchantAvg := Some(x)))
    case IsOnline => var x :- ReadBool(json, v); Ok(f.(online := Some(x)))
    case CardPresent => var x :- ReadBool(json, v); Ok(f.(card := Some(x)))
    case KmFromHome => var x :- ReadDouble(env, json, v); Ok(f.(km := Some(x)))
    case Timestamp => var x :- ReadTime(env, json, v); Ok(f.(lastMinute := Some(x.epochMinute)))
    case KmFromCurrent => var x :- ReadDouble(env, json, v); Ok(f.(lastKm := Some(x)))
  }

  function ReadField(env: Env, json: string, sec: Section, key: string, v: nat, f: Fields): Result<Fields>
    requires v <= |json|
  {
    match NameOf(sec, key)
    case None => Ok(f)
    case Some(name) => ReadNamed(env, json, name, v, f)
  }

  predicate Has(json: string, i: nat, c: char) { i < |json| && json[i] == c }

  /** A key and its colon: the key, and where the value begins. */
  function ReadKey(json: string, i: nat): (r: Result<(string, nat)>)
    ensures r.Ok? ==> i < r.value.1 <= |json|
  {
    match SkipString(json, i)
    case None => Err(INVALID_FORMAT)
    case Some(end) =>
      var colon := SkipWs(json, end);
      if !Has(json, colon, ':') then Err(INVALID_FORMAT) else Ok((json[i + 1..end - 1], SkipWs(json, colon + 1)))
  }

  /** Why a value cannot be skipped: only a number is an invalid value. */
  function SkipError(json: string, v: nat): string {
    var i := SkipWs(json, v);
    if i < |json| && (json[i] == '-' || json[i] == '+' || IsDigit(json[i])) then INVALID_VALUE else INVALID_FORMAT
  }

  function SkipComma(json: string, i: nat): (r: nat)
    ensures i <= r && (i <= |json| ==> r <= |json|)
  {
    var n := SkipWs(json, i);
    if Has(json, n, ',') then n + 1 else n
  }

  /** One field with its key, and the comma behind it. */
  function ReadEntry(env: Env, json: string, at: nat, sec: Section, f: Fields): (r: Result<(Fields, nat)>)
    requires at <= |json|
    ensures r.Ok? ==> at < r.value.1 <= |json|
  {
    var (key, v) :- ReadKey(json, at);
    var f' :- ReadField(env, json, sec, key, v, f);
    var end :- Or(SkipValue(json, v), SkipError(json, v));
    Ok((f', SkipComma(json, end)))
  }

  /** One of the five known objects, from behind its opening brace. */
  function ReadObject(env: Env, json: string, i: nat, sec: Section, f: Fields): (r: Result<(Fields, nat)>)
    requires i <= |json|
    ensures r.Ok? ==> i < r.value.1 <= |json|
    decreases |json| - i
  {
    var at := SkipWs(json, i);
    if Has(json, at, '}') then Ok((f, at + 1))
    else
      var (f', next) :- ReadEntry(env, json, at, sec, f);
      ReadObject(env, json, next, sec, f')
  }

  function SectionOf(key: string): Option<Section> {
    if key == "transaction" then Some(Transaction) else if key == "customer" then Some(Customer)
    else if key == "merchant" then Some(Merchant) else if key == "terminal" then Some(Terminal) else None
  }

  /** The last transaction, which may be `null`. */
  function ReadLast(env: Env, json: string, v: nat, f: Fields): (r: Result<(Fields, nat)>)
    requires v <= |json|
    ensures r.Ok? ==> v <= r.value.1 <= |json|
  {
    if Has(json, v, 'n') then
      var end :- Or(SkipValue(json, v), SkipError(json, v));
      Ok((f.(last := true), end))
    else if Has(json, v, '{') then ReadObject(env, json, v + 1, Last, f.(last := true))
    else Err(INVALID_FORMAT)
  }

  /** The value of one key of the outermost object. */
  function ReadTopValue(env: Env, json: string, key: string, v: nat, f: Fields): (r: Result<(Fields, nat)>)
    requires v <= |json|
    ensures r.Ok? ==> v <= r.value.1 <= |json|
  {
    if SectionOf(key).Some? then
      if Has(json, v, '{') then ReadObject(env, json, v + 1, SectionOf(key).value, f) else Err(INVALID_FORMAT)
    else if key == "last_transaction" then ReadLast(env, json, v, f)
    else
      var end :- Or(SkipValue(json, v), SkipError(json, v));
      Ok((f, end))
  }

  /** One member of the outermost object, and the comma behind it. */
  function ReadMember(env: Env, json: string, at: nat, f: Fields): (r: Result<(Fields, nat)>)
    requires at <= |json|
    ensures r.Ok? ==> at < r.value.1 <= |json|
  {
    var (key, v) :- ReadKey(json, at);
    var (f', end) :- ReadTopValue(env, json, key, v, f);
    Ok((f', SkipComma(json, end)))
  }

  function ReadTop(env: Env, json: string, i: nat, f: Fields): Result<Fields>
    requires i <= |json|
    decreases |json| - i
  {
    var at := SkipWs(json, i);
    if at >= |json| then Err(INVALID_FORMAT)
    else if json[at] == '}' then Ok(f)
    else
      var (f', next) :- ReadMember(env, json, at, f);
      ReadTop(env, json, next, f')
  }

  predicate AllPresent(f: Fields) {
    && f.amount.Some? && f.installments.Some? && f.requested.Some? && f.customerAvg.Some? && f.txCount.Some?
    && f.known.Some?
    && f.merchant.Some? && f.mcc.Some? && f.merchantAvg.Some? && f.online.Some? && f.card.Some? && f.km.Some? && f.last
  }

  function Finish(f: Fields): Result<Fields> {
    if !AllPresent(f) then Err(MISSING_FIELD)
    else if f.lastMinute.Some? != f.lastKm.Some? then Err(INVALID_FORMAT)
    else Ok(f)
  }

  /** The single-pass parser, as a function of the text. */
  function SinglePass(env: Env, json: string): Result<Fields> {
    var i := SkipWs(json, 0);
    if Has(json, i, '{') then Members(env, json, i + 1, NOTHING_READ) else Err(INVALID_FORMAT)
  }

  /** The members of the outermost object, from `i` on, and whether they are all there. */
  function Members(env: Env, json: string, i: nat, f: Fields): Result<Fields>
    requires i <= |json|
  {
    Finished(ReadTop(env, json, i, f))
  }

  // ----- the loops of the single-pass parser -----

  method ScanDouble(env: Env, json: string, start: nat) returns (r: Result<real>)
    requires start <= |json|
    ensures r == ReadDouble(env, json, start)
  {
    var j, seenDot, seenDigit := start, false, false;
    while j < |json|
      invariant start <= j <= |json|
      invariant DoubleEnd(json, start, start, false, false) == DoubleEnd(json, start, j, seenDot, seenDigit)
    {
      var b := json[j];
      if IsDigit(b) {
        seenDigit, j := true, j + 1;
      } else if (b == '-' || b == '+') && j == start {
        j := j + 1;
      } else if b == '.' && !seenDot {
        seenDot, j := true, j + 1;
      } else if (b == 'e' || b == 'E') && seenDigit {
        j := j + 1;
        if j < |json| && (json[j] == '-' || json[j] == '+') { j := j + 1; }
        ghost var digits := j;
        while j < |json| && IsDigit(json[j])
          invariant digits <= j <= |json| && SkipDigits(json, digits) == SkipDigits(json, j)
        {
          j := j + 1;
        }
        break;
      } else {
        break;
      }
    }
    r := if j == start then Err(INVALID_VALUE) else NumberOf(env, json[start..j]);
  }

  /** The names found before `i`; `all` is what is found in all. */
  ghost predicate FoundTo(json: string, i: nat, end: nat, names: seq<string>, all: Result<seq<string>>) {
    i <= end <= |json| && all == After(names, MerchantsIn(json, i, end))
  }

  /** The strings between `start` and `end`; the first 64 are hashed. */
  method HashMerchants(env: Env, json: string, start: nat, end: nat) returns (r: Result<seq<int>>)
    requires start <= end <= |json|
    ensures r == HashedNames(env, MerchantsIn(json, start, end))
  {
    var i: nat, hashes := start, [];
    ghost var names: seq<string>, all := [], MerchantsIn(json, start, end);
    AfterNothing(all);
    while i < end
      invariant FoundTo(json, i, end, names, all) && hashes == Hashed(env, names)
      decreases end - i
    {
      OneMerchant(json, i, end, names, all);
      var found := FindName(json, i, end);
      if found.NoName? { return Ok(hashes); }
      if found.Unclosed? { return Err(INVALID_FORMAT); }
      hashes := AddHash(env, hashes, found.text, names);
      names, i := names + [found.text], found.next;
    }
    OneMerchant(json, i, end, names, all);
    r := Ok(hashes);
  }

  function HashedNames(env: Env, names: Result<seq<string>>): Result<seq<int>> {
    if names.Ok? then Ok(Hashed(env, names.value)) else Err(INVALID_FORMAT)
  }

  method AddHash(env: Env, hashes: seq<int>, name: string, ghost names: seq<string>) returns (r: seq<int>)
    requires hashes == Hashed(env, names)
    ensures r == Hashed(env, names + [name])
  {
    HashedOneMore(env, names, name);
    r := if |hashes| < MAX_HASHES then hashes + [env.hash(name)] else hashes;
  }

  /** One more name: none, or one that is not closed, or one more. */
  lemma {:induction false} OneMerchant(json: string, i: nat, end: nat, names: seq<string>, all: Result<seq<string>>)
    requires FoundTo(json, i, end, names, all)
    ensures match FindName(json, i, end)
            case NoName => all == Ok(names)
            case Unclosed => all == Err(INVALID_FORMAT)
            case Name(name, next) => FoundTo(json, next, end, names + [name], all)
  {
    assert names + [] == names;
    var found := FindName(json, i, end);
    if found.Name? { AfterOne(names, found.text, MerchantsIn(json, found.next, end)); }
  }

  lemma HashedOneMore(env: Env, names: seq<string>, name: string)
    ensures |Hashed(env, names)| == Min(|names|, MAX_HASHES)
    ensures Hashed(env, names + [name]) == if |names| < MAX_HASHES then Hashed(env, names) + [env.hash(name)]
            else Hashed(env, names)
  {
  }

  /** `read_known_merchants_at`. */
  method ScanMerchants(env: Env, json: string, start: nat) returns (r: Result<seq<int>>)
    ensures r == ReadMerchants(env, json, start)
  {
    if start >= |json| || json[start] != '[' { return Err(INVALID_FORMAT); }
    var found := Position(json, ']', start, |json|);
    if found.None? { return Err(INVALID_FORMAT); }
    r := HashMerchants(env, json, start + 1, found.value);
  }

  ghost function After(names: seq<string>, rest: Result<seq<string>>): Result<seq<string>> {
    if rest.Err? then rest else Ok(names + rest.value)
  }

  lemma AfterNothing(rest: Result<seq<string>>)
    ensures After([], rest) == rest
  {
    if rest.Ok? { assert [] + rest.value == rest.value; }
  }

  lemma AfterOne(names: seq<string>, name: string, rest: Result<seq<string>>)
    ensures After(names, After([name], rest)) == After(names + [name], rest)
  {
    if rest.Ok? { ConcatAssoc(names, [name], rest.value); }
  }

  method ScanInt(env: Env, json: string, start: nat) returns (r: Result<int>)
    requires start <= |json|
    ensures r == ReadInt(env, json, start)
  {
    var j := start;
    if j < |json| && json[j] == '-' { j := j + 1; }
    ghost var digits := j;
    while j < |json| && IsDigit(json[j])
      invariant digits <= j <= |json| && SkipDigits(json, digits) == SkipDigits(json, j)
    {
      j := j + 1;
    }
    r := if j == start || (j == start + 1 && json[start] == '-') then Err(INVALID_VALUE)
      else Ok(env.integer(json[start..j]));
  }

  method ScanText(json: string, start: nat) returns (r: Result<string>)
    ensures r == ReadString(json, start)
  {
    var end := ScanString(json, start);
    r := if end.None? then Err(INVALID_VALUE) else Ok(json[start + 1..end.value - 1]);
  }

  method ScanTime(env: Env, json: string, start: nat) returns (r: Result<Calendar.DateTime>)
    ensures r == ReadTime(env, json, start)
  {
    var text :- ScanText(json, start);
    r := env.time(text);
  }

  /** The value of a known field. */
  method ParseNamed(env: Env, json: string, name: FieldName, v: nat, f: Fields) returns (r: Result<Fields>)
    requires v <= |json|
    ensures r == ReadNamed(env, json, name, v, f)
  {
    match name {
      case Amount => var x :- ScanDouble(env, json, v); r := Ok(f.(amount := Some(x)));
      case Installments => var x :- ScanInt(env, json, v); r := Ok(f.(installments := Some(x)));
      case RequestedAt => var x :- ScanTime(env, json, v); r := Ok(f.(requested := Some(x)));
      case CustomerAvg => var x :- ScanDouble(env, json, v); r := Ok(f.(customerAvg := Some(x)));
      case TxCount => var x :- ScanInt(env, json, v); r := Ok(f.(txCount := Some(x)));
      case KnownMerchants => var x :- ScanMerchants(env, json, v); r := Ok(f.(known := Some(x)));
      case MerchantId => var x :- ScanText(json, v); r := Ok(f.(merchant := Some(env.hash(x))));
      case Mcc => var x :- ScanText(json, v); r := Ok(f.(mcc := Some(env.risk(x))));
      case MerchantAvg => var x :- ScanDouble(env, json, v); r := Ok(f.(merchantAvg := Some(x)));
      case IsOnline => var x :- ReadBool(json, v); r := Ok(f.(online := Some(x)));
      case CardPresent => var x :- ReadBool(json, v); r := Ok(f.(card := Some(x)));
      case KmFromHome => var x :- ScanDouble(env, json, v); r := Ok(f.(km := Some(x)));
      case Timestamp => var x :- ScanTime(env, json, v); r := Ok(f.(lastMinute := Some(x.epochMinute)));
      case KmFromCurrent => var x :- ScanDouble(env, json, v); r := Ok(f.(lastKm := Some(x)));
    }
  }

  method ParseKey(json: string, i: nat) returns (r: Result<(string, nat)>)
    ensures r == ReadKey(json, i)
  {
    var end := ScanString(json, i);
    if end.None? { return Err(INVALID_FORMAT); }
    var colon := ScanWs(json, end.value);
    if !Has(json, colon, ':') { return Err(INVALID_FORMAT); }
    var v := ScanWs(json, colon + 1);
    r := Ok((json[i + 1..end.value - 1], v));
  }

  method ParseField(env: Env, json: string, sec: Section, key: string, v: nat, f: Fields) returns (r: Result<Fields>)
    requires v <= |json|
    ensures r == ReadField(env, json, sec, key, v, f)
  {
    var name := NameOf(sec, key);
    if name.None? { return Ok(f); }
    r := ParseNamed(env, json, name.value, v, f);
  }

  method ParseSkip(json: string, v: nat) returns (r: Result<nat>)
    ensures r == Or(SkipValue(json, v), SkipError(json, v))
  {
    var end := ScanValue(json, v);
    r := Or(end, SkipError(json, v));
  }

  method ParseComma(json: string, i: nat) returns (next: nat)
    ensures next == SkipComma(json, i)
  {
    next := ScanWs(json, i);
    if Has(json, next, ',') { next := next + 1; }
  }

  method ParseEntry(env: Env, json: string, at: nat, sec: Section, f: Fields) returns (r: Result<(Fields, nat)>)
    requires at <= |json|
    ensures r == ReadEntry(env, json, at, sec, f)
  {
    var head :- ParseKey(json, at);
    var g :- ParseField(env, json, sec, head.0, head.1, f);
    var end :- ParseSkip(json, head.1);
    var next := ParseComma(json, end);
    r := Ok((g, next));
  }

  /** One of the five field loops. */
  method ParseObject(env: Env, json: string, start: nat, sec: Section, f: Fields) returns (r: Result<(Fields, nat)>)
    requires start <= |json|
    ensures r == ReadObject(env, json, start, sec, f)
  {
    var i: nat, g := start, f;
    while true
      invariant start <= i <= |json| && ReadObject(env, json, start, sec, f) == ReadObject(env, json, i, sec, g)
      decreases |json| - i
    {
      i := ScanWs(json, i);
      if Has(json, i, '}') { return Ok((g, i + 1)); }
      var read :- ParseEntry(env, json, i, sec, g);
      g, i := read.0, read.1;
    }
  }

  method ParseLast(env: Env, json: string, v: nat, f: Fields) returns (r: Result<(Fields, nat)>)
    requires v <= |json|
    ensures r == ReadLast(env, json, v, f)
  {
    if Has(json, v, 'n') {
      var end :- ParseSkip(json, v);
      return Ok((f.(last := true), end));
    }
    if !Has(json, v, '{') { return Err(INVALID_FORMAT); }
    r := ParseObject(env, json, v + 1, Last, f.(last := true));
  }

  method ParseTopValue(env: Env, json: string, key: string, v: nat, f: Fields) returns (r: Result<(Fields, nat)>)
    requires v <= |json|
    ensures r == ReadTopValue(env, json, key, v, f)
  {
    var section := SectionOf(key);
    if section.Some? {
      if !Has(json, v, '{') { return Err(INVALID_FORMAT); }
      r := ParseObject(env, json, v + 1, section.value, f);
    } else if key == "last_transaction" {
      r := ParseLast(env, json, v, f);
    } else {
      var end :- ParseSkip(json, v);
      r := Ok((f, end));
    }
  }

  method ParseMember(env: Env, json: string, at: nat, f: Fields) returns (r: Result<(Fields, nat)>)
    requires at <= |json|
    ensures r == ReadMember(env, json, at, f)
  {
    var head :- ParseKey(json, at);
    var read :- ParseTopValue(env, json, head.0, head.1, f);
    var next := ParseComma(json, read.1);
    r := Ok((read.0, next));
  }

  /** The outermost loop, and what follows it. */
  method ParseTop(env: Env, json: string, start: nat, nothing: Fields) returns (r: Result<Fields>)
    requires start <= |json|
    ensures r == Members(env, json, start, nothing)
  {
    var i: nat, f := start, nothing;
    while true
      invariant start <= i <= |json| && Members(env, json, start, nothing) == Members(env, json, i, f)
      decreases |json| - i
    {
      i := ScanWs(json, i);
      if i >= |json| { return Err(INVALID_FORMAT); }
      if json[i] == '}' { return Finish(f); }
      var read :- ParseMember(env, json, i, f);
      f, i := read.0, read.1;
    }
  }

  /** `try_parse_single_pass`. */
  method ParseSinglePass(env: Env, json: string) returns (r: Result<Fields>)
    ensures r == SinglePass(env, json)
  {
    var i := ScanWs(json, 0);
    if !Has(json, i, '{') { return Err(INVALID_FORMAT); }
    r := ParseTop(env, json, i + 1, NOTHING_READ);
  }

  function Finished(r: Result<Fields>): Result<Fields> { if r.Err? then r else Finish(r.value) }
}
