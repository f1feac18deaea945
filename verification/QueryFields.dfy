/**
 * Which well-formed queries are accepted, and what is read from them: the last value of each
 * of the fourteen fields, by its name.
 */
module QueryFields {
  import opened Base
  import opened JsonScan
  import opened QueryParsers
  import opened QueryMeaning
  import opened QueryOrder

  // ----- the fields by name -----

  /** The last value of a key among the members of an object. */
  function LastValue(ms: JsonScan.Members, key: string): Option<Value> {
    match ms
    case NoMembers => None
    case Member(k, _, _, value, _, _, more) =>
      if LastValue(more, key).Some? then LastValue(more, key) else if BodyText(k) == key then Some(value) else None
  }

  /** The last value of a key in the objects that stand under another key. */
  function FieldValue(ms: JsonScan.Members, part: string, key: string): Option<Value> {
    match ms
    case NoMembers => None
    case Member(k, _, _, value, _, _, more) =>
      if FieldValue(more, part, key).Some? then FieldValue(more, part, key)
      else if BodyText(k) == part && value.Object? then LastValue(value.members, key)
      else None
  }

  function ObjectKey(sec: Section): string {
    match sec
    case Transaction => "transaction"
    case Customer => "customer"
    case Merchant => "merchant"
    case Terminal => "terminal"
    case Last => "last_transaction"
  }

  function KeyOf(name: FieldName): string {
    match name
    case Amount => "amount"
    case Installments => "installments"
    case RequestedAt => "requested_at"
    case CustomerAvg => "avg_amount"
    case TxCount => "tx_count_24h"
    case KnownMerchants => "known_merchants"
    case MerchantId => "id"
    case Mcc => "mcc"
    case MerchantAvg => "avg_amount"
    case IsOnline => "is_online"
    case CardPresent => "card_present"
    case KmFromHome => "km_from_home"
    case Timestamp => "timestamp"
    case KmFromCurrent => "km_from_current"
  }

  // ----- the kind and the meaning of a value -----

  predicate IsNumber(env: Env, v: Value) {
    v.Number? && (env.fast(NumberText(v)).Some? || env.slow(NumberText(v)).Some?)
  }

  /** The fast reader's number where there is one, and the slow one's otherwise. */
  function NumberIn(env: Env, v: Value): real
    requires IsNumber(env, v)
  {
    if env.fast(NumberText(v)).Some? then env.fast(NumberText(v)).value else env.slow(NumberText(v)).value
  }

  /** What a value has to be for its field. */
  predicate KindOk(env: Env, name: FieldName, v: Value) {
    match name
    case Amount => IsNumber(env, v)
    case Installments => v.Number?
    case RequestedAt => v.Quoted? && env.time(BodyText(v.body)).Ok?
    case CustomerAvg => IsNumber(env, v)
    case TxCount => v.Number?
    case KnownMerchants => v.Array?
    case MerchantId => v.Quoted?
    case Mcc => v.Quoted?
    case MerchantAvg => IsNumber(env, v)
    case IsOnline => v == Word("true") || v == Word("false")
    case CardPresent => v == Word("true") || v == Word("false")
    case KmFromHome => IsNumber(env, v)
    case Timestamp => v.Quoted? && env.time(BodyText(v.body)).Ok?
    case KmFromCurrent => IsNumber(env, v)
  }

  /** `r` has the field from `v`, or as in `f` when there is no value. */
  predicate FieldHolds(env: Env, name: FieldName, v: Option<Value>, f: Fields, r: Fields)
    requires v.Some? ==> KindOk(env, name, v.value)
  {
    match name
    case Amount => r.amount == if v.Some? then Some(NumberIn(env, v.value)) else f.amount
    case Installments =>
      r.installments
      == if v.Some? then Some(env.integer((if v.value.negative then "-" else "") + v.value.whole)) else f.installments
    case RequestedAt => r.requested == if v.Some? then Some(env.time(BodyText(v.value.body)).value) else f.requested
    case CustomerAvg => r.customerAvg == if v.Some? then Some(NumberIn(env, v.value)) else f.customerAvg
    case TxCount =>
      r.txCount
      == if v.Some? then Some(env.integer((if v.value.negative then "-" else "") + v.value.whole)) else f.txCount
    case KnownMerchants =>
      && (v.None? ==> r.known == f.known)
      && (v.Some? ==> r.known.Some? && HashesOf(env, NamesOf(v.value.items), r.known.value))
    case MerchantId => r.merchant == if v.Some? then Some(env.hash(BodyText(v.value.body))) else f.merchant
    case Mcc => r.mcc == if v.Some? then Some(env.risk(BodyText(v.value.body))) else f.mcc
    case MerchantAvg => r.merchantAvg == if v.Some? then Some(NumberIn(env, v.value)) else f.merchantAvg
    case IsOnline => r.online == if v.Some? then Some(v.value == Word("true")) else f.online
    case CardPresent => r.card == if v.Some? then Some(v.value == Word("true")) else f.card
    case KmFromHome => r.km == if v.Some? then Some(NumberIn(env, v.value)) else f.km
    case Timestamp =>
      r.lastMinute == if v.Some? then Some(env.time(BodyText(v.value.body)).value.epochMinute) else f.lastMinute
    case KmFromCurrent => r.lastKm == if v.Some? then Some(NumberIn(env, v.value)) else f.lastKm
  }

  /** The hashes of the first 64 names. */
  predicate HashesOf(env: Env, names: seq<string>, hashes: seq<int>) {
    |hashes| == Min(|names|, 64) && forall i :: 0 <= i < |hashes| ==> hashes[i] == env.hash(names[i])
  }

  /** A value of the wrong kind is an error, and only that. */
  lemma {:induction false} NamedOfIff(env: Env, name: FieldName, v: Value, f: Fields)
    ensures NamedOf(env, name, v, f).Ok? <==> KindOk(env, name, v)
    ensures KindOk(env, name, v) ==> FieldHolds(env, name, Some(v), f, NamedOf(env, name, v, f).value)
  {
  }

  lemma OneKey(sec: Section, key: string, name: FieldName)
    requires HomeOf(name) == sec
    ensures NameOf(sec, key) == Some(name) <==> key == KeyOf(name)
  {
  }

  lemma {:induction false} OtherFieldStays(env: Env, name: FieldName, v: Value, f: Fields, other: FieldName)
    requires name != other && KindOk(env, name, v)
    ensures FieldHolds(env, other, None, f, NamedOf(env, name, v, f).value)
  {
    FieldStays(env, name, v, f);
    PutKeeps(env, name, NamedOf(env, name, v, f).value, f, other);
  }

  lemma PutKeeps(env: Env, name: FieldName, r: Fields, f: Fields, other: FieldName)
    requires name != other && r == PutField(name, r, f)
    ensures FieldHolds(env, other, None, f, r)
  {
  }

  // ----- the walk reads the last values -----

  /** A value that fits the field it is for. */
  predicate Fits(env: Env, name: FieldName, v: Option<Value>) { v.Some? ==> KindOk(env, name, v.value) }

  lemma HoldsThen(env: Env, name: FieldName, v: Option<Value>, w: Option<Value>, f: Fields, g: Fields, r: Fields)
    requires Fits(env, name, v) && FieldHolds(env, name, v, f, g) && Fits(env, name, w)
    requires FieldHolds(env, name, w, g, r)
    ensures FieldHolds(env, name, if w.Some? then w else v, f, r)
  {
  }

  lemma {:induction false} OneFieldHolds(env: Env, sec: Section, key: string, v: Value, f: Fields, name: FieldName)
    requires HomeOf(name) == sec && FieldOf(env, sec, key, v, f).Ok?
    ensures var o := if key == KeyOf(name) then Some(v) else None;
            Fits(env, name, o) && FieldHolds(env, name, o, f, FieldOf(env, sec, key, v, f).value)
  {
    OneKey(sec, key, name);
    var other := NameOf(sec, key);
    if other.Some? {
      NamedOfIff(env, other.value, v, f);
      if other.value != name { OtherFieldStays(env, other.value, v, f, name); }
    }
  }

  /** Every field of an object is read from its last value. */
  lemma {:induction false} FieldsHold(env: Env, sec: Section, ms: JsonScan.Members, f: Fields, name: FieldName)
    requires HomeOf(name) == sec && FieldsOf(env, sec, ms, f).Ok?
    ensures var o := LastValue(ms, KeyOf(name));
            Fits(env, name, o) && FieldHolds(env, name, o, f, FieldsOf(env, sec, ms, f).value)
    decreases ms
  {
    if ms.Member? {
      var key := BodyText(ms.key);
      var g := FieldOf(env, sec, key, ms.value, f).value;
      OneFieldHolds(env, sec, key, ms.value, f, name);
      FieldsHold(env, sec, ms.more, g, name);
      HoldsThen(env, name, if key == KeyOf(name) then Some(ms.value) else None, LastValue(ms.more, KeyOf(name)), f, g,
                FieldsOf(env, sec, ms.more, g).value);
    }
  }

  lemma OtherSectionStays(env: Env, sec: Section, f: Fields, r: Fields, name: FieldName)
    requires HomeOf(name) != sec && r == Put(sec, r, f)
    ensures FieldHolds(env, name, None, f, r)
  {
  }

  lemma OnePart(sec: Section, key: string)
    ensures PartOf(key) == Some(sec) <==> key == ObjectKey(sec)
  {
  }

  /** What one member of the document has for a field. */
  function MemberValue(key: string, v: Value, name: FieldName): Option<Value> {
    if key == ObjectKey(HomeOf(name)) && v.Object? then LastValue(v.members, KeyOf(name)) else None
  }

  lemma {:induction false} OneMemberHolds(env: Env, key: string, v: Value, f: Fields, name: FieldName)
    requires TopValueOf(env, key, v, f).Ok?
    ensures var o := MemberValue(key, v, name);
            Fits(env, name, o) && FieldHolds(env, name, o, f, TopValueOf(env, key, v, f).value)
  {
    OnePart(HomeOf(name), key);
    if PartOf(key).Some? && PartOf(key).value != HomeOf(name) {
      TopStays(env, key, v, f);
      OtherSectionStays(env, PartOf(key).value, f, TopValueOf(env, key, v, f).value, name);
    } else if PartOf(key).Some? && v.Object? {
      FieldsHold(env, PartOf(key).value, v.members, if SectionOf(key).Some? then f else f.(last := true), name);
    }
  }

  lemma {:induction false} DocumentHolds(env: Env, ms: JsonScan.Members, f: Fields, name: FieldName)
    requires DocumentOf(env, ms, f).Ok?
    ensures var o := FieldValue(ms, ObjectKey(HomeOf(name)), KeyOf(name));
            Fits(env, name, o) && FieldHolds(env, name, o, f, DocumentOf(env, ms, f).value)
    decreases ms
  {
    if ms.Member? {
      var key := BodyText(ms.key);
      var g := TopValueOf(env, key, ms.value, f).value;
      OneMemberHolds(env, key, ms.value, f, name);
      DocumentHolds(env, ms.more, g, name);
      HoldsThen(env, name, MemberValue(key, ms.value, name), FieldValue(ms.more, ObjectKey(HomeOf(name)), KeyOf(name)),
                f,
                g, DocumentOf(env, ms.more, g).value);
    }
  }

  lemma NamedKeepsLast(env: Env, name: FieldName, v: Value, f: Fields)
    requires NamedOf(env, name, v, f).Ok?
    ensures NamedOf(env, name, v, f).value.last == f.last
  {
  }

  lemma {:induction false} FieldsKeepLast(env: Env, sec: Section, ms: JsonScan.Members, f: Fields)
    requires FieldsOf(env, sec, ms, f).Ok?
    ensures FieldsOf(env, sec, ms, f).value.last == f.last
    decreases ms
  {
    if ms.Member? {
      var name := NameOf(sec, BodyText(ms.key));
      if name.Some? { NamedKeepsLast(env, name.value, ms.value, f); }
      FieldsKeepLast(env, sec, ms.more, FieldOf(env, sec, BodyText(ms.key), ms.value, f).value);
    }
  }

  lemma {:induction false} MemberMarksLast(env: Env, key: string, v: Value, f: Fields)
    requires TopValueOf(env, key, v, f).Ok?
    ensures TopValueOf(env, key, v, f).value.last == (f.last || key == "last_transaction")
  {
    OnePart(Last, key);
    if PartOf(key).Some? && v.Object? {
      FieldsKeepLast(env, PartOf(key).value, v.members, if SectionOf(key).Some? then f else f.(last := true));
    }
  }

  lemma {:induction false} DocumentMarksLast(env: Env, ms: JsonScan.Members, f: Fields)
    requires DocumentOf(env, ms, f).Ok?
    ensures DocumentOf(env, ms, f).value.last == (f.last || LastValue(ms, "last_transaction").Some?)
    decreases ms
  {
    if ms.Member? {
      MemberMarksLast(env, BodyText(ms.key), ms.value, f);
      DocumentMarksLast(env, ms.more, TopValueOf(env, BodyText(ms.key), ms.value, f).value);
    }
  }

  // ----- when the walk meets no error -----

  /** Whatever field a key is for, its value fits. */
  ghost predicate ValueTyped(env: Env, sec: Section, key: string, v: Value) {
    forall name :: HomeOf(name) == sec && KeyOf(name) == key ==> KindOk(env, name, v)
  }

  ghost predicate FieldsTyped(env: Env, sec: Section, ms: JsonScan.Members) {
    ms.Member? ==> ValueTyped(env, sec, BodyText(ms.key), ms.value) && FieldsTyped(env, sec, ms.more)
  }

  /** One of the five objects; only the last transaction may be null instead. */
  ghost predicate PartTyped(env: Env, sec: Section, v: Value) {
    (v.Object? && FieldsTyped(env, sec, v.members)) || (sec == Last && v == Word("null"))
  }

  ghost predicate DocumentTyped(env: Env, ms: JsonScan.Members) {
    ms.Member? ==>
      && (forall sec :: ObjectKey(sec) == BodyText(ms.key) ==> PartTyped(env, sec, ms.value))
      && DocumentTyped(env, ms.more)
  }

  lemma {:induction false} FieldOkIff(env: Env, sec: Section, key: string, v: Value, f: Fields)
    ensures FieldOf(env, sec, key, v, f).Ok? <==> ValueTyped(env, sec, key, v)
  {
    var name := NameOf(sec, key);
    HomeOfNamed(sec, key);
    forall other | HomeOf(other) == sec ensures NameOf(sec, key) == Some(other) <==> key == KeyOf(other) {
      OneKey(sec, key, other);
    }
    if name.Some? { NamedOfIff(env, name.value, v, f); }
  }

  lemma {:induction false} FieldsOkIff(env: Env, sec: Section, ms: JsonScan.Members, f: Fields)
    ensures FieldsOf(env, sec, ms, f).Ok? <==> FieldsTyped(env, sec, ms)
    decreases ms
  {
    if ms.Member? {
      FieldOkIff(env, sec, BodyText(ms.key), ms.value, f);
      var g := FieldOf(env, sec, BodyText(ms.key), ms.value, f);
      if g.Ok? { FieldsOkIff(env, sec, ms.more, g.value); }
    }
  }

  lemma {:induction false} MemberOkIff(env: Env, key: string, v: Value, f: Fields)
    ensures TopValueOf(env, key, v, f).Ok? <==> forall sec :: ObjectKey(sec) == key ==> PartTyped(env, sec, v)
  {
    forall sec ensures PartOf(key) == Some(sec) <==> key == ObjectKey(sec) { OnePart(sec, key); }
    if PartOf(key).Some? && v.Object? {
      FieldsOkIff(env, PartOf(key).value, v.members, if SectionOf(key).Some? then f else f.(last := true));
    }
  }

  lemma {:induction false} DocumentOkIff(env: Env, ms: JsonScan.Members, f: Fields)
    ensures DocumentOf(env, ms, f).Ok? <==> DocumentTyped(env, ms)
    decreases ms
  {
    if ms.Member? {
      MemberOkIff(env, BodyText(ms.key), ms.value, f);
      var g := TopValueOf(env, BodyText(ms.key), ms.value, f);
      if g.Ok? { DocumentOkIff(env, ms.more, g.value); }
    }
  }

  // ----- which queries are accepted -----

  /** The twelve fields that have to be there, and the last transaction. */
  predicate NothingMissing(ms: JsonScan.Members) {
    && FieldValue(ms, "transaction", "amount").Some? && FieldValue(ms, "transaction", "installments").Some?
    && FieldValue(ms, "transaction", "requested_at").Some? && FieldValue(ms, "customer", "avg_amount").Some?
    && FieldValue(ms, "customer", "tx_count_24h").Some? && FieldValue(ms, "customer", "known_merchants").Some?
    && FieldValue(ms, "merchant", "id").Some? && FieldValue(ms, "merchant", "mcc").Some?
    && FieldValue(ms, "merchant", "avg_amount").Some? && FieldValue(ms, "terminal", "is_online").Some?
    && FieldValue(ms, "terminal", "card_present").Some? && FieldValue(ms, "terminal", "km_from_home").Some?
    && LastValue(ms, "last_transaction").Some?
  }

  /** The last transaction has both of its fields or neither. */
  predicate LastIsWhole(ms: JsonScan.Members) {
    var minute, km := FieldValue(ms, "last_transaction", "timestamp"),
      FieldValue(ms, "last_transaction", "km_from_current");
    minute.Some? <==> km.Some?
  }

  /** Every field as its last value says. */
  ghost predicate ReadFrom(env: Env, ms: JsonScan.Members, f: Fields) {
    forall name ::
      var v := FieldValue(ms, ObjectKey(HomeOf(name)), KeyOf(name));
      Fits(env, name, v) && FieldHolds(env, name, v, NOTHING_READ, f)
  }

  predicate IsThere(f: Fields, name: FieldName) {
    match name
    case Amount => f.amount.Some?
    case Installments => f.installments.Some?
    case RequestedAt => f.requested.Some?
    case CustomerAvg => f.customerAvg.Some?
    case TxCount => f.txCount.Some?
    case KnownMerchants => f.known.Some?
    case MerchantId => f.merchant.Some?
    case Mcc => f.mcc.Some?
    case MerchantAvg => f.merchantAvg.Some?
    case IsOnline => f.online.Some?
    case CardPresent => f.card.Some?
    case KmFromHome => f.km.Some?
    case Timestamp => f.lastMinute.Some?
    case KmFromCurrent => f.lastKm.Some?
  }

  lemma {:induction false} FieldPresent(env: Env, ms: JsonScan.Members, f: Fields, name: FieldName, part: string,
                                        key: string)
    requires ReadFrom(env, ms, f) && part == ObjectKey(HomeOf(name)) && key == KeyOf(name)
    ensures IsThere(f, name) <==> FieldValue(ms, part, key).Some?
  {
    var v := FieldValue(ms, ObjectKey(HomeOf(name)), KeyOf(name));
    assert Fits(env, name, v) && FieldHolds(env, name, v, NOTHING_READ, f);
  }

  lemma {:induction false} FirstHalfPresent(env: Env, ms: JsonScan.Members, f: Fields)
    requires ReadFrom(env, ms, f)
    ensures f.amount.Some? <==> FieldValue(ms, "transaction", "amount").Some?
    ensures f.installments.Some? <==> FieldValue(ms, "transaction", "installments").Some?
    ensures f.requested.Some? <==> FieldValue(ms, "transaction", "requested_at").Some?
    ensures f.customerAvg.Some? <==> FieldValue(ms, "customer", "avg_amount").Some?
    ensures f.txCount.Some? <==> FieldValue(ms, "customer", "tx_count_24h").Some?
    ensures f.known.Some? <==> FieldValue(ms, "customer", "known_merchants").Some?
  {
    FieldPresent(env, ms, f, Amount, "transaction", "amount");
    FieldPresent(env, ms, f, Installments, "transaction", "installments");
    FieldPresent(env, ms, f, RequestedAt, "transaction", "requested_at");
    FieldPresent(env, ms, f, CustomerAvg, "customer", "avg_amount");
    FieldPresent(env, ms, f, TxCount, "customer", "tx_count_24h");
    FieldPresent(env, ms, f, KnownMerchants, "customer", "known_merchants");
  }

  lemma {:induction false} SecondHalfPresent(env: Env, ms: JsonScan.Members, f: Fields)
    requires ReadFrom(env, ms, f)
    ensures f.merchant.Some? <==> FieldValue(ms, "merchant", "id").Some?
    ensures f.mcc.Some? <==> FieldValue(ms, "merchant", "mcc").Some?
    ensures f.merchantAvg.Some? <==> FieldValue(ms, "merchant", "avg_amount").Some?
    ensures f.online.Some? <==> FieldValue(ms, "terminal", "is_online").Some?
    ensures f.card.Some? <==> FieldValue(ms, "terminal", "card_present").Some?
    ensures f.km.Some? <==> FieldValue(ms, "terminal", "km_from_home").Some?
  {
    FieldPresent(env, ms, f, MerchantId, "merchant", "id");
    FieldPresent(env, ms, f, Mcc, "merchant", "mcc");
    FieldPresent(env, ms, f, MerchantAvg, "merchant", "avg_amount");
    FieldPresent(env, ms, f, IsOnline, "terminal", "is_online");
    FieldPresent(env, ms, f, CardPresent, "terminal", "card_present");
    FieldPresent(env, ms, f, KmFromHome, "terminal", "km_from_home");
  }

  lemma {:induction false} PresentIff(env: Env, ms: JsonScan.Members, f: Fields)
    requires ReadFrom(env, ms, f) && f.last == LastValue(ms, "last_transaction").Some?
    ensures AllPresent(f) <==> NothingMissing(ms)
  {
    FirstHalfPresent(env, ms, f);
    SecondHalfPresent(env, ms, f);
  }

  lemma {:induction false} WholeIff(env: Env, ms: JsonScan.Members, f: Fields)
    requires ReadFrom(env, ms, f)
    ensures f.lastMinute.Some? == f.lastKm.Some? <==> LastIsWhole(ms)
  {
    FieldPresent(env, ms, f, Timestamp, "last_transaction", "timestamp");
    FieldPresent(env, ms, f, KmFromCurrent, "last_transaction", "km_from_current");
  }

  /** A well-formed query is accepted if and only if the values of the known fields are of their
      kinds, all twelve and the last transaction are there, and that has both of its fields or
      neither. What is read are the last values. */
  lemma {:induction false} AcceptedIff(env: Env, json: string, lead: string, document: Value, tail: string)
    requires document.Object? && ValueOk(document) && DocumentPlain(document.members) && AllWs(lead)
    requires json == lead + Text(document) + tail
    ensures var r, ms := SinglePass(env, json), document.members;
            && (r.Ok? <==> DocumentTyped(env, ms) && NothingMissing(ms) && LastIsWhole(ms))
            && (r.Ok? ==> ReadFrom(env, ms, r.value))
            && (r.Err? && DocumentTyped(env, ms) ==>
                  r.message == if NothingMissing(ms) then INVALID_FORMAT else MISSING_FIELD)
  {
    var ms := document.members;
    SinglePassMeans(env, json, lead, document, tail);
    DocumentOkIff(env, ms, NOTHING_READ);
    var f := DocumentOf(env, ms, NOTHING_READ);
    if f.Ok? {
      DocumentMarksLast(env, ms, NOTHING_READ);
      forall name
        ensures var v := FieldValue(ms, ObjectKey(HomeOf(name)), KeyOf(name));
                Fits(env, name, v) && FieldHolds(env, name, v, NOTHING_READ, f.value)
      {
        DocumentHolds(env, ms, NOTHING_READ, name);
      }
      PresentIff(env, ms, f.value);
      WholeIff(env, ms, f.value);
    }
  }
}
