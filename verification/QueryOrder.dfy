/**
 * The order of the members does not matter, neither in the document nor in its objects, and
 * members that are not known do not matter at all.
 */
module QueryOrder {
  import opened Base
  import opened JsonScan
  import opened QueryParsers
  import opened QueryMeaning

  // ----- steps that commute -----

  datatype Entry = Entry(key: string, value: Value)

  type Step = (Entry, Fields) -> Result<Fields>

  function Fold(step: Step, es: seq<Entry>, f: Fields): Result<Fields> {
    if es == [] then Ok(f)
    else
      var g :- step(es[0], f);
      Fold(step, es[1..], g)
  }

  /** The same fields, or an error on both sides. */
  predicate SameResult(a: Result<Fields>, b: Result<Fields>) { a == b || (a.Err? && b.Err?) }

  function Twice(step: Step, a: Entry, b: Entry, f: Fields): Result<Fields> {
    var g :- step(a, f);
    step(b, g)
  }

  ghost predicate Commute(step: Step, a: Entry, b: Entry) {
    forall f :: SameResult(Twice(step, a, b, f), Twice(step, b, a, f))
  }

  ghost predicate AllCommute(step: Step, es: seq<Entry>) {
    forall i, j :: 0 <= i < |es| && 0 <= j < |es| && i != j ==> Commute(step, es[i], es[j])
  }

  lemma {:induction false} FoldTwo(step: Step, a: Entry, b: Entry, es: seq<Entry>, f: Fields)
    ensures Fold(step, [a, b] + es, f)
            == var g := Twice(step, a, b, f); if g.Err? then g else Fold(step, es, g.value)
  {
    assert ([a, b] + es)[0] == a && ([a, b] + es)[1..] == [b] + es;
    assert ([b] + es)[0] == b && ([b] + es)[1..] == es;
  }

  lemma {:induction false} SwapFirst(step: Step, a: Entry, b: Entry, es: seq<Entry>, f: Fields)
    requires Commute(step, a, b)
    ensures SameResult(Fold(step, [a, b] + es, f), Fold(step, [b, a] + es, f))
  {
    FoldTwo(step, a, b, es, f);
    FoldTwo(step, b, a, es, f);
  }

  function Without(es: seq<Entry>, i: nat): seq<Entry>
    requires i < |es|
  {
    es[..i] + es[i + 1..]
  }

  lemma {:induction false} FoldFirst(step: Step, a: Entry, es: seq<Entry>, f: Fields)
    ensures Fold(step, [a] + es, f) == var g := step(a, f); if g.Err? then g else Fold(step, es, g.value)
  {
    assert ([a] + es)[0] == a && ([a] + es)[1..] == es;
  }

  lemma WithoutBehind(es: seq<Entry>, i: nat, tail: seq<Entry>)
    requires 0 < i < |es| && tail == Without(es, 0)
    ensures |tail| == |es| - 1 && es == [es[0]] + tail && tail[i - 1] == es[i]
    ensures [es[i]] + Without(es, i) == [es[i]] + ([es[0]] + Without(tail, i - 1))
  {
    assert tail == es[1..];
    assert es[1..][..i - 1] == es[1..i] && es[1..][i..] == es[i + 1..];
    assert [es[0]] + es[1..i] == es[..i];
  }

  lemma {:induction false} MoveToFront(step: Step, es: seq<Entry>, i: nat, moved: seq<Entry>, f: Fields)
    requires i < |es| && AllCommute(step, es) && moved == [es[i]] + Without(es, i)
    ensures SameResult(Fold(step, es, f), Fold(step, moved, f))
    decreases |es|, 0
  {
    if i == 0 {
      assert moved == es;
    } else {
      var tail := Without(es, 0);
      WithoutBehind(es, i, tail);
      RemainCommuting(step, es, 0);
      MoveFurther(step, es[0], tail, i - 1, es[i], es, moved, f);
    }
  }

  lemma {:induction false} MoveFurther(step: Step, first: Entry, tail: seq<Entry>, i: nat, x: Entry, es: seq<Entry>,
                                       moved: seq<Entry>, f: Fields)
    requires i < |tail| && x == tail[i] && AllCommute(step, tail) && Commute(step, first, x)
    requires es == [first] + tail && moved == [x] + ([first] + Without(tail, i))
    ensures SameResult(Fold(step, es, f), Fold(step, moved, f))
    decreases |tail|, 1
  {
    var g, tailMoved := step(first, f), [x] + Without(tail, i);
    if g.Ok? { MoveToFront(step, tail, i, tailMoved, g.value); }
    FoldFirst(step, first, tail, f);
    MoveOver(step, first, x, Without(tail, i), f);
  }

  lemma {:induction false} MoveOver(step: Step, first: Entry, x: Entry, behind: seq<Entry>, f: Fields)
    requires Commute(step, first, x)
    ensures var g := step(first, f);
            SameResult(if g.Err? then g else Fold(step, [x] + behind, g.value), Fold(step, [x] + ([first] + behind), f))
  {
    FoldFirst(step, first, [x] + behind, f);
    SwapFirst(step, first, x, behind, f);
    assert [first] + ([x] + behind) == [first, x] + behind && [x] + ([first] + behind) == [x, first] + behind;
  }

  lemma WithoutOne(es: seq<Entry>, i: nat)
    requires i < |es|
    ensures multiset(es) == multiset(Without(es, i)) + multiset{es[i]}
  {
    assert es == es[..i] + [es[i]] + es[i + 1..];
  }

  lemma FirstElsewhere(es: seq<Entry>, other: seq<Entry>) returns (i: nat)
    requires multiset(es) == multiset(other) && other != []
    ensures i < |es| && es[i] == other[0] && multiset(Without(es, i)) == multiset(Without(other, 0))
  {
    assert other[0] in multiset(es);
    i :| 0 <= i < |es| && es[i] == other[0];
    WithoutOne(es, i);
    WithoutOne(other, 0);
    SameRest(multiset(Without(es, i)), multiset(Without(other, 0)), multiset{es[i]});
  }

  lemma SameRest(a: multiset<Entry>, b: multiset<Entry>, c: multiset<Entry>)
    requires a + c == b + c
    ensures a == b
  {
    assert a == (a + c) - c && b == (b + c) - c;
  }

  lemma {:induction false} Reordered(step: Step, es: seq<Entry>, other: seq<Entry>, f: Fields)
    requires multiset(es) == multiset(other) && AllCommute(step, es)
    ensures SameResult(Fold(step, es, f), Fold(step, other, f))
    decreases |other|
  {
    if other == [] {
      assert |multiset(es)| == 0;
    } else {
      var i := FirstElsewhere(es, other);
      var x, rest, tail := other[0], Without(es, i), Without(other, 0);
      assert other == [x] + tail;
      RemainCommuting(step, es, i);
      MoveToFront(step, es, i, [x] + rest, f);
      FoldFirst(step, x, rest, f);
      FoldFirst(step, x, tail, f);
      var g := step(x, f);
      if g.Ok? { Reordered(step, rest, tail, g.value); }
    }
  }

  lemma RemainCommuting(step: Step, es: seq<Entry>, i: nat)
    requires i < |es| && AllCommute(step, es)
    ensures AllCommute(step, Without(es, i))
  {
    var rest := Without(es, i);
    forall j, k | 0 <= j < |rest| && 0 <= k < |rest| && j != k ensures Commute(step, rest[j], rest[k]) {
      assert rest[j] == es[if j < i then j else j + 1] && rest[k] == es[if k < i then k else k + 1];
    }
  }

  // ----- each object has its own fields -----

  /** The fields of one object as in `src`, all others as in `dst`. */
  function Put(sec: Section, src: Fields, dst: Fields): Fields {
    match sec
    case Transaction => dst.(amount := src.amount, installments := src.installments, requested := src.requested)
    case Customer => dst.(customerAvg := src.customerAvg, txCount := src.txCount, known := src.known)
    case Merchant => dst.(merchant := src.merchant, mcc := src.mcc, merchantAvg := src.merchantAvg)
    case Terminal => dst.(online := src.online, card := src.card, km := src.km)
    case Last => dst.(last := src.last, lastMinute := src.lastMinute, lastKm := src.lastKm)
  }

  function PutResult(sec: Section, src: Fields, r: Result<Fields>): Result<Fields> {
    if r.Err? then r else Ok(Put(sec, src, r.value))
  }

  /** The object a field belongs to. */
  function HomeOf(name: FieldName): Section {
    match name
    case Amount => Transaction
    case Installments => Transaction
    case RequestedAt => Transaction
    case CustomerAvg => Customer
    case TxCount => Customer
    case KnownMerchants => Customer
    case MerchantId => Merchant
    case Mcc => Merchant
    case MerchantAvg => Merchant
    case IsOnline => Terminal
    case CardPresent => Terminal
    case KmFromHome => Terminal
    case Timestamp => Last
    case KmFromCurrent => Last
  }

  lemma HomeOfNamed(sec: Section, key: string)
    ensures NameOf(sec, key).Some? ==> HomeOf(NameOf(sec, key).value) == sec
  {
  }

  lemma NamedFrame(env: Env, name: FieldName, v: Value, f: Fields, sec: Section, src: Fields)
    requires sec != HomeOf(name)
    ensures NamedOf(env, name, v, Put(sec, src, f)) == PutResult(sec, src, NamedOf(env, name, v, f))
  {
  }

  lemma NamedStays(env: Env, name: FieldName, v: Value, f: Fields)
    ensures var r := NamedOf(env, name, v, f); r.Ok? ==> r.value == Put(HomeOf(name), r.value, f)
  {
  }

  lemma PutTwice(sec: Section, other: Section, a: Fields, b: Fields, f: Fields)
    requires sec != other && a == Put(sec, a, f) && b == Put(other, b, f)
    ensures Put(sec, a, b) == Put(other, b, a)
  {
  }

  // ----- the order of the fields of one object -----

  /** One field as in `src`, all others as in `dst`. */
  function PutField(name: FieldName, src: Fields, dst: Fields): Fields {
    match name
    case Amount => dst.(amount := src.amount)
    case Installments => dst.(installments := src.installments)
    case RequestedAt => dst.(requested := src.requested)
    case CustomerAvg => dst.(customerAvg := src.customerAvg)
    case TxCount => dst.(txCount := src.txCount)
    case KnownMerchants => dst.(known := src.known)
    case MerchantId => dst.(merchant := src.merchant)
    case Mcc => dst.(mcc := src.mcc)
    case MerchantAvg => dst.(merchantAvg := src.merchantAvg)
    case IsOnline => dst.(online := src.online)
    case CardPresent => dst.(card := src.card)
    case KmFromHome => dst.(km := src.km)
    case Timestamp => dst.(lastMinute := src.lastMinute)
    case KmFromCurrent => dst.(lastKm := src.lastKm)
  }

  lemma FieldFrame(env: Env, name: FieldName, v: Value, f: Fields, other: FieldName, src: Fields)
    requires name != other
    ensures var r, g := NamedOf(env, name, v, f), NamedOf(env, name, v, PutField(other, src, f));
            if r.Err? then g == r else g == Ok(PutField(other, src, r.value))
  {
  }

  lemma FieldStays(env: Env, name: FieldName, v: Value, f: Fields)
    ensures var r := NamedOf(env, name, v, f); r.Ok? ==> r.value == PutField(name, r.value, f)
  {
  }

  lemma PutFieldTwice(name: FieldName, other: FieldName, a: Fields, b: Fields, f: Fields)
    requires name != other && a == PutField(name, a, f) && b == PutField(other, b, f)
    ensures PutField(name, a, b) == PutField(other, b, a)
  {
    match name
    case Amount =>
    case Installments =>
    case RequestedAt =>
    case CustomerAvg =>
    case TxCount =>
    case KnownMerchants =>
    case MerchantId =>
    case Mcc =>
    case MerchantAvg =>
    case IsOnline =>
    case CardPresent =>
    case KmFromHome =>
    case Timestamp =>
    case KmFromCurrent =>
  }

  function FieldStep(env: Env, sec: Section): Step { (e: Entry, f: Fields) => FieldOf(env, sec, e.key, e.value, f) }

  lemma NamesDiffer(sec: Section, key: string, other: string)
    requires key != other && NameOf(sec, key).Some?
    ensures NameOf(sec, key) != NameOf(sec, other)
  {
  }

  lemma {:induction false} NamedCommute(env: Env, name: FieldName, v: Value, other: FieldName, w: Value, f: Fields)
    requires name != other
    ensures var a, b := NamedOf(env, name, v, f), NamedOf(env, other, w, f);
            SameResult(if a.Err? then a else NamedOf(env, other, w, a.value),
                       if b.Err? then b else NamedOf(env, name, v, b.value))
  {
    var a, b := NamedOf(env, name, v, f), NamedOf(env, other, w, f);
    FieldStays(env, name, v, f);
    FieldStays(env, other, w, f);
    if a.Ok? { FieldFrame(env, other, w, f, name, a.value); }
    if b.Ok? { FieldFrame(env, name, v, f, other, b.value); }
    if a.Ok? && b.Ok? { PutFieldTwice(name, other, a.value, b.value, f); }
  }

  lemma {:induction false} FieldsCommute(env: Env, sec: Section, a: Entry, b: Entry)
    requires a.key != b.key
    ensures Commute(FieldStep(env, sec), a, b)
  {
    forall f ensures SameResult(Twice(FieldStep(env, sec), a, b, f), Twice(FieldStep(env, sec), b, a, f)) {
      var m, n := NameOf(sec, a.key), NameOf(sec, b.key);
      if m.Some? && n.Some? {
        NamesDiffer(sec, a.key, b.key);
        NamedCommute(env, m.value, a.value, n.value, b.value, f);
      }
    }
  }

  function Entries(ms: JsonScan.Members): seq<Entry> {
    match ms
    case NoMembers => []
    case Member(key, _, _, value, _, _, more) => [Entry(BodyText(key), value)] + Entries(more)
  }

  predicate DistinctKeys(es: seq<Entry>) { forall i, j :: 0 <= i < j < |es| ==> es[i].key != es[j].key }

  lemma {:induction false} FieldsFold(env: Env, sec: Section, ms: JsonScan.Members, f: Fields)
    ensures FieldsOf(env, sec, ms, f) == Fold(FieldStep(env, sec), Entries(ms), f)
  {
    if ms.Member? {
      var e := Entry(BodyText(ms.key), ms.value);
      FoldFirst(FieldStep(env, sec), e, Entries(ms.more), f);
      var g := FieldOf(env, sec, e.key, e.value, f);
      if g.Ok? { FieldsFold(env, sec, ms.more, g.value); }
    }
  }

  function Chosen(es: seq<Entry>, known: string -> bool): (r: seq<Entry>)
    ensures forall i :: 0 <= i < |r| ==> r[i] in es
  {
    if es == [] then [] else (if known(es[0].key) then [es[0]] else []) + Chosen(es[1..], known)
  }

  lemma {:induction false} FoldChosen(step: Step, known: string -> bool, es: seq<Entry>, f: Fields)
    requires forall e: Entry, g :: !known(e.key) ==> step(e, g) == Ok(g)
    ensures Fold(step, es, f) == Fold(step, Chosen(es, known), f)
    decreases |es|
  {
    if es != [] {
      var e, tail := es[0], Chosen(es[1..], known);
      var g := step(e, f);
      if g.Ok? { FoldChosen(step, known, es[1..], g.value); }
      if known(e.key) { FoldFirst(step, e, tail, f); } else { assert [] + tail == tail; }
    }
  }

  function KnownFields(sec: Section, ms: JsonScan.Members): seq<Entry> {
    Chosen(Entries(ms), key => NameOf(sec, key).Some?)
  }

  /** The same known fields with the same values, each once, in any order. */
  ghost predicate SameFields(sec: Section, ms: JsonScan.Members, other: JsonScan.Members) {
    DistinctKeys(KnownFields(sec, ms)) && multiset(KnownFields(sec, ms)) == multiset(KnownFields(sec, other))
  }

  lemma {:induction false} FieldsKnown(env: Env, sec: Section, ms: JsonScan.Members, f: Fields)
    ensures FieldsOf(env, sec, ms, f) == Fold(FieldStep(env, sec), KnownFields(sec, ms), f)
  {
    FieldsFold(env, sec, ms, f);
    FoldChosen(FieldStep(env, sec), key => NameOf(sec, key).Some?, Entries(ms), f);
  }

  /** Neither the order of the fields of an object nor its unknown members matter. */
  lemma {:induction false} FieldsOrder(env: Env, sec: Section, ms: JsonScan.Members, other: JsonScan.Members, f: Fields)
    requires SameFields(sec, ms, other)
    ensures SameResult(FieldsOf(env, sec, ms, f), FieldsOf(env, sec, other, f))
  {
    FieldsKnown(env, sec, ms, f);
    FieldsKnown(env, sec, other, f);
    var es := KnownFields(sec, ms);
    forall i, j | 0 <= i < |es| && 0 <= j < |es| && i != j ensures Commute(FieldStep(env, sec), es[i], es[j]) {
      FieldsCommute(env, sec, es[i], es[j]);
    }
    Reordered(FieldStep(env, sec), es, KnownFields(sec, other), f);
  }

  // ----- the order of the members of the document -----

  /** The object, or the last transaction, that a key of the document stands for. */
  function PartOf(key: string): Option<Section> {
    if SectionOf(key).Some? then SectionOf(key) else if key == "last_transaction" then Some(Last) else None
  }

  lemma PartsDiffer(key: string, other: string)
    requires key != other && PartOf(key).Some?
    ensures PartOf(key) != PartOf(other)
  {
  }

  lemma {:induction false} FieldsFrame(env: Env, sec: Section, ms: JsonScan.Members, f: Fields, other: Section,
                                       src: Fields)
    requires sec != other
    ensures FieldsOf(env, sec, ms, Put(other, src, f)) == PutResult(other, src, FieldsOf(env, sec, ms, f))
    decreases ms
  {
    if ms.Member? {
      var key := BodyText(ms.key);
      OneFieldFrame(env, sec, key, ms.value, f, other, src);
      var g := FieldOf(env, sec, key, ms.value, f);
      if g.Ok? { FieldsFrame(env, sec, ms.more, g.value, other, src); }
    }
  }

  lemma OneFieldFrame(env: Env, sec: Section, key: string, v: Value, f: Fields, other: Section, src: Fields)
    requires sec != other
    ensures FieldOf(env, sec, key, v, Put(other, src, f)) == PutResult(other, src, FieldOf(env, sec, key, v, f))
  {
    HomeOfNamed(sec, key);
    var name := NameOf(sec, key);
    if name.Some? { NamedFrame(env, name.value, v, f, other, src); }
  }

  lemma PutAgain(sec: Section, a: Fields, b: Fields, f: Fields)
    requires b == Put(sec, b, f) && a == Put(sec, a, b)
    ensures a == Put(sec, a, f)
  {
  }

  lemma {:induction false} FieldsStay(env: Env, sec: Section, ms: JsonScan.Members, f: Fields)
    ensures var r := FieldsOf(env, sec, ms, f); r.Ok? ==> r.value == Put(sec, r.value, f)
    decreases ms
  {
    if ms.Member? {
      var key := BodyText(ms.key);
      OneFieldStays(env, sec, key, ms.value, f);
      var g := FieldOf(env, sec, key, ms.value, f);
      if g.Ok? {
        FieldsStay(env, sec, ms.more, g.value);
        var r := FieldsOf(env, sec, ms.more, g.value);
        if r.Ok? { PutAgain(sec, r.value, g.value, f); }
      }
    }
  }

  lemma OneFieldStays(env: Env, sec: Section, key: string, v: Value, f: Fields)
    ensures var r := FieldOf(env, sec, key, v, f); r.Ok? ==> r.value == Put(sec, r.value, f)
  {
    HomeOfNamed(sec, key);
    var name := NameOf(sec, key);
    if name.Some? { NamedStays(env, name.value, v, f); }
  }

  lemma {:induction false} TopFrame(env: Env, key: string, v: Value, f: Fields, other: Section, src: Fields)
    requires PartOf(key) != Some(other)
    ensures TopValueOf(env, key, v, Put(other, src, f)) == PutResult(other, src, TopValueOf(env, key, v, f))
  {
    if PartOf(key).Some? && v.Object? {
      var sec := PartOf(key).value;
      var g := if SectionOf(key).Some? then f else f.(last := true);
      FieldsFrame(env, sec, v.members, g, other, src);
    }
  }

  lemma {:induction false} TopStays(env: Env, key: string, v: Value, f: Fields)
    requires PartOf(key).Some?
    ensures var r := TopValueOf(env, key, v, f); r.Ok? ==> r.value == Put(PartOf(key).value, r.value, f)
  {
    if v.Object? {
      FieldsStay(env, PartOf(key).value, v.members, if SectionOf(key).Some? then f else f.(last := true));
    }
  }

  function TopStep(env: Env): Step { (e: Entry, f: Fields) => TopValueOf(env, e.key, e.value, f) }

  lemma {:induction false} MembersCommute(env: Env, a: Entry, b: Entry)
    requires a.key != b.key && PartOf(a.key).Some? && PartOf(b.key).Some?
    ensures Commute(TopStep(env), a, b)
  {
    forall f ensures SameResult(Twice(TopStep(env), a, b, f), Twice(TopStep(env), b, a, f)) {
      var m, n := PartOf(a.key).value, PartOf(b.key).value;
      PartsDiffer(a.key, b.key);
      var x, y := TopValueOf(env, a.key, a.value, f), TopValueOf(env, b.key, b.value, f);
      TopStays(env, a.key, a.value, f);
      TopStays(env, b.key, b.value, f);
      if x.Ok? { TopFrame(env, b.key, b.value, f, m, x.value); }
      if y.Ok? { TopFrame(env, a.key, a.value, f, n, y.value); }
      if x.Ok? && y.Ok? { PutTwice(m, n, x.value, y.value, f); }
    }
  }

  lemma {:induction false} DocumentFold(env: Env, ms: JsonScan.Members, f: Fields)
    ensures DocumentOf(env, ms, f) == Fold(TopStep(env), Entries(ms), f)
  {
    if ms.Member? {
      var e := Entry(BodyText(ms.key), ms.value);
      FoldFirst(TopStep(env), e, Entries(ms.more), f);
      var g := TopValueOf(env, e.key, e.value, f);
      if g.Ok? { DocumentFold(env, ms.more, g.value); }
    }
  }

  function KnownMembers(ms: JsonScan.Members): seq<Entry> { Chosen(Entries(ms), key => PartOf(key).Some?) }

  lemma {:induction false} DocumentKnown(env: Env, ms: JsonScan.Members, f: Fields)
    ensures DocumentOf(env, ms, f) == Fold(TopStep(env), KnownMembers(ms), f)
  {
    DocumentFold(env, ms, f);
    FoldChosen(TopStep(env), key => PartOf(key).Some?, Entries(ms), f);
  }

  /** One value of the document, up to the order of its fields and unknown members. */
  ghost predicate SameMember(a: Entry, b: Entry) {
    && a.key == b.key
    && (a.value == b.value
        || (PartOf(a.key).Some? && a.value.Object? && b.value.Object?
            && SameFields(PartOf(a.key).value, a.value.members, b.value.members)))
  }

  ghost predicate SameMembers(es: seq<Entry>, other: seq<Entry>) {
    |es| == |other| && forall i :: 0 <= i < |es| ==> SameMember(es[i], other[i])
  }

  /** The same known members, each once, up to the order on both levels. */
  ghost predicate SameDocument(ms: JsonScan.Members, other: JsonScan.Members) {
    && DistinctKeys(KnownMembers(ms))
    && exists es :: SameMembers(es, KnownMembers(other)) && multiset(es) == multiset(KnownMembers(ms))
  }

  lemma {:induction false} MemberOrder(env: Env, a: Entry, b: Entry, f: Fields)
    requires SameMember(a, b)
    ensures SameResult(TopStep(env)(a, f), TopStep(env)(b, f))
  {
    if a.value != b.value {
      FieldsOrder(env, PartOf(a.key).value, a.value.members, b.value.members,
                  if SectionOf(a.key).Some? then f else f.(last := true));
    }
  }

  lemma {:induction false} FoldSame(env: Env, es: seq<Entry>, other: seq<Entry>, f: Fields)
    requires SameMembers(es, other)
    ensures SameResult(Fold(TopStep(env), es, f), Fold(TopStep(env), other, f))
    decreases |es|
  {
    if es != [] {
      MemberOrder(env, es[0], other[0], f);
      var g := TopStep(env)(es[0], f);
      if g.Ok? { FoldSame(env, es[1..], other[1..], g.value); }
    }
  }

  lemma {:induction false} DocumentOrder(env: Env, ms: JsonScan.Members, other: JsonScan.Members, f: Fields)
    requires SameDocument(ms, other)
    ensures SameResult(DocumentOf(env, ms, f), DocumentOf(env, other, f))
  {
    var es :| SameMembers(es, KnownMembers(other)) && multiset(es) == multiset(KnownMembers(ms));
    DocumentKnown(env, ms, f);
    DocumentKnown(env, other, f);
    AllMembersCommute(env, ms);
    Reordered(TopStep(env), KnownMembers(ms), es, f);
    FoldSame(env, es, KnownMembers(other), f);
  }

  lemma {:induction false} ChosenKnown(es: seq<Entry>, known: string -> bool)
    ensures forall i :: 0 <= i < |Chosen(es, known)| ==> known(Chosen(es, known)[i].key)
  {
    if es != [] { ChosenKnown(es[1..], known); }
  }

  lemma {:induction false} AllMembersCommute(env: Env, ms: JsonScan.Members)
    requires DistinctKeys(KnownMembers(ms))
    ensures AllCommute(TopStep(env), KnownMembers(ms))
  {
    var es := KnownMembers(ms);
    ChosenKnown(Entries(ms), key => PartOf(key).Some?);
    forall i, j | 0 <= i < |es| && 0 <= j < |es| && i != j ensures Commute(TopStep(env), es[i], es[j]) {
      MembersCommute(env, es[i], es[j]);
    }
  }

  /** A text the parser is meant for: one JSON object whose merchants can be searched. */
  ghost predicate Renders(json: string, document: Value) {
    && document.Object? && ValueOk(document) && DocumentPlain(document.members)
    && exists lead, tail :: AllWs(lead) && json == Rendered(lead, document, tail)
  }

  function Rendered(lead: string, document: Value, tail: string): string { lead + Text(document) + tail }

  /** Any two texts of the same document are read alike: neither whitespace, nor the order of the
      members in the document and in its objects, nor unknown members make a difference. */
  lemma {:induction false} SinglePassIgnoresOrder(env: Env, json: string, document: Value, text: string, other: Value)
    requires Renders(json, document) && Renders(text, other) && SameDocument(document.members, other.members)
    ensures SameResult(SinglePass(env, json), SinglePass(env, text))
  {
    var lead, tail :| AllWs(lead) && json == Rendered(lead, document, tail);
    SinglePassMeans(env, json, lead, document, tail);
    var before, behind :| AllWs(before) && text == Rendered(before, other, behind);
    SinglePassMeans(env, text, before, other, behind);
    DocumentOrder(env, document.members, other.members, NOTHING_READ);
  }
}
