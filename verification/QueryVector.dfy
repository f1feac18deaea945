/** From the text of a query to its vector: what every component says about the text. */
module QueryVector {
  import opened Base
  import opened Kernel
  import opened JsonScan
  import opened QueryParsers
  import opened QueryMeaning
  import opened QueryOrder
  import opened QueryFields
  import opened Features
  import Calendar

  /** The values of the fields of a document. */
  type Values = FieldName -> Option<Value>

  /** The last value of each field. */
  function ValuesOf(ms: JsonScan.Members): Values {
    (name: FieldName) => FieldValue(ms, ObjectKey(HomeOf(name)), KeyOf(name))
  }

  /** Every field as its value says. */
  ghost predicate ReadAs(env: Env, vs: Values, f: Fields) {
    forall name :: Fits(env, name, vs(name)) && FieldHolds(env, name, vs(name), NOTHING_READ, f)
  }

  lemma ReadAsValues(env: Env, ms: JsonScan.Members, f: Fields)
    requires ReadFrom(env, ms, f)
    ensures ReadAs(env, ValuesOf(ms), f)
  {
    forall name
      ensures Fits(env, name, ValuesOf(ms)(name)) && FieldHolds(env, name, ValuesOf(ms)(name), NOTHING_READ, f)
    {
      var v := FieldValue(ms, ObjectKey(HomeOf(name)), KeyOf(name));
      assert Fits(env, name, v) && FieldHolds(env, name, v, NOTHING_READ, f);
    }
  }

  /** Every field that has to be there is, and every field is of its kind. */
  ghost predicate AllThere(env: Env, vs: Values) {
    && (forall name :: name != Timestamp && name != KmFromCurrent ==> vs(name).Some?)
    && (forall name :: Fits(env, name, vs(name)))
    && (vs(Timestamp).Some? <==> vs(KmFromCurrent).Some?)
  }

  function RealOf(env: Env, vs: Values, name: FieldName): real
    requires vs(name).Some? && IsNumber(env, vs(name).value)
  {
    NumberIn(env, vs(name).value)
  }

  /** A number without its fraction and exponent. */
  function WholeOf(env: Env, vs: Values, name: FieldName): real
    requires vs(name).Some? && vs(name).value.Number?
  {
    var v := vs(name).value;
    env.integer((if v.negative then "-" else "") + v.whole) as real
  }

  function StringIn(vs: Values, name: FieldName): string
    requires vs(name).Some? && vs(name).value.Quoted?
  {
    BodyText(vs(name).value.body)
  }

  predicate IsTrue(vs: Values, name: FieldName)
    requires vs(name).Some?
  {
    vs(name).value == Word("true")
  }

  /** Is the merchant among the first 64 known ones, as far as their hashes say? */
  ghost predicate IsKnown(env: Env, vs: Values)
    requires vs(MerchantId).Some? && vs(MerchantId).value.Quoted?
    requires vs(KnownMerchants).Some? && vs(KnownMerchants).value.Array?
  {
    var names := NamesOf(vs(KnownMerchants).value.items);
    exists i :: 0 <= i < |names| && i < 64 && env.hash(names[i]) == env.hash(StringIn(vs, MerchantId))
  }

  // ----- what the fields say -----

  lemma FieldsThere(env: Env, vs: Values, f: Fields)
    requires ReadAs(env, vs, f) && AllPresent(f) && f.lastMinute.Some? == f.lastKm.Some?
    ensures AllThere(env, vs)
  {
    forall name | name != Timestamp && name != KmFromCurrent ensures vs(name).Some? {
      FieldSays(env, vs, f, name);
    }
    FieldSays(env, vs, f, Timestamp);
    FieldSays(env, vs, f, KmFromCurrent);
    forall name ensures Fits(env, name, vs(name)) { FieldSays(env, vs, f, name); }
  }

  /** One field, from its own value. */
  lemma FieldSays(env: Env, vs: Values, f: Fields, name: FieldName)
    requires ReadAs(env, vs, f)
    ensures Fits(env, name, vs(name)) && FieldHolds(env, name, vs(name), NOTHING_READ, f)
  {
  }

  lemma NumbersSay(env: Env, vs: Values, f: Fields)
    requires ReadAs(env, vs, f) && AllThere(env, vs) && AllPresent(f)
    ensures Fits(env, Amount, vs(Amount)) && f.amount.value == RealOf(env, vs, Amount)
    ensures Fits(env, CustomerAvg, vs(CustomerAvg)) && f.customerAvg.value == RealOf(env, vs, CustomerAvg)
    ensures Fits(env, MerchantAvg, vs(MerchantAvg)) && f.merchantAvg.value == RealOf(env, vs, MerchantAvg)
    ensures Fits(env, KmFromHome, vs(KmFromHome)) && f.km.value == RealOf(env, vs, KmFromHome)
    ensures Fits(env, Installments, vs(Installments))
    ensures f.installments.value as real == WholeOf(env, vs, Installments)
    ensures Fits(env, TxCount, vs(TxCount)) && f.txCount.value as real == WholeOf(env, vs, TxCount)
  {
    FieldSays(env, vs, f, Amount);
    FieldSays(env, vs, f, CustomerAvg);
    FieldSays(env, vs, f, MerchantAvg);
    FieldSays(env, vs, f, KmFromHome);
    FieldSays(env, vs, f, Installments);
    FieldSays(env, vs, f, TxCount);
  }

  lemma TextsSay(env: Env, vs: Values, f: Fields)
    requires ReadAs(env, vs, f) && AllThere(env, vs) && AllPresent(f)
    ensures Fits(env, RequestedAt, vs(RequestedAt))
    ensures Ok(f.requested.value) == env.time(StringIn(vs, RequestedAt))
    ensures Fits(env, Mcc, vs(Mcc)) && f.mcc.value == env.risk(StringIn(vs, Mcc))
    ensures f.online.value == IsTrue(vs, IsOnline) && f.card.value == IsTrue(vs, CardPresent)
    ensures Fits(env, MerchantId, vs(MerchantId)) && Fits(env, KnownMerchants, vs(KnownMerchants))
    ensures f.merchant.value in f.known.value <==> IsKnown(env, vs)
  {
    FieldSays(env, vs, f, RequestedAt);
    FieldSays(env, vs, f, Mcc);
    FieldSays(env, vs, f, IsOnline);
    FieldSays(env, vs, f, CardPresent);
    FieldSays(env, vs, f, MerchantId);
    FieldSays(env, vs, f, KnownMerchants);
    KnownIff(env, NamesOf(vs(KnownMerchants).value.items), f.known.value, f.merchant.value);
  }

  lemma KnownIff(env: Env, names: seq<string>, hashes: seq<int>, merchant: int)
    requires HashesOf(env, names, hashes)
    ensures merchant in hashes <==> exists i :: 0 <= i < |names| && i < 64 && env.hash(names[i]) == merchant
  {
    forall i | 0 <= i < |names| && i < 64 && env.hash(names[i]) == merchant ensures merchant in hashes {
      assert hashes[i] == merchant;
    }
  }

  lemma LastSays(env: Env, vs: Values, f: Fields)
    requires ReadAs(env, vs, f) && AllThere(env, vs)
    ensures f.lastMinute.Some? <==> vs(Timestamp).Some?
    ensures vs(Timestamp).Some? ==>
              && Fits(env, Timestamp, vs(Timestamp)) && Fits(env, KmFromCurrent, vs(KmFromCurrent))
              && f.lastMinute == Some(env.time(StringIn(vs, Timestamp)).value.epochMinute)
              && f.lastKm == Some(RealOf(env, vs, KmFromCurrent))
  {
    FieldSays(env, vs, f, Timestamp);
    FieldSays(env, vs, f, KmFromCurrent);
  }

  // ----- what the vector says -----

  /** The components that are shares of a number, or of nothing at all. */
  ghost predicate NumbersIn(env: Env, vs: Values, scale: nat, v: Vec)
    requires AllThere(env, vs)
  {
    assert forall name :: Fits(env, name, vs(name));
    var amount, average := RealOf(env, vs, Amount), RealOf(env, vs, CustomerAvg);
    && IsShare(v[0], amount, 10000.0, scale) && IsShare(v[1], WholeOf(env, vs, Installments), 12.0, scale)
    && (if average > 0.0 then IsShare(v[2], amount, 10.0 * average, scale) else v[2] == scale)
    && IsShare(v[7], RealOf(env, vs, KmFromHome), 1000.0, scale)
    && IsShare(v[8], WholeOf(env, vs, TxCount), 20.0, scale)
    && IsShare(v[13], RealOf(env, vs, MerchantAvg), 10000.0, scale) && v[14] == v[15] == 0
  }

  /** The components that are flags, and the risk. */
  ghost predicate FlagsIn(env: Env, vs: Values, scale: nat, v: Vec)
    requires AllThere(env, vs)
  {
    assert Fits(env, MerchantId, vs(MerchantId)) && Fits(env, KnownMerchants, vs(KnownMerchants));
    assert Fits(env, Mcc, vs(Mcc));
    && v[9] == (if IsTrue(vs, IsOnline) then scale else 0) && v[10] == (if IsTrue(vs, CardPresent) then scale else 0)
    && v[11] == (if IsKnown(env, vs) then 0 else scale) && IsShare(v[12], env.risk(StringIn(vs, Mcc)), 1.0, scale)
  }

  /** The components that come from the timestamps. */
  ghost predicate TimesIn(env: Env, vs: Values, scale: nat, v: Vec)
    requires AllThere(env, vs)
  {
    assert Fits(env, RequestedAt, vs(RequestedAt)) && Fits(env, Timestamp, vs(Timestamp));
    assert Fits(env, KmFromCurrent, vs(KmFromCurrent));
    var requested := env.time(StringIn(vs, RequestedAt)).value;
    && IsShare(v[3], requested.hour as real, 23.0, scale) && IsShare(v[4], requested.dayOfWeek as real, 6.0, scale)
    && if vs(Timestamp).None? then v[5] == v[6] == 0 - scale
       else
         var last := env.time(StringIn(vs, Timestamp)).value;
         && IsShare(v[5], (requested.epochMinute - last.epochMinute) as real, 1440.0, scale)
         && IsShare(v[6], RealOf(env, vs, KmFromCurrent), 1000.0, scale)
  }

  /** A well-formed query is refused, or its vector says of the last values of its fields what is
      described above, component by component. */
  lemma {:induction false} VectorOfText(env: Env, json: string, lead: string, document: Value, tail: string, scale: nat)
    requires document.Object? && ValueOk(document) && DocumentPlain(document.members) && AllWs(lead)
    requires json == lead + Text(document) + tail
    ensures var r, vs := SinglePass(env, json), ValuesOf(document.members);
            r.Ok? ==>
              && AllPresent(r.value) && AllThere(env, vs) && NumbersIn(env, vs, scale, VectorOf(r.value, scale))
              && FlagsIn(env, vs, scale, VectorOf(r.value, scale)) && TimesIn(env, vs, scale, VectorOf(r.value, scale))
  {
    var r := SinglePass(env, json);
    AcceptedIff(env, json, lead, document, tail);
    if r.Ok? {
      AcceptedFields(env, json);
      ReadAsValues(env, document.members, r.value);
      VectorSays(env, ValuesOf(document.members), r.value, scale);
    }
  }

  lemma AcceptedFields(env: Env, json: string)
    requires SinglePass(env, json).Ok?
    ensures var f := SinglePass(env, json).value; AllPresent(f) && f.lastMinute.Some? == f.lastKm.Some?
  {
  }

  lemma {:induction false} NumbersShare(env: Env, vs: Values, f: Fields, scale: nat)
    requires ReadAs(env, vs, f) && AllPresent(f) && AllThere(env, vs)
    ensures NumbersIn(env, vs, scale, VectorOf(f, scale))
  {
    NumbersSay(env, vs, f);
    SharesOfValues(f, scale);
    ComparisonsOfValues(f, scale);
  }

  lemma {:induction false} FlagsShare(env: Env, vs: Values, f: Fields, scale: nat)
    requires ReadAs(env, vs, f) && AllPresent(f) && AllThere(env, vs)
    ensures FlagsIn(env, vs, scale, VectorOf(f, scale))
  {
    TextsSay(env, vs, f);
    SharesOfValues(f, scale);
    ComparisonsOfValues(f, scale);
  }

  lemma {:induction false} TimesShare(env: Env, vs: Values, f: Fields, scale: nat)
    requires ReadAs(env, vs, f) && AllPresent(f) && AllThere(env, vs) && f.lastMinute.Some? == f.lastKm.Some?
    ensures TimesIn(env, vs, scale, VectorOf(f, scale))
  {
    TextsSay(env, vs, f);
    LastSays(env, vs, f);
    SharesOfValues(f, scale);
    SinceLast(f, scale);
  }

  lemma {:induction false} VectorSays(env: Env, vs: Values, f: Fields, scale: nat)
    requires ReadAs(env, vs, f) && AllPresent(f) && f.lastMinute.Some? == f.lastKm.Some?
    ensures AllThere(env, vs) && NumbersIn(env, vs, scale, VectorOf(f, scale))
    ensures FlagsIn(env, vs, scale, VectorOf(f, scale)) && TimesIn(env, vs, scale, VectorOf(f, scale))
  {
    FieldsThere(env, vs, f);
    NumbersShare(env, vs, f, scale);
    FlagsShare(env, vs, f, scale);
    TimesShare(env, vs, f, scale);
  }

  /** With timestamps as they are written (section 5.6 of RFC 3339), and their reader, the hour, the
      day of the week and the minutes between the two moments. */
  lemma {:induction false} MomentsSay(env: Env, vs: Values, scale: nat, v: Vec, t: Calendar.Moment, rest: string,
                                      s: Calendar.Moment, more: string)
    requires AllThere(env, vs) && TimesIn(env, vs, scale, v) && vs(Timestamp).Some?
    requires forall text :: env.time(text) == Calendar.ParseDateTime(text)
    requires Calendar.ValidMoment(t) && Calendar.ValidMoment(s)
    requires vs(RequestedAt).value.Quoted? && StringIn(vs, RequestedAt) == Calendar.Render(t) + rest
    requires vs(Timestamp).value.Quoted? && StringIn(vs, Timestamp) == Calendar.Render(s) + more
    ensures IsShare(v[3], t.hour as real, 23.0, scale)
    ensures !Calendar.Earlier(t.date, Calendar.Date(1969, 12, 29)) ==>
              IsShare(v[4], ((Calendar.DayNumber(t.date) + 3) % 7) as real, 6.0, scale)
    ensures var days := Calendar.DayNumber(t.date) - Calendar.DayNumber(s.date);
            IsShare(v[5], (days * 1440 + (t.hour - s.hour) * 60 + (t.minute - s.minute)) as real, 1440.0, scale)
  {
    Calendar.TimestampRoundTrip(t, rest);
    Calendar.TimestampRoundTrip(s, more);
    Calendar.DayNumbersOrder(t.date, Calendar.Date(1969, 12, 29));
    Calendar.FirstMonday(Calendar.Date(1969, 12, 29));
    Calendar.WeekdayIff(Calendar.DayNumber(t.date));
  }
}
