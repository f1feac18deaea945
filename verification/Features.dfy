/** From the fields of a query to its vector, and when that lies in the domain of the index. */
module Features {
  import opened Base
  import opened Kernel
  import opened QueryParsers

  /** Rounding to the nearest integer; only positive values are rounded. */
  function Round(x: real): int { (x + 0.5).Floor }

  /** A share of the scale; the sentinel is the negative scale. */
  function Quantize(v: real, scale: nat): (r: int)
    ensures (v <= -1.0 ==> r == 0 - scale) && (v > -1.0 ==> 0 <= r <= scale)
    ensures 0.0 < v < 1.0 ==> v * scale as real - 0.5 < r as real <= v * scale as real + 0.5
  {
    if v <= -1.0 then 0 - scale
    else if v <= 0.0 then 0
    else if v >= 1.0 then scale
    else
      var x := v * scale as real;
      ShareFits(v, scale as real, x);
      RoundFits(x, scale);
      Round(x)
  }

  lemma ShareFits(v: real, scale: real, x: real)
    requires 0.0 < v < 1.0 && 0.0 <= scale && x == v * scale
    ensures 0.0 <= x <= scale
  {
    assert (1.0 - v) * scale >= 0.0;
  }

  lemma RoundFits(x: real, n: nat)
    requires 0.0 <= x <= n as real
    ensures 0 <= Round(x) <= n
  {
  }

  /** What a feature is of a value that counts in full from `full` on: the nearest share of the
      scale, the whole scale from there on, nothing at zero and below, and the sentinel for a
      value as far below zero. */
  predicate IsShare(r: int, x: real, full: real, scale: nat)
    requires full > 0.0
  {
    if x <= 0.0 - full then r == 0 - scale
    else if x <= 0.0 then r == 0
    else if x >= full then r == scale
    else
      && 0 <= r <= scale
      && x * scale as real - full / 2.0 < full * r as real <= x * scale as real + full / 2.0
  }

  /** There is only one such feature. */
  lemma {:induction false} ShareIsUnique(r: int, s: int, x: real, full: real, scale: nat)
    requires full > 0.0 && IsShare(r, x, full, scale) && IsShare(s, x, full, scale)
    ensures r == s
  {
    ShareMonotone(r, s, x, x, full, scale);
    ShareMonotone(s, r, x, x, full, scale);
  }

  lemma FullTimes(full: real, r: int, s: int, x: real, y: real)
    requires full > 0.0 && r < s && x == full * r as real && y == full * s as real
    ensures x + full <= y
  {
    TimesMono(r as real + 1.0, s as real, full, x + full, y);
  }

  lemma TimesMono(a: real, b: real, c: real, x: real, y: real)
    requires a <= b && c >= 0.0 && x == a * c && y == b * c
    ensures x <= y
  {
    assert (b - a) * c >= 0.0;
  }

  /** A larger value never gets a smaller feature. */
  lemma {:induction false} ShareMonotone(r: int, s: int, x: real, y: real, full: real, scale: nat)
    requires full > 0.0 && x <= y && IsShare(r, x, full, scale) && IsShare(s, y, full, scale)
    ensures r <= s
  {
    if 0.0 < x && y < full {
      TimesMono(x, y, scale as real, x * scale as real, y * scale as real);
      Between(r, s, x * scale as real, y * scale as real, full);
    }
  }

  lemma Between(r: int, s: int, x: real, y: real, full: real)
    requires full > 0.0 && x <= y && full * r as real <= x + full / 2.0 && y - full / 2.0 < full * s as real
    ensures r <= s
  {
    if s < r { FullTimes(full, s, r, full * s as real, full * r as real); }
  }

  lemma ProductSign(a: real, b: real, p: real)
    requires b > 0.0 && p == a * b
    ensures (a > 0.0 <==> p > 0.0) && (a < 0.0 <==> p < 0.0)
  {
  }

  lemma Plus(v: real, k: real, b: real, p: real)
    requires p == (v + k) * b
    ensures p == v * b + k * b
  {
  }

  /** Where a quotient lies is where the value lies. */
  lemma Sides(v: real, full: real, x: real)
    requires full > 0.0 && x == v * full
    ensures (v <= -1.0 <==> x <= 0.0 - full) && (v <= 0.0 <==> x <= 0.0) && (v >= 1.0 <==> x >= full)
  {
    Plus(v, 1.0, full, (v + 1.0) * full);
    ProductSign(v + 1.0, full, (v + 1.0) * full);
    Plus(v, -1.0, full, (v + -1.0) * full);
    ProductSign(v + -1.0, full, (v + -1.0) * full);
    ProductSign(v, full, x);
  }

  lemma Quotient(x: real, full: real, v: real)
    requires full > 0.0 && v == x / full
    ensures x == v * full
  {
  }

  lemma Regrouped(v: real, scale: real, full: real, x: real)
    requires x == v * full
    ensures v * scale * full == x * scale
  {
  }

  lemma QuantizedShare(x: real, full: real, v: real, scale: nat)
    requires full > 0.0 && v == x / full
    ensures IsShare(Quantize(v, scale), x, full, scale)
  {
    Quotient(x, full, v);
    Sides(v, full, x);
    if 0.0 < v < 1.0 {
      Enlarged(v * scale as real, Quantize(v, scale) as real, full);
      Regrouped(v, scale as real, full, x);
    }
  }

  lemma Difference(y: real, k: real, r: real, full: real, p: real)
    requires p == (y + k - r) * full
    ensures p == y * full + k * full - full * r
  {
  }

  lemma Enlarged(y: real, r: real, full: real)
    requires full > 0.0 && y - 0.5 < r <= y + 0.5
    ensures y * full - full / 2.0 < full * r <= y * full + full / 2.0
  {
    var above, below := (y + 0.5 - r) * full, (y + -0.5 - r) * full;
    Difference(y, 0.5, r, full, above);
    ProductSign(y + 0.5 - r, full, above);
    Difference(y, -0.5, r, full, below);
    ProductSign(y + -0.5 - r, full, below);
  }

  lemma QuantizeMonotone(v: real, w: real, scale: nat)
    requires v <= w
    ensures Quantize(v, scale) <= Quantize(w, scale)
  {
    if 0.0 < v && w < 1.0 {
      var x, y := v * scale as real, w * scale as real;
      Scaled(v, w, scale as real, x, y);
      RoundMonotone(x, y);
    }
  }

  lemma RoundMonotone(x: real, y: real)
    requires x <= y
    ensures Round(x) <= Round(y)
  {
  }

  lemma Scaled(v: real, w: real, scale: real, x: real, y: real)
    requires v <= w && 0.0 <= scale && x == v * scale && y == w * scale
    ensures x <= y
  {
    assert (w - v) * scale >= 0.0;
  }

  // ----- a reference -----

  /** The vector of the numbers in the file of references. */
  function LoadedVector(values: seq<real>, scale: nat): Vec
    requires |values| == DIMS
  {
    seq(PACKED_DIMS, d requires 0 <= d < PACKED_DIMS => if d < DIMS then Quantize(values[d], scale) else 0)
  }

  /** Any number may become the sentinel. The vector is in a domain exactly when none does
      where it may not. */
  lemma {:induction false} LoadedInDomainIff(values: seq<real>, scale: nat, sentinels: set<nat>)
    requires |values| == DIMS && scale > 0
    ensures InDomainOf(LoadedVector(values, scale), scale, sentinels) <==>
            (forall d: nat :: d < DIMS && values[d] <= -1.0 ==> d in sentinels)
  {
    var v := LoadedVector(values, scale);
    forall d: nat | d < DIMS
      ensures (-(if d in sentinels then scale else 0) <= v[d] <= scale) <==> (values[d] <= -1.0 ==> d in sentinels)
    {
      QuantizedInRange(values[d], scale, v[d], d in sentinels);
    }
    assert PaddingZero(v);
  }

  lemma QuantizedInRange(value: real, scale: nat, x: int, sentinel: bool)
    requires x == Quantize(value, scale) && scale > 0
    ensures (-(if sentinel then scale else 0) <= x <= scale) <==> (value <= -1.0 ==> sentinel)
  {
  }

  // ----- a query -----

  /** The amount relative to the customer's average, when there is one. */
  function Ratio(f: Fields): Option<real>
    requires AllPresent(f)
  {
    if f.customerAvg.value > 0.0 then Some(f.amount.value / f.customerAvg.value / 10.0) else None
  }

  function Flag(b: bool, scale: nat): int { if b then scale else 0 }

  /** Minutes since the last transaction and its distance, or the sentinel for none. */
  function Sentinel(x: Option<real>, scale: nat): int { if x.Some? then Quantize(x.value, scale) else 0 - scale }

  function Since(f: Fields): Option<real>
    requires AllPresent(f)
  {
    if f.lastMinute.Some? && f.lastKm.Some?
    then Some((f.requested.value.epochMinute - f.lastMinute.value) as real / 1440.0)
    else None
  }

  function Distance(f: Fields): Option<real> {
    if f.lastMinute.Some? && f.lastKm.Some? then Some(f.lastKm.value / 1000.0) else None
  }

  function VectorOf(f: Fields, scale: nat): Vec
    requires AllPresent(f)
  {
    [Quantize(f.amount.value / 10000.0, scale), Quantize(f.installments.value as real / 12.0, scale),
     if Ratio(f).Some? then Quantize(Ratio(f).value, scale) else scale,
     Quantize(f.requested.value.hour as real / 23.0, scale), Quantize(f.requested.value.dayOfWeek as real / 6.0, scale),
     Sentinel(Since(f), scale), Sentinel(Distance(f), scale), Quantize(f.km.value / 1000.0, scale),
     Quantize(f.txCount.value as real / 20.0, scale), Flag(f.online.value, scale), Flag(f.card.value, scale),
     Flag(f.merchant.value !in f.known.value, scale), Quantize(f.mcc.value, scale),
     Quantize(f.merchantAvg.value / 10000.0, scale), 0, 0]
  }

  /** Which components have to be positive. */
  predicate NonNegative(v: Vec) {
    && v[0] >= 0 && v[1] >= 0 && v[2] >= 0 && v[3] >= 0 && v[4] >= 0 && v[7] >= 0 && v[8] >= 0 && v[12] >= 0
    && v[13] >= 0
  }

  lemma DomainBySign(v: Vec, scale: nat)
    requires InDomainOf(v, scale, ANYWHERE) && v[9] >= 0 && v[10] >= 0 && v[11] >= 0
    ensures InDomain(v, scale) <==> NonNegative(v)
  {
  }

  /** A vector whose components are in order is so as a whole. */
  lemma AllQuantized(v: Vec, scale: nat)
    requires PaddingZero(v) && forall d :: 0 <= d < DIMS ==> 0 - scale <= v[d] <= scale
    ensures InDomainOf(v, scale, ANYWHERE)
  {
  }

  lemma VectorIsQuantized(f: Fields, scale: nat)
    requires AllPresent(f)
    ensures var v := VectorOf(f, scale);
            InDomainOf(v, scale, ANYWHERE) && v[9] >= 0 && v[10] >= 0 && v[11] >= 0
  {
    AllQuantized(VectorOf(f, scale), scale);
  }

  /** The vector of every query has zero padding and the sentinel at worst in any dimension. It
      is in the domain for which the scale may be up to 10362 exactly when no value but the two
      sentinels is so far below zero that it becomes the sentinel itself. */
  lemma InDomainIff(f: Fields, scale: nat)
    requires AllPresent(f) && scale > 0
    ensures InDomainOf(VectorOf(f, scale), scale, ANYWHERE)
    ensures InDomain(VectorOf(f, scale), scale) <==>
            (&& f.amount.value > -10000.0 && f.installments.value > -12 && (Ratio(f).Some? ==> Ratio(f).value > -1.0)
             && f.requested.value.hour > -23 && f.requested.value.dayOfWeek > -6 && f.km.value > -1000.0
             && f.txCount.value > -20
             && f.mcc.value > -1.0 && f.merchantAvg.value > -10000.0)
  {
    VectorIsQuantized(f, scale);
    DomainBySign(VectorOf(f, scale), scale);
  }

  // ----- what each component says -----

  /** Half of the components: the shares of the values that are always there. */
  lemma {:induction false} SharesOfValues(f: Fields, scale: nat)
    requires AllPresent(f)
    ensures var v := VectorOf(f, scale);
            && IsShare(v[0], f.amount.value, 10000.0, scale)
            && IsShare(v[1], f.installments.value as real, 12.0, scale)
            && IsShare(v[3], f.requested.value.hour as real, 23.0, scale)
            && IsShare(v[4], f.requested.value.dayOfWeek as real, 6.0, scale)
            && IsShare(v[7], f.km.value, 1000.0, scale) && IsShare(v[8], f.txCount.value as real, 20.0, scale)
            && IsShare(v[12], f.mcc.value, 1.0, scale) && IsShare(v[13], f.merchantAvg.value, 10000.0, scale)
  {
    QuantizedShare(f.amount.value, 10000.0, f.amount.value / 10000.0, scale);
    QuantizedShare(f.installments.value as real, 12.0, f.installments.value as real / 12.0, scale);
    QuantizedShare(f.requested.value.hour as real, 23.0, f.requested.value.hour as real / 23.0, scale);
    QuantizedShare(f.requested.value.dayOfWeek as real, 6.0, f.requested.value.dayOfWeek as real / 6.0, scale);
    QuantizedShare(f.km.value, 1000.0, f.km.value / 1000.0, scale);
    QuantizedShare(f.txCount.value as real, 20.0, f.txCount.value as real / 20.0, scale);
    QuantizedShare(f.mcc.value, 1.0, f.mcc.value, scale);
    QuantizedShare(f.merchantAvg.value, 10000.0, f.merchantAvg.value / 10000.0, scale);
  }

  /** The amount counts in full from ten times the customer's average on, and always when there
      is no average; a merchant counts when it is not known to the customer. */
  lemma {:induction false} ComparisonsOfValues(f: Fields, scale: nat)
    requires AllPresent(f)
    ensures var v := VectorOf(f, scale);
            && (if f.customerAvg.value > 0.0 then IsShare(v[2], f.amount.value, 10.0 * f.customerAvg.value, scale)
                else v[2] == scale)
            && v[9] == (if f.online.value then scale else 0) && v[10] == (if f.card.value then scale else 0)
            && v[11] == (if f.merchant.value in f.known.value then 0 else scale)
  {
    if f.customerAvg.value > 0.0 {
      var full, v := 10.0 * f.customerAvg.value, f.amount.value / f.customerAvg.value / 10.0;
      assert v * full == f.amount.value / f.customerAvg.value * f.customerAvg.value == f.amount.value;
      assert v == f.amount.value / full;
      QuantizedShare(f.amount.value, full, v, scale);
    }
  }

  /** Without a last transaction both of its features are the sentinel; otherwise they are the
      minutes since then, out of a day, and the kilometres from there, out of a thousand. */
  lemma {:induction false} SinceLast(f: Fields, scale: nat)
    requires AllPresent(f) && f.lastMinute.Some? == f.lastKm.Some?
    ensures var v := VectorOf(f, scale);
            if f.lastMinute.None? then v[5] == v[6] == 0 - scale
            else
              && IsShare(v[5], (f.requested.value.epochMinute - f.lastMinute.value) as real, 1440.0, scale)
              && IsShare(v[6], f.lastKm.value, 1000.0, scale)
  {
    if f.lastMinute.Some? {
      var minutes := (f.requested.value.epochMinute - f.lastMinute.value) as real;
      QuantizedShare(minutes, 1440.0, minutes / 1440.0, scale);
      QuantizedShare(f.lastKm.value, 1000.0, f.lastKm.value / 1000.0, scale);
    }
  }
}
