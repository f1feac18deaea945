/** Little-endian integers in byte sequences. */
module Bytes {
  type byte = b: int | 0 <= b < 256

  function Pow256(n: nat): nat { if n == 0 then 1 else 256 * Pow256(n - 1) }

  function ToLE(v: nat, n: nat): (s: seq<byte>)
    ensures |s| == n
    decreases v, n
  {
    if n == 0 then [] else [(v % 256) as byte] + ToLE(v / 256, n - 1)
  }

  function FromLE(s: seq<byte>): nat { if s == [] then 0 else s[0] + 256 * FromLE(s[1..]) }

  lemma {:induction false} LERoundTrip(v: nat, n: nat)
    requires v < Pow256(n)
    ensures FromLE(ToLE(v, n)) == v
    decreases v, n
  {
    if n > 0 { LERoundTrip(v / 256, n - 1); }
  }

  predicate Fits16(v: int) { -0x8000 <= v < 0x8000 }

  predicate Fits32(v: int) { -0x8000_0000 <= v < 0x8000_0000 }

  predicate FitsU32(v: int) { 0 <= v < 0x1_0000_0000 }

  lemma Powers()
    ensures Pow256(2) == 0x1_0000 && Pow256(4) == 0x1_0000_0000
  {
    assert Pow256(2) == 256 * Pow256(1);
    assert Pow256(4) == 256 * (256 * Pow256(2));
  }

  // A value is truncated to the width it is written with, as the casts in the source do.

  function I16(v: int): seq<byte> { ToLE(v % 0x1_0000, 2) }

  function I32(v: int): seq<byte> { ToLE(v % 0x1_0000_0000, 4) }

  function U32(v: int): seq<byte> { ToLE(v % 0x1_0000_0000, 4) }

  function ReadI16(s: seq<byte>): int { var u := FromLE(s); if u >= 0x8000 then u - 0x1_0000 else u }

  function ReadI32(s: seq<byte>): int { var u := FromLE(s); if u >= 0x8000_0000 then u - 0x1_0000_0000 else u }

  function ReadU32(s: seq<byte>): nat { FromLE(s) }

  lemma I16RoundTrip(v: int)
    requires Fits16(v)
    ensures ReadI16(I16(v)) == v
  {
    Powers();
    LERoundTrip(v % 0x1_0000, 2);
  }

  lemma I32RoundTrip(v: int)
    requires Fits32(v)
    ensures ReadI32(I32(v)) == v
  {
    Powers();
    LERoundTrip(v % 0x1_0000_0000, 4);
  }

  lemma U32RoundTrip(v: int)
    requires FitsU32(v)
    ensures ReadU32(U32(v)) == v
  {
    Powers();
    LERoundTrip(v % 0x1_0000_0000, 4);
  }

  // ----- runs of fixed-size records -----

  function Flat<T>(f: T -> seq<byte>, s: seq<T>): seq<byte> {
    if s == [] then [] else Flat(f, s[..|s| - 1]) + f(s[|s| - 1])
  }

  lemma {:induction false} FlatSnoc<T>(f: T -> seq<byte>, s: seq<T>, x: T)
    ensures Flat(f, s + [x]) == Flat(f, s) + f(x)
  {
    assert (s + [x])[..|s|] == s;
  }

  lemma {:induction false} FlatLength<T>(f: T -> seq<byte>, s: seq<T>, k: nat)
    requires forall x :: x in s ==> |f(x)| == k
    ensures |Flat(f, s)| == |s| * k
  {
    if s != [] {
      FlatLength(f, s[..|s| - 1], k);
      assert s[|s| - 1] in s;
      assert |s| * k == (|s| - 1) * k + k;
    }
  }

  lemma SliceOfFront<T>(front: seq<T>, last: seq<T>, a: nat, b: nat)
    requires a <= b <= |front|
    ensures (front + last)[a..b] == front[a..b]
  {
  }

  lemma SliceOfLast<T>(front: seq<T>, last: seq<T>, a: nat, b: nat)
    requires a == |front| && b == |front| + |last|
    ensures (front + last)[a..b] == last
  {
  }

  /** Record `i` sits at offset `i * k`. */
  lemma {:induction false} FlatAt<T>(f: T -> seq<byte>, s: seq<T>, k: nat, i: nat)
    requires (forall x :: x in s ==> |f(x)| == k) && i < |s|
    ensures (i + 1) * k <= |Flat(f, s)| && Flat(f, s)[i * k..(i + 1) * k] == f(s[i])
  {
    var n := |s| - 1;
    var front, last := s[..n], s[n];
    assert last in s;
    FlatLength(f, front, k);
    RecordInside(i, n, k);
    if i < n {
      FlatAt(f, front, k, i);
      SliceOfFront(Flat(f, front), f(last), i * k, (i + 1) * k);
    } else {
      SliceOfLast(Flat(f, front), f(last), i * k, (i + 1) * k);
    }
  }

  lemma Distributes(a: nat, b: nat, k: nat)
    ensures (a + b) * k == a * k + b * k
  {
  }

  lemma RecordInside(i: nat, n: nat, k: nat)
    requires i <= n
    ensures i * k <= n * k && (i < n ==> (i + 1) * k <= n * k)
    ensures (i + 1) * k == i * k + k
  {
    Distributes(i, 1, k);
    Distributes(i, n - i, k);
    if i < n { Distributes(i + 1, n - i - 1, k); }
  }
}
