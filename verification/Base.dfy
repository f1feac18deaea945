/** Constants and plain types shared by every part of the model. */
module Base {
  const K := 5
  const DIMS := 14
  const PACKED_DIMS := 16
  const LANES := 8
  const DIM_PAIRS := 7
  const SCALE := 10000  // the default build; up to MAX_SCALE is accepted
  const MAX_SCALE := 11000
  const I16_MAX := 0x7fff
  const I32_MAX := 0x7fff_ffff
  const I64_MAX := 0x7fff_ffff_ffff_ffff
  const U32_MAX := 0xffff_ffff

  const ZERO_VECTOR: seq<int> := [0, 0, 0, 0, 0, 0, 0, 0, 0, 0, 0, 0, 0, 0, 0, 0]

  /** A query or reference vector: 14 features and 2 padding dimensions. */
  type Vec = v: seq<int> | |v| == PACKED_DIMS witness ZERO_VECTOR

  datatype Reference = Reference(vector: Vec, lbl: nat)

  datatype Option<+T> = None | Some(value: T)

  datatype Result<+T> = Ok(value: T) | Err(message: string) {
    predicate IsFailure() { Err? }

    function PropagateFailure<U>(): Result<U>
      requires IsFailure()
    {
      Err(message)
    }

    function Extract(): T
      requires !IsFailure()
    {
      value
    }
  }

  function Min(a: int, b: int): int { if a <= b then a else b }

  function Max(a: int, b: int): int { if a >= b then a else b }

  function Pow2(n: nat): nat { if n == 0 then 1 else 2 * Pow2(n - 1) }

  lemma {:induction false} Pow2Mono(a: nat, b: nat)
    requires a <= b
    ensures Pow2(a) <= Pow2(b)
  {
    if a < b { Pow2Mono(a, b - 1); }
  }

  lemma ConcatAssoc<T>(a: seq<T>, b: seq<T>, c: seq<T>)
    ensures a + b + c == a + (b + c)
  {
  }

  predicate IsDigit(c: char) { '0' <= c <= '9' }

  predicate AllDigits(s: string) { forall i :: 0 <= i < |s| ==> IsDigit(s[i]) }

  predicate Ascending(s: seq<int>) { forall i, j :: 0 <= i < j < |s| ==> s[i] < s[j] }

  lemma {:induction false} AscendingCount(keys: seq<nat>, bound: nat)
    requires Ascending(keys) && forall i :: 0 <= i < |keys| ==> keys[i] < bound
    ensures |keys| <= bound
  {
    if keys != [] { AscendingCount(keys[..|keys| - 1], keys[|keys| - 1]); }
  }

  /** The first index before `end` of a character, at or after `i`. */
  function Position(s: string, c: char, i: nat, end: nat): (r: Option<nat>)
    requires i <= end <= |s|
    ensures r.Some? ==> i <= r.value < end && s[r.value] == c
    decreases end - i
  {
    if i == end then None else if s[i] == c then Some(i) else Position(s, c, i + 1, end)
  }

  /** Nothing before it is the character. */
  lemma {:induction false} PositionIsFirst(s: string, c: char, i: nat, end: nat)
    requires i <= end <= |s|
    ensures var r := Position(s, c, i, end); forall k :: i <= k < (if r.Some? then r.value else end) ==> s[k] != c
    decreases end - i
  {
    if i < end { PositionIsFirst(s, c, i + 1, end); }
  }

  lemma {:induction false} PositionSkips(s: string, c: char, i: nat, j: nat, end: nat)
    requires i <= j <= end <= |s| && forall k :: i <= k < j ==> s[k] != c
    ensures Position(s, c, i, end) == Position(s, c, j, end)
    decreases j - i
  {
    if i < j { PositionSkips(s, c, i + 1, j, end); }
  }
}
