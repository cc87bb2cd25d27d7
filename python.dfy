/**
 * The Python operators whose semantics differ from Dafny's: floor division and
 * modulo (which round toward negative infinity), indexing with negative indices,
 * and slicing, which clamps its bounds instead of failing.
 */
module Python {
  import opened Outcomes

  /** a // b: the largest q with q * b <= a (for b > 0), rounding toward -infinity. */
  function FloorDiv(a: int, b: int): (q: int)
    requires b != 0
    ensures b > 0 ==> b * q <= a < b * q + b
    ensures b < 0 ==> b * q + b < a <= b * q
  {
    if b > 0 then a / b else (-a) / (-b)
  }

  /** a % b: the remainder that takes the sign of the divisor. */
  function FloorMod(a: int, b: int): (m: int)
    requires b != 0
    ensures a == b * FloorDiv(a, b) + m
    ensures b > 0 ==> 0 <= m < b
    ensures b < 0 ==> b < m <= 0
  {
    a - b * FloorDiv(a, b)
  }

  /** With a positive divisor Python's % agrees with Dafny's. */
  lemma {:induction false} FloorModPositive(a: int, b: int)
    requires b > 0
    ensures FloorMod(a, b) == a % b
  {
  }

  /** The position s[j] reads: negative indices count from the end. */
  function Position(length: nat, j: int): int {
    if j < 0 then j + length else j
  }

  /** s[j]: IndexError outside -len(s) <= j < len(s). */
  function Index<T>(s: seq<T>, j: int): (r: Result<T>)
    ensures r.Ok? <==> -|s| <= j < |s|
    ensures r.Ok? ==> 0 <= Position(|s|, j) < |s| && r.value == s[Position(|s|, j)]
    ensures r.Err? ==> r.error == IndexError
  {
    if 0 <= j < |s| then Ok(s[j])
    else if -|s| <= j < 0 then Ok(s[j + |s|])
    else Err(IndexError)
  }

  /** A slice bound as Python normalises it: counted from the end when negative, then clamped. */
  function SliceBound(length: nat, j: int): (b: nat)
    ensures b <= length
    ensures 0 <= j <= length ==> b == j
    ensures -(length as int) <= j < 0 ==> b == j + length
  {
    if j < 0 then (if j + length < 0 then 0 else j + length)
    else if j > length then length else j
  }

  /** s[lo:hi]: never fails; out-of-range bounds are clamped and a reversed range is empty. */
  function Slice<T>(s: seq<T>, lo: int, hi: int): (r: seq<T>)
    ensures |r| <= |s|
    ensures 0 <= lo <= hi <= |s| ==> r == s[lo..hi]
  {
    var a, b := SliceBound(|s|, lo), SliceBound(|s|, hi);
    if a <= b then s[a..b] else []
  }

  /** s[0:stop] is a prefix of s, of length stop when stop is within range. */
  lemma {:induction false} SliceFromStart<T>(s: seq<T>, stop: int)
    ensures Slice(s, 0, stop) <= s
    ensures 0 <= stop ==> |Slice(s, 0, stop)| == if stop <= |s| then stop else |s|
    ensures stop < 0 ==> |Slice(s, 0, stop)| == if -stop <= |s| then |s| + stop else 0
  {
  }
}
