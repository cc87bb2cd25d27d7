/**
 * Basis-state enumeration of qaoa.py: the labels format(i, '0{n}b') for
 * i < 2 ** n, their bit lists, and the row-major indexing of a vector reshaped
 * to the [2] * n tensor that from_state_to_values reads amplitudes from.
 */
module BasisStates {
  import opened Outcomes
  import opened Text

  /** list_multiplication(base, n) == [base] * n. */
  function ListMultiplication<T>(base: T, n: nat): (r: seq<T>)
    ensures |r| == n && forall k :: 0 <= k < n ==> r[k] == base
  {
    if n == 0 then [] else [base] + ListMultiplication(base, n - 1)
  }

  function Pow2(n: nat): (p: nat)
    ensures p >= 1
  {
    if n == 0 then 1 else 2 * Pow2(n - 1)
  }

  predicate IsBitString(s: string) {
    forall k :: 0 <= k < |s| ==> s[k] == '0' || s[k] == '1'
  }

  function BitChar(b: nat): (c: char)
    requires b < 2
  {
    if b == 0 then '0' else '1'
  }

  /** bin(i) without its prefix: no leading zero, "0" for zero. */
  function Binary(i: nat): (s: string)
    ensures |s| >= 1 && IsBitString(s)
    ensures |s| > 1 ==> s[0] == '1'
  {
    if i < 2 then [BitChar(i)] else Binary(i / 2) + [BitChar(i % 2)]
  }

  /** format(i, '0{width}b'): the binary numeral left-padded with zeros to at least width characters. */
  function Format(i: nat, width: nat): (s: string)
    ensures IsBitString(s) && |s| >= width
  {
    var b := Binary(i);
    if |b| >= width then b else ListMultiplication('0', width - |b|) + b
  }

  /** The basis-state labels [format(i, '0{n}b') for i in range(2 ** n)]. */
  function States(n: nat): (r: seq<string>)
    ensures |r| == Pow2(n)
  {
    seq(Pow2(n), i requires 0 <= i < Pow2(n) => Format(i, n))
  }

  predicate AllBits(bits: seq<nat>) {
    forall k :: 0 <= k < |bits| ==> bits[k] < 2
  }

  /** The value of a bit list, most significant bit first. */
  function BitsValue(bits: seq<nat>): nat
    requires AllBits(bits)
  {
    if bits == [] then 0 else (if bits[0] == 0 then 0 else Pow2(|bits| - 1)) + BitsValue(bits[1..])
  }

  /** The digits of a numeral as numbers. */
  function DigitList(s: string): (bits: seq<nat>)
    requires AllDigits(s)
    ensures |bits| == |s|
    ensures forall k :: 0 <= k < |s| ==> bits[k] == DigitValue(s[k])
  {
    seq(|s|, k requires 0 <= k < |s| => DigitValue(s[k]))
  }

  lemma {:induction false} BitsValueAppend(bits: seq<nat>, x: nat)
    requires AllBits(bits) && x < 2
    ensures AllBits(bits + [x])
    ensures BitsValue(bits + [x]) == 2 * BitsValue(bits) + x
  {
    if bits != [] {
      assert (bits + [x])[1..] == bits[1..] + [x];
      BitsValueAppend(bits[1..], x);
    }
  }

  lemma {:induction false} BitsValueZeros(k: nat, bits: seq<nat>)
    requires AllBits(bits)
    ensures AllBits(ListMultiplication<nat>(0, k) + bits)
    ensures BitsValue(ListMultiplication<nat>(0, k) + bits) == BitsValue(bits)
  {
    if k > 0 {
      var rest := ListMultiplication<nat>(0, k - 1) + bits;
      assert ListMultiplication<nat>(0, k) + bits == [0] + rest;
      BitsValueZeros(k - 1, bits);
      assert ([0] + rest)[1..] == rest;
      assert BitsValue([0] + rest) == BitsValue(rest);
    } else {
      assert ListMultiplication<nat>(0, k) + bits == bits;
    }
  }

  lemma {:induction false} BitStringDigits(s: string)
    requires IsBitString(s)
    ensures AllDigits(s) && AllBits(DigitList(s))
  {
  }

  lemma {:induction false} BinaryValue(i: nat)
    ensures AllDigits(Binary(i)) && BitsValue(DigitList(Binary(i))) == i
  {
    BitStringDigits(Binary(i));
    if i >= 2 {
      BinaryValue(i / 2);
      var b := Binary(i / 2);
      BitStringDigits(b);
      assert DigitList(Binary(i)) == DigitList(b) + [i % 2];
      BitsValueAppend(DigitList(b), i % 2);
    }
  }

  lemma {:induction false} BitsValueBound(bits: seq<nat>)
    requires AllBits(bits)
    ensures BitsValue(bits) < Pow2(|bits|)
  {
    if bits != [] {
      BitsValueBound(bits[1..]);
    }
  }

  lemma {:induction false} BinaryLength(i: nat, n: nat)
    requires n >= 1 && i < Pow2(n)
    ensures |Binary(i)| <= n
  {
    if i >= 2 {
      assert n >= 2;
      BinaryLength(i / 2, n - 1);
    }
  }

  /** Zero padding keeps the value: the digits of format(i, '0{width}b') read back as i. */
  lemma {:induction false} FormatValue(i: nat, width: nat)
    ensures AllDigits(Format(i, width)) && AllBits(DigitList(Format(i, width)))
    ensures BitsValue(DigitList(Format(i, width))) == i
    ensures |Binary(i)| <= width ==> |Format(i, width)| == width
  {
    var b := Binary(i);
    BinaryValue(i);
    var s := Format(i, width);
    BitStringDigits(s);
    if |b| < width {
      var zeros := ListMultiplication('0', width - |b|);
      assert s == zeros + b;
      assert DigitList(s) == ListMultiplication<nat>(0, width - |b|) + DigitList(b);
      BitsValueZeros(width - |b|, DigitList(b));
    }
  }

  /**
   * For n >= 1, state i is an n-character string of '0'/'1' whose binary value is i.
   */
  lemma {:induction false} StateValue(n: nat, i: nat)
    requires n >= 1 && i < Pow2(n)
    ensures |States(n)[i]| == n && IsBitString(States(n)[i])
    ensures AllDigits(States(n)[i]) && AllBits(DigitList(States(n)[i]))
    ensures BitsValue(DigitList(States(n)[i])) == i
  {
    BinaryLength(i, n);
    FormatValue(i, n);
  }

  /** With no wires there is still one label: format(0, '00b') == "0". */
  lemma {:induction false} StatesOfNoWires()
    ensures States(0) == ["0"]
  {
  }

  /** a comes strictly before b in Python's string order. */
  predicate LexLess(a: string, b: string) {
    exists k :: 0 <= k < |a| && k < |b| && a[..k] == b[..k] && a[k] < b[k]
  }

  lemma {:induction false} LeadingBit(bits: seq<nat>)
    requires bits != [] && AllBits(bits)
    ensures bits[0] == 0 ==> BitsValue(bits) < Pow2(|bits| - 1)
    ensures bits[0] == 1 ==> BitsValue(bits) >= Pow2(|bits| - 1)
  {
    BitsValueBound(bits[1..]);
  }

  lemma {:induction false} LexLessCons(a: string, b: string)
    requires a != [] && b != [] && a[0] == b[0] && LexLess(a[1..], b[1..])
    ensures LexLess(a, b)
  {
    var k :| 0 <= k < |a| - 1 && k < |b| - 1 && a[1..][..k] == b[1..][..k] && a[1..][k] < b[1..][k];
    assert a[..k + 1] == [a[0]] + a[1..][..k];
    assert b[..k + 1] == [b[0]] + b[1..][..k];
  }

  lemma {:induction false} ValueOrderIsLexOrder(a: string, b: string)
    requires |a| == |b| && IsBitString(a) && IsBitString(b)
    requires AllDigits(a) && AllDigits(b)
    requires BitsValue(DigitList(a)) < BitsValue(DigitList(b))
    ensures LexLess(a, b)
  {
    var da, db := DigitList(a), DigitList(b);
    BitStringDigits(a);
    BitStringDigits(b);
    LeadingBit(da);
    LeadingBit(db);
    if a[0] == b[0] {
      assert da[1..] == DigitList(a[1..]) && db[1..] == DigitList(b[1..]);
      BitStringDigits(a[1..]);
      BitStringDigits(b[1..]);
      ValueOrderIsLexOrder(a[1..], b[1..]);
      LexLessCons(a, b);
    } else {
      assert da[0] == 0 && db[0] == 1;
      assert a[..0] == b[..0];
    }
  }

  /** For n >= 1 the labels are strictly increasing in string order. */
  lemma {:induction false} StatesIncreasing(n: nat, i: nat, j: nat)
    requires n >= 1 && i < j < Pow2(n)
    ensures LexLess(States(n)[i], States(n)[j])
  {
    StateValue(n, i);
    StateValue(n, j);
    ValueOrderIsLexOrder(States(n)[i], States(n)[j]);
  }

  /** A numpy array: a scalar, or a sequence of sub-arrays along the first axis. */
  datatype Tensor<A> = Scalar(item: A) | Array(items: seq<Tensor<A>>)

  function Product(shape: seq<nat>): nat {
    if shape == [] then 1 else shape[0] * Product(shape[1..])
  }

  lemma {:induction false} BlockBounds(k: nat, count: nat, block: nat)
    requires k < count
    ensures 0 <= k * block && (k + 1) * block == k * block + block
    ensures (k + 1) * block <= count * block
  {
  }

  /** v.reshape(*shape) in row-major order; the sizes must agree. */
  function Reshape<A>(v: seq<A>, shape: seq<nat>): (t: Tensor<A>)
    requires |v| == Product(shape)
    ensures shape == [] <==> t.Scalar?
    ensures shape != [] ==> |t.items| == shape[0]
    decreases |shape|
  {
    if shape == [] then Scalar(v[0])
    else
      var block := Product(shape[1..]);
      Array(seq(shape[0], k requires 0 <= k < shape[0] =>
        BlockBounds(k, shape[0], block);
        Reshape(v[k * block..(k + 1) * block], shape[1..])))
  }

  /** t[tuple(idx)] for non-negative indices: IndexError when an index is out of range or there are too many. */
  function At<A>(t: Tensor<A>, idx: seq<nat>): Result<Tensor<A>> {
    if idx == [] then Ok(t)
    else if t.Scalar? || idx[0] >= |t.items| then Err(IndexError)
    else At(t.items[idx[0]], idx[1..])
  }

  predicate InRange(idx: seq<nat>, shape: seq<nat>)
    requires |idx| == |shape|
  {
    forall k :: 0 <= k < |idx| ==> idx[k] < shape[k]
  }

  /** The row-major position of a full index. */
  function FlatIndex(idx: seq<nat>, shape: seq<nat>): nat
    requires |idx| == |shape|
  {
    if idx == [] then 0 else idx[0] * Product(shape[1..]) + FlatIndex(idx[1..], shape[1..])
  }

  lemma {:induction false} FlatIndexBound(idx: seq<nat>, shape: seq<nat>)
    requires |idx| == |shape| && InRange(idx, shape)
    ensures FlatIndex(idx, shape) < Product(shape)
  {
    if idx != [] {
      FlatIndexBound(idx[1..], shape[1..]);
      var block := Product(shape[1..]);
      BlockBounds(idx[0], shape[0], block);
    }
  }

  /**
   * Indexing the reshaped vector by a full in-range index reads the element at the
   * row-major position; an out-of-range index raises IndexError.
   */
  lemma {:induction false} ReshapeAt<A>(v: seq<A>, shape: seq<nat>, idx: seq<nat>)
    requires |v| == Product(shape) && |idx| == |shape|
    ensures InRange(idx, shape) ==> FlatIndex(idx, shape) < |v| && At(Reshape(v, shape), idx) == Ok(Scalar(v[FlatIndex(idx, shape)]))
    ensures !InRange(idx, shape) ==> At(Reshape(v, shape), idx) == Err(IndexError)
    decreases |shape|
  {
    if idx != [] {
      var block := Product(shape[1..]);
      var t := Reshape(v, shape);
      if idx[0] < shape[0] {
        var k := idx[0];
        BlockBounds(k, shape[0], block);
        var w := v[k * block..(k + 1) * block];
        assert t.items[k] == Reshape(w, shape[1..]);
        ReshapeAt(w, shape[1..], idx[1..]);
        if InRange(idx, shape) {
          FlatIndexBound(idx, shape);
          FlatIndexBound(idx[1..], shape[1..]);
          assert w[FlatIndex(idx[1..], shape[1..])] == v[FlatIndex(idx, shape)];
        } else {
          var bad :| 0 <= bad < |idx| && idx[bad] >= shape[bad];
          assert idx[1..][bad - 1] >= shape[1..][bad - 1];
        }
      }
    }
  }

  lemma {:induction false} ProductOfTwos(n: nat)
    ensures Product(ListMultiplication<nat>(2, n)) == Pow2(n)
  {
    if n > 0 {
      assert ListMultiplication<nat>(2, n)[1..] == ListMultiplication<nat>(2, n - 1);
      ProductOfTwos(n - 1);
    }
  }

  /**
   * For the [2] * n shape an index is in range exactly when it is a bit list, and
   * its row-major position is its binary value sum(bit_k * 2 ** (n - 1 - k)).
   */
  lemma {:induction false} FlatIndexOfBits(bits: seq<nat>)
    ensures InRange(bits, ListMultiplication<nat>(2, |bits|)) <==> AllBits(bits)
    ensures AllBits(bits) ==> FlatIndex(bits, ListMultiplication<nat>(2, |bits|)) == BitsValue(bits)
  {
    if bits != [] {
      var shape := ListMultiplication<nat>(2, |bits|);
      assert shape[1..] == ListMultiplication<nat>(2, |bits| - 1);
      FlatIndexOfBits(bits[1..]);
      ProductOfTwos(|bits| - 1);
      if AllBits(bits) {
        assert AllBits(bits[1..]);
      } else {
        var bad :| 0 <= bad < |bits| && bits[bad] >= 2;
        if bad > 0 {
          assert bits[1..][bad - 1] >= 2;
        }
      }
    }
  }
}
