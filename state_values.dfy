/**
 * Per-state amplitude series of qaoa.py: from_state_to_values reads, for every
 * basis-state label and every checkpoint but the last, the amplitude at the
 * label's bits in the vector reshaped to [2] * num_wires.
 */
module StateValues {
  import opened Outcomes
  import opened Text
  import opened Snapshots
  import opened BasisStates

  const NegativeDimensions: string := "negative dimensions are not allowed"
  const CannotReshape: string := "cannot reshape array"
  const WrongShape: string := "Wrong shape"

  /** int(c) for one character of a label: its digit value, or ValueError. */
  function ParseBit(c: char): Result<nat> {
    if IsDigit(c) then Ok(DigitValue(c)) else Err(ValueError(InvalidLiteral))
  }

  /** ParseBit is int() on the one-character string. */
  lemma {:induction false} ParseBitIsParseInt(c: char)
    ensures ParseBit(c).Ok? <==> ParseInt([c]).Some?
    ensures ParseBit(c).Ok? ==> ParseInt([c]).value == ParseBit(c).value as int
  {
    ParseIntChar(c);
  }

  lemma {:induction false} DigitListCons(s: string)
    requires s != []
    ensures AllDigits(s) <==> IsDigit(s[0]) && AllDigits(s[1..])
    ensures AllDigits(s) ==> DigitList(s) == [DigitValue(s[0])] + DigitList(s[1..])
  {
    assert forall k :: 1 <= k < |s| ==> s[k] == s[1..][k - 1];
  }

  /** [int(bit) for bit in state]: ValueError at the first character that is not a digit. */
  function BitsOf(s: string): (r: Result<seq<nat>>)
    ensures r.Ok? <==> AllDigits(s)
    ensures r.Ok? ==> r.value == DigitList(s)
    ensures r.Err? ==> r.error == ValueError(InvalidLiteral)
  {
    if s == [] then Ok([])
    else
      DigitListCons(s);
      var d :- ParseBit(s[0]);
      var rest :- BitsOf(s[1..]);
      Ok([d] + rest)
  }

  /** states_list: the bit lists of all labels, or the first label's ValueError. */
  function StatesBits(states: seq<string>): (r: Result<seq<seq<nat>>>)
    ensures r.Ok? <==> forall q :: 0 <= q < |states| ==> AllDigits(states[q])
    ensures r.Ok? ==> |r.value| == |states| && forall q :: 0 <= q < |states| ==> r.value[q] == DigitList(states[q])
    ensures r.Err? ==> r.error == ValueError(InvalidLiteral)
  {
    if states == [] then Ok([])
    else
      var first :- BitsOf(states[0]);
      var rest :- StatesBits(states[1..]);
      assert forall q :: 1 <= q < |states| ==> states[q] == states[1..][q - 1];
      Ok([first] + rest)
  }

  /**
   * snaps[i].reshape(*shape)[tuple(bits)]: an empty shape calls reshape() with no
   * argument, a TypeError; otherwise the size must match and the indices must be in range.
   */
  function ReshapeIndex<A>(v: seq<A>, shape: seq<nat>, bits: seq<nat>): Result<A>
    requires |bits| == |shape|
  {
    if shape == [] then Err(TypeError)
    else if |v| != Product(shape) then Err(ValueError(CannotReshape))
    else
      match At(Reshape(v, shape), bits)
      case Ok(Scalar(a)) => Ok(a)
      case Ok(Array(_)) => Err(IndexError)
      case Err(e) => Err(e)
  }

  /**
   * Indexing the [2] * n reshape by a bit list reads the amplitude at the list's binary
   * value; with no wires the shape is empty and reshape() raises TypeError.
   */
  lemma {:induction false} ReshapeIndexOfBits<A>(v: seq<A>, bits: seq<nat>)
    ensures bits == [] ==> ReshapeIndex(v, ListMultiplication<nat>(2, |bits|), bits) == Err(TypeError)
    ensures bits != [] && |v| != Pow2(|bits|) ==> ReshapeIndex(v, ListMultiplication<nat>(2, |bits|), bits) == Err(ValueError(CannotReshape))
    ensures bits != [] && |v| == Pow2(|bits|) && !AllBits(bits) ==> ReshapeIndex(v, ListMultiplication<nat>(2, |bits|), bits) == Err(IndexError)
    ensures bits != [] && |v| == Pow2(|bits|) && AllBits(bits) ==>
      BitsValue(bits) < |v| && ReshapeIndex(v, ListMultiplication<nat>(2, |bits|), bits) == Ok(v[BitsValue(bits)])
  {
    var shape := ListMultiplication<nat>(2, |bits|);
    ProductOfTwos(|bits|);
    FlatIndexOfBits(bits);
    if bits != [] && |v| == Pow2(|bits|) {
      ReshapeAt(v, shape, bits);
    }
  }

  /**
   * The inner loop of from_state_to_values for one label: checkpoints 0 .. c - 1, each
   * first checked for the "Wrong shape" length mismatch, then reshaped and indexed.
   */
  function Amplitudes<A>(bits: seq<nat>, snaps: seq<seq<A>>, shape: seq<nat>, c: nat): Result<seq<A>>
    requires c < |snaps|
  {
    if c == 0 then Ok([])
    else
      var prev :- Amplitudes(bits, snaps, shape, c - 1);
      if |bits| != |shape| then Err(ValueError(WrongShape))
      else
        var a :- ReshapeIndex(snaps[c - 1], shape, bits);
        Ok(prev + [a])
  }

  /** Once a checkpoint has failed, the later ones are never reached. */
  lemma {:induction false} AmplitudesErrStays<A>(bits: seq<nat>, snaps: seq<seq<A>>, shape: seq<nat>, c: nat, d: nat)
    requires c <= d < |snaps| && Amplitudes(bits, snaps, shape, c).Err?
    ensures Amplitudes(bits, snaps, shape, d) == Amplitudes(bits, snaps, shape, c)
    decreases d - c
  {
    if c < d {
      AmplitudesErrStays(bits, snaps, shape, c, d - 1);
    }
  }

  /** One label's series: np.zeros(len(snaps) - 1) fails without snapshots. */
  function StateSeries<A>(bits: seq<nat>, snaps: seq<seq<A>>, shape: seq<nat>): Result<seq<A>> {
    if |snaps| == 0 then Err(ValueError(NegativeDimensions))
    else Amplitudes(bits, snaps, shape, |snaps| - 1)
  }

  /** The series of all labels in order, or the first label's error. */
  function AllSeries<A>(bitsList: seq<seq<nat>>, snaps: seq<seq<A>>, shape: seq<nat>): Result<seq<seq<A>>> {
    if bitsList == [] then Ok([])
    else
      var prev :- AllSeries(bitsList[..|bitsList| - 1], snaps, shape);
      var s :- StateSeries(bitsList[|bitsList| - 1], snaps, shape);
      Ok(prev + [s])
  }

  /** One more label whose series succeeds extends the series of the labels before it. */
  lemma {:induction false} AllSeriesSnoc<A>(bitsList: seq<seq<nat>>, snaps: seq<seq<A>>, shape: seq<nat>, q: nat)
    requires q < |bitsList| && AllSeries(bitsList[..q], snaps, shape).Ok? && StateSeries(bitsList[q], snaps, shape).Ok?
    ensures AllSeries(bitsList[..q + 1], snaps, shape)
         == Ok(AllSeries(bitsList[..q], snaps, shape).value + [StateSeries(bitsList[q], snaps, shape).value])
  {
    assert bitsList[..q + 1][..q] == bitsList[..q];
  }

  /** A label whose series fails after the labels before it succeeded decides the result. */
  lemma {:induction false} AllSeriesStops<A>(bitsList: seq<seq<nat>>, snaps: seq<seq<A>>, shape: seq<nat>, q: nat)
    requires q < |bitsList| && AllSeries(bitsList[..q], snaps, shape).Ok? && StateSeries(bitsList[q], snaps, shape).Err?
    ensures AllSeries(bitsList, snaps, shape) == Err(StateSeries(bitsList[q], snaps, shape).error)
  {
    assert bitsList[..q + 1][..q] == bitsList[..q];
    AllSeriesErrStays(bitsList, snaps, shape, q + 1);
  }

  /** Once a label has failed, the later labels are never reached. */
  lemma {:induction false} AllSeriesErrStays<A>(bitsList: seq<seq<nat>>, snaps: seq<seq<A>>, shape: seq<nat>, q: nat)
    requires q <= |bitsList| && AllSeries(bitsList[..q], snaps, shape).Err?
    ensures AllSeries(bitsList, snaps, shape) == AllSeries(bitsList[..q], snaps, shape)
    decreases |bitsList| - q
  {
    if q < |bitsList| {
      var prefix := bitsList[..|bitsList| - 1];
      assert prefix[..q] == bitsList[..q];
      AllSeriesErrStays(prefix, snaps, shape, q);
    } else {
      assert bitsList[..q] == bitsList;
    }
  }

  /** The list of per-label series with f applied to every amplitude. */
  function MapSeries<A>(amps: seq<seq<A>>, f: A -> real): (r: seq<seq<real>>)
    ensures |r| == |amps| && forall q :: 0 <= q < |amps| ==> r[q] == ApplyAll(amps[q], f)
  {
    seq(|amps|, q requires 0 <= q < |amps| => ApplyAll(amps[q], f))
  }

  lemma {:induction false} MapSeriesAppend<A>(amps: seq<seq<A>>, x: seq<A>, f: A -> real)
    ensures MapSeries(amps + [x], f) == MapSeries(amps, f) + [ApplyAll(x, f)]
  {
  }

  /** The amplitude series of every label, read through the reshaped checkpoint vectors. */
  function StateAmplitudes<A>(states: seq<string>, snaps: seq<seq<A>>, numWires: nat): Result<seq<seq<A>>> {
    var bitsList :- StatesBits(states);
    AllSeries(bitsList, snaps, ListMultiplication<nat>(2, numWires))
  }

  /** What from_state_to_values returns: (probs_list, phases_list), or the exception it raises. */
  function StateValuesOf<A>(states: seq<string>, snaps: seq<seq<A>>, numWires: nat, prob: A -> real, phase: A -> real)
    : Result<(seq<seq<real>>, seq<seq<real>>)>
  {
    var amps :- StateAmplitudes(states, snaps, numWires);
    Ok((MapSeries(amps, prob), MapSeries(amps, phase)))
  }

  /** The "Wrong shape" loop for one label, filling the np.zeros arrays entry by entry. */
  method StateRow<A>(bits: seq<nat>, snaps: seq<seq<A>>, shape: seq<nat>, prob: A -> real, phase: A -> real)
    returns (r: Result<(seq<real>, seq<real>)>)
    ensures r.Ok? <==> StateSeries(bits, snaps, shape).Ok?
    ensures r.Err? ==> r.error == StateSeries(bits, snaps, shape).error
    ensures r.Ok? ==> r.value == (ApplyAll(StateSeries(bits, snaps, shape).value, prob),
                                  ApplyAll(StateSeries(bits, snaps, shape).value, phase))
  {
    if |snaps| == 0 {
      return Err(ValueError(NegativeDimensions));
    }
    var n := |snaps| - 1;
    var probs := seq(n, _ => 0.0);
    var phases := seq(n, _ => 0.0);
    ghost var amps: seq<A> := [];
    var i := 0;
    while i < n
      invariant i <= n && |amps| == i && |probs| == n && |phases| == n
      invariant Amplitudes(bits, snaps, shape, i) == Ok(amps)
      invariant probs[..i] == ApplyAll(amps, prob) && phases[..i] == ApplyAll(amps, phase)
    {
      if |bits| != |shape| {
        AmplitudesErrStays(bits, snaps, shape, i + 1, n);
        return Err(ValueError(WrongShape));
      }
      var amplitude := ReshapeIndex(snaps[i], shape, bits);
      if amplitude.Err? {
        AmplitudesErrStays(bits, snaps, shape, i + 1, n);
        return Err(amplitude.error);
      }
      probs := probs[i := prob(amplitude.value)];
      phases := phases[i := phase(amplitude.value)];
      amps := amps + [amplitude.value];
      assert probs[..i + 1] == probs[..i] + [prob(amplitude.value)];
      assert phases[..i + 1] == phases[..i] + [phase(amplitude.value)];
      i := i + 1;
    }
    assert probs == probs[..n] && phases == phases[..n];
    r := Ok((probs, phases));
  }

  /** from_state_to_values, with save_json left at False. */
  method FromStateToValues<A>(states: seq<string>, snaps: seq<seq<A>>, numWires: nat, prob: A -> real, phase: A -> real)
    returns (r: Result<(seq<seq<real>>, seq<seq<real>>)>)
    ensures r == StateValuesOf(states, snaps, numWires, prob, phase)
  {
    var shape := ListMultiplication<nat>(2, numWires);
    var parsed := StatesBits(states);
    if parsed.Err? {
      return Err(parsed.error);
    }
    var statesList := parsed.value;
    var probsList: seq<seq<real>> := [];
    var phasesList: seq<seq<real>> := [];
    ghost var amps: seq<seq<A>> := [];
    var q := 0;
    while q < |statesList|
      invariant q <= |statesList|
      invariant AllSeries(statesList[..q], snaps, shape) == Ok(amps)
      invariant probsList == MapSeries(amps, prob) && phasesList == MapSeries(amps, phase)
    {
      var row := StateRow(statesList[q], snaps, shape, prob, phase);
      if row.Err? {
        AllSeriesStops(statesList, snaps, shape, q);
        return Err(row.error);
      }
      AllSeriesSnoc(statesList, snaps, shape, q);
      MapSeriesAppend(amps, StateSeries(statesList[q], snaps, shape).value, prob);
      MapSeriesAppend(amps, StateSeries(statesList[q], snaps, shape).value, phase);
      probsList := probsList + [row.value.0];
      phasesList := phasesList + [row.value.1];
      amps := amps + [StateSeries(statesList[q], snaps, shape).value];
      q := q + 1;
    }
    assert statesList[..q] == statesList;
    assert StateAmplitudes(states, snaps, numWires) == Ok(amps);
    r := Ok((probsList, phasesList));
  }

  /** A label that from_state_to_values can read for n wires: n digits, each 0 or 1. */
  ghost predicate LabelFits(state: string, n: nat) {
    AllDigits(state) && |state| == n && AllBits(DigitList(state))
  }

  /** Every checkpoint vector that is read holds 2 ** n amplitudes. */
  ghost predicate SizesFit<A>(snaps: seq<seq<A>>, n: nat) {
    forall c :: 0 <= c < |snaps| - 1 ==> |snaps[c]| == Pow2(n)
  }

  /** One amplitude per checkpoint read. */
  lemma {:induction false} AmplitudesLength<A>(bits: seq<nat>, snaps: seq<seq<A>>, shape: seq<nat>, c: nat)
    requires c < |snaps| && Amplitudes(bits, snaps, shape, c).Ok?
    ensures |Amplitudes(bits, snaps, shape, c).value| == c
  {
    if c > 0 {
      AmplitudesLength(bits, snaps, shape, c - 1);
    }
  }

  /**
   * The checkpoints of one label: "Wrong shape" as soon as one is read with a label
   * of the wrong length; otherwise they succeed exactly when the bits are 0/1 and
   * every vector read has 2 ** n entries.
   */
  lemma {:induction false} AmplitudesOfBits<A>(bits: seq<nat>, snaps: seq<seq<A>>, n: nat, c: nat)
    requires c < |snaps|
    ensures c > 0 && |bits| != n ==> Amplitudes(bits, snaps, ListMultiplication<nat>(2, n), c) == Err(ValueError(WrongShape))
    ensures c > 0 && |bits| == n == 0 ==> Amplitudes(bits, snaps, ListMultiplication<nat>(2, n), c) == Err(TypeError)
    ensures Amplitudes(bits, snaps, ListMultiplication<nat>(2, n), c).Ok? <==>
      c == 0 || (n > 0 && |bits| == n && AllBits(bits) && forall d :: 0 <= d < c ==> |snaps[d]| == Pow2(n))
  {
    if c > 0 {
      AmplitudesOfBits(bits, snaps, n, c - 1);
      if |bits| == n {
        ReshapeIndexOfBits(snaps[c - 1], bits);
      }
    }
  }

  /** Amplitude d of a label is snaps[d] at the label's binary value. */
  lemma {:induction false} AmplitudeAt<A>(bits: seq<nat>, snaps: seq<seq<A>>, n: nat, c: nat, d: nat)
    requires c < |snaps| && d < c && Amplitudes(bits, snaps, ListMultiplication<nat>(2, n), c).Ok?
    ensures |bits| == n && AllBits(bits) && BitsValue(bits) < |snaps[d]|
    ensures |Amplitudes(bits, snaps, ListMultiplication<nat>(2, n), c).value| == c
    ensures Amplitudes(bits, snaps, ListMultiplication<nat>(2, n), c).value[d] == snaps[d][BitsValue(bits)]
  {
    var shape := ListMultiplication<nat>(2, n);
    AmplitudesLength(bits, snaps, shape, c);
    AmplitudesLength(bits, snaps, shape, c - 1);
    assert |bits| == n;
    ReshapeIndexOfBits(snaps[c - 1], bits);
    if d < c - 1 {
      AmplitudeAt(bits, snaps, n, c - 1, d);
    }
  }

  /** The series of all labels succeed together, label by label. */
  lemma {:induction false} AllSeriesOkIff<A>(bitsList: seq<seq<nat>>, snaps: seq<seq<A>>, shape: seq<nat>)
    ensures AllSeries(bitsList, snaps, shape).Ok? <==> forall q :: 0 <= q < |bitsList| ==> StateSeries(bitsList[q], snaps, shape).Ok?
  {
    if bitsList != [] {
      var prefix := bitsList[..|bitsList| - 1];
      AllSeriesOkIff(prefix, snaps, shape);
      assert forall q :: 0 <= q < |prefix| ==> prefix[q] == bitsList[q];
    }
  }

  /** On success the series of label q is that label's own series. */
  lemma {:induction false} AllSeriesValues<A>(bitsList: seq<seq<nat>>, snaps: seq<seq<A>>, shape: seq<nat>)
    requires AllSeries(bitsList, snaps, shape).Ok?
    ensures |AllSeries(bitsList, snaps, shape).value| == |bitsList|
    ensures forall q :: 0 <= q < |bitsList| ==>
      StateSeries(bitsList[q], snaps, shape).Ok? && AllSeries(bitsList, snaps, shape).value[q] == StateSeries(bitsList[q], snaps, shape).value
  {
    if bitsList != [] {
      var prefix := bitsList[..|bitsList| - 1];
      AllSeriesValues(prefix, snaps, shape);
      assert forall q :: 0 <= q < |prefix| ==> prefix[q] == bitsList[q];
    }
  }

  /** On failure the error is that of the first label whose series fails. */
  lemma {:induction false} AllSeriesFirstError<A>(bitsList: seq<seq<nat>>, snaps: seq<seq<A>>, shape: seq<nat>)
    requires AllSeries(bitsList, snaps, shape).Err?
    ensures exists q ::
      && 0 <= q < |bitsList|
      && StateSeries(bitsList[q], snaps, shape) == Err(AllSeries(bitsList, snaps, shape).error)
      && (forall p :: 0 <= p < q ==> StateSeries(bitsList[p], snaps, shape).Ok?)
  {
    var prefix := bitsList[..|bitsList| - 1];
    assert forall q :: 0 <= q < |prefix| ==> prefix[q] == bitsList[q];
    if AllSeries(prefix, snaps, shape).Err? {
      AllSeriesFirstError(prefix, snaps, shape);
    } else {
      AllSeriesOkIff(prefix, snaps, shape);
      assert StateSeries(bitsList[|prefix|], snaps, shape) == Err(AllSeries(bitsList, snaps, shape).error);
    }
  }

  /** The series of all bit lists succeed unless some list is read and does not fit. */
  lemma {:induction false} AllSeriesOk<A>(bitsList: seq<seq<nat>>, snaps: seq<seq<A>>, n: nat)
    ensures AllSeries(bitsList, snaps, ListMultiplication<nat>(2, n)).Ok? <==>
      bitsList == [] || |snaps| == 1
      || (|snaps| >= 2 && n > 0 && SizesFit(snaps, n) && forall q :: 0 <= q < |bitsList| ==> |bitsList[q]| == n && AllBits(bitsList[q]))
  {
    var shape := ListMultiplication<nat>(2, n);
    AllSeriesOkIff(bitsList, snaps, shape);
    if |snaps| >= 2 {
      forall q | 0 <= q < |bitsList|
        ensures StateSeries(bitsList[q], snaps, shape).Ok? <==> (n > 0 && SizesFit(snaps, n) && |bitsList[q]| == n && AllBits(bitsList[q]))
      {
        AmplitudesOfBits(bitsList[q], snaps, n, |snaps| - 1);
      }
    } else if |snaps| == 1 {
      forall q | 0 <= q < |bitsList|
        ensures StateSeries(bitsList[q], snaps, shape).Ok?
      {
      }
    } else if bitsList != [] {
      assert StateSeries(bitsList[0], snaps, shape).Err?;
    }
  }

  /**
   * from_state_to_values succeeds exactly when every label parses and either there are
   * no labels, or there is just one snapshot (nothing is read), or there is at least one
   * wire, every label fits the wires and every vector read has 2 ** n entries.
   */
  lemma {:induction false} FromStateToValuesOk<A>(states: seq<string>, snaps: seq<seq<A>>, n: nat, prob: A -> real, phase: A -> real)
    ensures StateValuesOf(states, snaps, n, prob, phase).Ok? <==>
      && (forall q :: 0 <= q < |states| ==> AllDigits(states[q]))
      && (states == [] || |snaps| == 1
          || (|snaps| >= 2 && n > 0 && SizesFit(snaps, n) && forall q :: 0 <= q < |states| ==> LabelFits(states[q], n)))
  {
    var parsed := StatesBits(states);
    if parsed.Ok? {
      AllSeriesOk(parsed.value, snaps, n);
    }
  }

  /** On success there is one series per label, each with one amplitude per checkpoint but the last. */
  lemma {:induction false} StateAmplitudesShape<A>(states: seq<string>, snaps: seq<seq<A>>, n: nat)
    requires StateAmplitudes(states, snaps, n).Ok?
    ensures |StateAmplitudes(states, snaps, n).value| == |states|
    ensures forall q :: 0 <= q < |states| ==> |StateAmplitudes(states, snaps, n).value[q]| == |snaps| - 1
  {
    var bl := StatesBits(states).value;
    assert StateAmplitudes(states, snaps, n) == AllSeries(bl, snaps, ListMultiplication<nat>(2, n));
    AllSeriesShape(bl, snaps, ListMultiplication<nat>(2, n));
  }

  /** The same at the level of parsed bit lists. */
  lemma {:induction false} AllSeriesShape<A>(bitsList: seq<seq<nat>>, snaps: seq<seq<A>>, shape: seq<nat>)
    requires AllSeries(bitsList, snaps, shape).Ok?
    ensures |AllSeries(bitsList, snaps, shape).value| == |bitsList|
    ensures forall q :: 0 <= q < |bitsList| ==> |AllSeries(bitsList, snaps, shape).value[q]| == |snaps| - 1
  {
    var all := AllSeries(bitsList, snaps, shape).value;
    AllSeriesValues(bitsList, snaps, shape);
    forall q | 0 <= q < |bitsList|
      ensures |all[q]| == |snaps| - 1
    {
      AmplitudesLength(bitsList[q], snaps, shape, |snaps| - 1);
    }
  }

  /** Amplitude c of label q is snaps[c] at the label's binary value. */
  lemma {:induction false} StateAmplitudesAt<A>(states: seq<string>, snaps: seq<seq<A>>, n: nat, q: nat, c: nat)
    requires StateAmplitudes(states, snaps, n).Ok? && q < |states| && c < |snaps| - 1
    ensures LabelFits(states[q], n) && BitsValue(DigitList(states[q])) < |snaps[c]|
    ensures |StateAmplitudes(states, snaps, n).value| == |states|
    ensures |StateAmplitudes(states, snaps, n).value[q]| == |snaps| - 1
    ensures StateAmplitudes(states, snaps, n).value[q][c] == snaps[c][BitsValue(DigitList(states[q]))]
  {
    var shape := ListMultiplication<nat>(2, n);
    var bl := StatesBits(states).value;
    var all := AllSeries(bl, snaps, shape);
    assert StateAmplitudes(states, snaps, n) == all;
    assert |all.value| == |states| && all.value[q] == Amplitudes(bl[q], snaps, shape, |snaps| - 1).value
        && Amplitudes(bl[q], snaps, shape, |snaps| - 1).Ok? by {
      AllSeriesValues(bl, snaps, shape);
    }
    var bits := bl[q];
    assert bits == DigitList(states[q]);
    var amps := Amplitudes(bits, snaps, shape, |snaps| - 1).value;
    assert |bits| == n && AllBits(bits) && BitsValue(bits) < |snaps[c]| && |amps| == |snaps| - 1
        && amps[c] == snaps[c][BitsValue(bits)] by {
      AmplitudeAt(bits, snaps, n, |snaps| - 1, c);
    }
    assert all.value[q][c] == amps[c];
  }

  /** On success there is one series per label, each with one entry per checkpoint but the last. */
  lemma {:induction false} FromStateToValuesShape<A>(states: seq<string>, snaps: seq<seq<A>>, n: nat, prob: A -> real, phase: A -> real)
    requires StateValuesOf(states, snaps, n, prob, phase).Ok?
    ensures |StateValuesOf(states, snaps, n, prob, phase).value.0| == |states|
    ensures |StateValuesOf(states, snaps, n, prob, phase).value.1| == |states|
    ensures forall q :: 0 <= q < |states| ==>
      |StateValuesOf(states, snaps, n, prob, phase).value.0[q]| == |snaps| - 1
      && |StateValuesOf(states, snaps, n, prob, phase).value.1[q]| == |snaps| - 1
  {
    StateAmplitudesShape(states, snaps, n);
  }

  /** Entry c of label q is prob (phase) of the amplitude of snaps[c] at the label's binary value. */
  lemma {:induction false} FromStateToValuesAt<A>(states: seq<string>, snaps: seq<seq<A>>, n: nat, prob: A -> real, phase: A -> real, q: nat, c: nat)
    requires StateValuesOf(states, snaps, n, prob, phase).Ok? && q < |states| && c < |snaps| - 1
    ensures LabelFits(states[q], n) && BitsValue(DigitList(states[q])) < |snaps[c]|
    ensures q < |StateValuesOf(states, snaps, n, prob, phase).value.0|
    ensures q < |StateValuesOf(states, snaps, n, prob, phase).value.1|
    ensures c < |StateValuesOf(states, snaps, n, prob, phase).value.0[q]|
    ensures c < |StateValuesOf(states, snaps, n, prob, phase).value.1[q]|
    ensures StateValuesOf(states, snaps, n, prob, phase).value.0[q][c] == prob(snaps[c][BitsValue(DigitList(states[q]))])
    ensures StateValuesOf(states, snaps, n, prob, phase).value.1[q][c] == phase(snaps[c][BitsValue(DigitList(states[q]))])
  {
    StateAmplitudesAt(states, snaps, n, q, c);
  }

  /**
   * The length check sits inside the checkpoint loop: with at least one checkpoint,
   * vectors of 2 ** n entries and bit-only labels, a label of the wrong length raises
   * "Wrong shape"; with no wires an empty label before it raises reshape()'s TypeError
   * instead.
   */
  lemma {:induction false} WrongShapeRaised<A>(states: seq<string>, snaps: seq<seq<A>>, n: nat, prob: A -> real, phase: A -> real, bad: nat)
    requires forall q :: 0 <= q < |states| ==> AllDigits(states[q]) && AllBits(DigitList(states[q]))
    requires |snaps| >= 2 && SizesFit(snaps, n)
    requires bad < |states| && |states[bad]| != n
    ensures n > 0 ==> StateValuesOf(states, snaps, n, prob, phase) == Err(ValueError(WrongShape))
    ensures StateValuesOf(states, snaps, n, prob, phase) == Err(ValueError(WrongShape)) || StateValuesOf(states, snaps, n, prob, phase) == Err(TypeError)
  {
    var bl := StatesBits(states).value;
    AllSeriesWrongShape(bl, snaps, n, bad);
  }

  /** The same at the level of parsed bit lists. */
  lemma {:induction false} AllSeriesWrongShape<A>(bitsList: seq<seq<nat>>, snaps: seq<seq<A>>, n: nat, bad: nat)
    requires forall q :: 0 <= q < |bitsList| ==> AllBits(bitsList[q])
    requires |snaps| >= 2 && SizesFit(snaps, n)
    requires bad < |bitsList| && |bitsList[bad]| != n
    ensures n > 0 ==> AllSeries(bitsList, snaps, ListMultiplication<nat>(2, n)) == Err(ValueError(WrongShape))
    ensures AllSeries(bitsList, snaps, ListMultiplication<nat>(2, n)) == Err(ValueError(WrongShape)) || AllSeries(bitsList, snaps, ListMultiplication<nat>(2, n)) == Err(TypeError)
  {
    var shape := ListMultiplication<nat>(2, n);
    StateSeriesOfBits(bitsList[bad], snaps, n);
    AllSeriesOkIff(bitsList, snaps, shape);
    AllSeriesFirstError(bitsList, snaps, shape);
    var q :| 0 <= q < |bitsList| && StateSeries(bitsList[q], snaps, shape) == Err(AllSeries(bitsList, snaps, shape).error);
    StateSeriesOfBits(bitsList[q], snaps, n);
  }

  /**
   * With 0/1 bits and vectors of 2 ** n entries, a label's series fails by "Wrong shape"
   * exactly when its length is not n, and otherwise only by reshape()'s TypeError with
   * no wires.
   */
  lemma {:induction false} StateSeriesOfBits<A>(bits: seq<nat>, snaps: seq<seq<A>>, n: nat)
    requires AllBits(bits) && |snaps| >= 2 && SizesFit(snaps, n)
    ensures StateSeries(bits, snaps, ListMultiplication<nat>(2, n)).Ok? <==> n > 0 && |bits| == n
    ensures |bits| != n ==> StateSeries(bits, snaps, ListMultiplication<nat>(2, n)) == Err(ValueError(WrongShape))
    ensures |bits| == n == 0 ==> StateSeries(bits, snaps, ListMultiplication<nat>(2, n)) == Err(TypeError)
  {
    AmplitudesOfBits(bits, snaps, n, |snaps| - 1);
  }

  /** With a single snapshot no checkpoint is read, so no label is checked at all. */
  lemma {:induction false} NoCheckWithoutCheckpoints<A>(states: seq<string>, snaps: seq<seq<A>>, n: nat, prob: A -> real, phase: A -> real)
    requires forall q :: 0 <= q < |states| ==> AllDigits(states[q])
    requires |snaps| == 1
    ensures StateValuesOf(states, snaps, n, prob, phase).Ok?
    ensures |StateValuesOf(states, snaps, n, prob, phase).value.0| == |states|
    ensures |StateValuesOf(states, snaps, n, prob, phase).value.1| == |states|
    ensures forall q :: 0 <= q < |states| ==>
      StateValuesOf(states, snaps, n, prob, phase).value.0[q] == [] && StateValuesOf(states, snaps, n, prob, phase).value.1[q] == []
  {
    FromStateToValuesOk(states, snaps, n, prob, phase);
    FromStateToValuesShape(states, snaps, n, prob, phase);
  }

  /**
   * Reading the labels format(i, '0{n}b'): label i selects amplitude i of every
   * checkpoint vector.
   */
  lemma {:induction false} StatesSelectAmplitudes<A>(snaps: seq<seq<A>>, n: nat, prob: A -> real, phase: A -> real, i: nat, c: nat)
    requires n >= 1 && SizesFit(snaps, n) && i < Pow2(n) && c < |snaps| - 1
    ensures StateValuesOf(States(n), snaps, n, prob, phase).Ok?
    ensures i < |snaps[c]|
    ensures i < |StateValuesOf(States(n), snaps, n, prob, phase).value.0|
    ensures i < |StateValuesOf(States(n), snaps, n, prob, phase).value.1|
    ensures c < |StateValuesOf(States(n), snaps, n, prob, phase).value.0[i]|
    ensures c < |StateValuesOf(States(n), snaps, n, prob, phase).value.1[i]|
    ensures StateValuesOf(States(n), snaps, n, prob, phase).value.0[i][c] == prob(snaps[c][i])
    ensures StateValuesOf(States(n), snaps, n, prob, phase).value.1[i][c] == phase(snaps[c][i])
  {
    var states := States(n);
    forall j | 0 <= j < Pow2(n)
      ensures LabelFits(states[j], n)
    {
      StateValue(n, j);
    }
    FromStateToValuesOk(states, snaps, n, prob, phase);
    StateValue(n, i);
    FromStateToValuesAt(states, snaps, n, prob, phase, i, c);
  }
}
