/**
 * The feed-forward network of src/neoronet.rs.
 *
 * `Network` keeps its topology, weights, biases and the activation cache of the
 * last forward pass in fields; feed_forward rewrites the cache, back_propogate
 * rewrites weights and biases in place, and train alternates the two. Each
 * method is proved against a ghost function of the old state (Forward,
 * BackPropagation, Run), and the lemmas below are about those functions.
 */
module NeuroNet {
  import opened Results
  import opened Tensor
  import opened Indexing

  const InvalidInputs := "Invalid inputs length"
  const InvalidTargets := "Invalid targets length"

  /**
   * The activation pair: `func` is applied in the forward pass and
   * `derivative` is applied by the backward pass to already-activated values.
   */
  datatype Activation = Activation(func: real -> real, derivative: real -> real)

  /** weights[i] is layers[i+1] x layers[i] and biases[i] is layers[i+1] x 1. */
  ghost predicate WellShaped(layers: seq<nat>, weights: seq<Tensor2D>, biases: seq<Tensor2D>) {
    && |layers| >= 1
    && |weights| == |layers| - 1
    && |biases| == |layers| - 1
    && (forall i {:trigger weights[i]} :: 0 <= i < |layers| - 1 ==> weights[i].HasShape(layers[i + 1], layers[i]))
    && (forall i {:trigger biases[i]} :: 0 <= i < |layers| - 1 ==> biases[i].HasShape(layers[i + 1], 1))
  }

  /** data[i] is the layers[i] x 1 column of layer i's activations. */
  ghost predicate CacheShaped(layers: seq<nat>, data: seq<Tensor2D>) {
    |data| == |layers| && forall i :: 0 <= i < |layers| ==> data[i].HasShape(layers[i], 1)
  }

  predicate AllPositive(layers: seq<nat>) {
    forall i :: 0 <= i < |layers| ==> layers[i] > 0
  }

  /** The column vector the source builds as `Tensor2D::from(vec![v]).transpose()`. */
  ghost function Column(v: seq<real>): (c: Tensor2D)
    ensures c.HasShape(|v|, 1)
    ensures forall i :: 0 <= i < |v| ==> c.data[i][0] == v[i]
  {
    Transposed(From([v]))
  }

  /** The vector the source reads back from a column as `c.transpose().data[0]`. */
  ghost function ColumnValues(c: Tensor2D): (v: seq<real>)
    requires c.Valid() && c.cols == 1
    ensures |v| == c.rows
    ensures forall i :: 0 <= i < c.rows ==> v[i] == c.data[i][0]
  {
    Transposed(c).data[0]
  }

  /** Reading back a column built from a vector gives that vector. */
  lemma FlatColumn(v: seq<real>)
    ensures ColumnValues(Column(v)) == v
  {
  }

  // ---------------------------------------------------------------------------
  // Forward pass

  /** One layer transition: func applied entrywise to w . x + b. */
  ghost function Layer(w: Tensor2D, b: Tensor2D, x: Tensor2D, f: real -> real): (y: Tensor2D)
    requires w.Valid() && w.rows > 0 && b.HasShape(w.rows, 1) && x.HasShape(w.cols, 1)
    ensures y.HasShape(w.rows, 1)
  {
    Map(Entrywise(Product(w, x), b, Plus), f)
  }

  /** The activation cache after the first `k` layer transitions. */
  ghost function Activations(layers: seq<nat>, weights: seq<Tensor2D>, biases: seq<Tensor2D>,
                             f: real -> real, input: seq<real>, k: nat): (c: seq<Tensor2D>)
    requires WellShaped(layers, weights, biases) && |input| == layers[0] && k < |layers|
    requires forall i :: 0 < i < |layers| ==> layers[i] > 0
    ensures |c| == k + 1
    ensures forall i :: 0 <= i <= k ==> c[i].HasShape(layers[i], 1)
    decreases k
  {
    if k == 0 then [Column(input)]
    else
      var prev := Activations(layers, weights, biases, f, input, k - 1);
      prev + [Layer(weights[k - 1], biases[k - 1], prev[k - 1], f)]
  }

  /** The activation cache that a forward pass on `input` leaves behind. */
  ghost function Forward(layers: seq<nat>, weights: seq<Tensor2D>, biases: seq<Tensor2D>,
                         f: real -> real, input: seq<real>): (c: seq<Tensor2D>)
    requires WellShaped(layers, weights, biases) && |input| == layers[0]
    requires forall i :: 0 < i < |layers| ==> layers[i] > 0
    ensures CacheShaped(layers, c)
  {
    Activations(layers, weights, biases, f, input, |layers| - 1)
  }

  lemma {:induction false} ActivationsPrefix(layers: seq<nat>, weights: seq<Tensor2D>, biases: seq<Tensor2D>,
                                             f: real -> real, input: seq<real>, j: nat, k: nat)
    requires WellShaped(layers, weights, biases) && |input| == layers[0] && j <= k < |layers|
    requires forall i :: 0 < i < |layers| ==> layers[i] > 0
    ensures Activations(layers, weights, biases, f, input, k)[j] == Activations(layers, weights, biases, f, input, j)[j]
    decreases k
  {
    if j < k {
      ActivationsPrefix(layers, weights, biases, f, input, j, k - 1);
    }
  }

  /** The cache starts with the input as a column. */
  lemma ForwardInput(layers: seq<nat>, weights: seq<Tensor2D>, biases: seq<Tensor2D>,
                     f: real -> real, input: seq<real>)
    requires WellShaped(layers, weights, biases) && |input| == layers[0]
    requires forall i :: 0 < i < |layers| ==> layers[i] > 0
    ensures Forward(layers, weights, biases, f, input)[0] == Column(input)
  {
    ActivationsPrefix(layers, weights, biases, f, input, 0, |layers| - 1);
  }

  /** The cache after i + 1 transitions ends with transition i applied to the cache's entry i. */
  lemma ActivationsNext(layers: seq<nat>, weights: seq<Tensor2D>, biases: seq<Tensor2D>,
                        f: real -> real, input: seq<real>, i: nat)
    requires WellShaped(layers, weights, biases) && |input| == layers[0] && i < |layers| - 1
    requires forall i :: 0 < i < |layers| ==> layers[i] > 0
    ensures Activations(layers, weights, biases, f, input, i + 1) ==
            Activations(layers, weights, biases, f, input, i) +
            [Layer(weights[i], biases[i], Activations(layers, weights, biases, f, input, i)[i], f)]
  {
  }

  /** Each further cache entry is the previous one pushed through the next layer transition. */
  lemma ForwardStep(layers: seq<nat>, weights: seq<Tensor2D>, biases: seq<Tensor2D>,
                    f: real -> real, input: seq<real>, i: nat)
    requires WellShaped(layers, weights, biases) && |input| == layers[0] && i < |layers| - 1
    requires forall i :: 0 < i < |layers| ==> layers[i] > 0
    ensures Forward(layers, weights, biases, f, input)[i + 1] ==
            Layer(weights[i], biases[i], Forward(layers, weights, biases, f, input)[i], f)
  {
    var last := |layers| - 1;
    assert Forward(layers, weights, biases, f, input) == Activations(layers, weights, biases, f, input, last);
    ActivationsNext(layers, weights, biases, f, input, i);
    ActivationsPrefix(layers, weights, biases, f, input, i + 1, last);
    ActivationsPrefix(layers, weights, biases, f, input, i, last);
  }

  /** Topology [2, 1], identity activation, weight [[1, 1]], zero bias: input [3, 4] gives [7]. */
  lemma ForwardExample()
    ensures WellShaped([2, 1], [From([[1.0, 1.0]])], [From([[0.0]])])
    ensures ColumnValues(Forward([2, 1], [From([[1.0, 1.0]])], [From([[0.0]])], x => x, [3.0, 4.0])[1]) == [7.0]
  {
    var w, b, x := From([[1.0, 1.0]]), From([[0.0]]), Column([3.0, 4.0]);
    var c := Forward([2, 1], [w], [b], y => y, [3.0, 4.0]);
    assert c[1] == Layer(w, b, x, y => y);
    assert Dot(w, x, 0, 0, 2) == 7.0 by {
      assert Dot(w, x, 0, 0, 0) == 0.0;
      assert Dot(w, x, 0, 0, 1) == 3.0;
    }
    assert c[1].data[0][0] == 7.0;
  }

  // ---------------------------------------------------------------------------
  // Backward pass

  datatype Params = Params(weights: seq<Tensor2D>, biases: seq<Tensor2D>)

  /** The map `|x| x * learning_rate` that scales the gradients. */
  function ScaleBy(rate: real): real -> real {
    x => x * rate
  }

  /**
   * Layer i of the backward pass, given the error and gradient columns of
   * layer i + 1: the scaled delta is added to weights[i] (times the transposed
   * input column) and to biases[i]; then the error is propagated through the
   * UPDATED weights[i], as the source does, and the new gradient is the
   * derivative applied to layer i's cached activations.
   */
  ghost function BackwardLayer(layers: seq<nat>, p: Params, data: seq<Tensor2D>, errors: Tensor2D,
                               gradients: Tensor2D, rate: real, df: real -> real, i: nat): (res: (Params, Tensor2D, Tensor2D))
    requires AllPositive(layers) && WellShaped(layers, p.weights, p.biases) && i + 1 < |layers|
    requires CacheShaped(layers, data)
    requires errors.HasShape(layers[i + 1], 1) && gradients.HasShape(layers[i + 1], 1)
    ensures WellShaped(layers, res.0.weights, res.0.biases)
    ensures res.1.HasShape(layers[i], 1) && res.2.HasShape(layers[i], 1)
    ensures forall j :: 0 <= j < |p.weights| && j != i ==> res.0.weights[j] == p.weights[j] && res.0.biases[j] == p.biases[j]
  {
    var delta := Map(Entrywise(gradients, errors, Times), ScaleBy(rate));
    var w := Entrywise(p.weights[i], Product(delta, Transposed(data[i])), Plus);
    var b := Entrywise(p.biases[i], delta, Plus);
    (Params(p.weights[i := w], p.biases[i := b]), Product(Transposed(w), errors), Map(data[i], df))
  }

  /** Layers k-1 down to 0 of the backward pass, from the error and gradient columns of layer k. */
  ghost function Backward(layers: seq<nat>, p: Params, data: seq<Tensor2D>, errors: Tensor2D,
                          gradients: Tensor2D, rate: real, df: real -> real, k: nat): (q: Params)
    requires AllPositive(layers) && WellShaped(layers, p.weights, p.biases) && k < |layers|
    requires k == 0 || CacheShaped(layers, data)
    requires errors.HasShape(layers[k], 1) && gradients.HasShape(layers[k], 1)
    ensures WellShaped(layers, q.weights, q.biases)
    decreases k
  {
    if k == 0 then p
    else
      var next := BackwardLayer(layers, p, data, errors, gradients, rate, df, k - 1);
      Backward(layers, next.0, data, next.1, next.2, rate, df, k - 1)
  }

  /** The whole backward pass for `outputs` against `targets`. */
  ghost function BackPropagation(layers: seq<nat>, p: Params, data: seq<Tensor2D>, outputs: seq<real>,
                                 targets: seq<real>, rate: real, df: real -> real): (q: Params)
    requires AllPositive(layers) && WellShaped(layers, p.weights, p.biases)
    requires |layers| == 1 || CacheShaped(layers, data)
    requires |outputs| == |targets| == layers[|layers| - 1]
    ensures WellShaped(layers, q.weights, q.biases)
  {
    Backward(layers, p, data, Entrywise(Column(targets), Column(outputs), Minus),
             Map(Column(outputs), df), rate, df, |layers| - 1)
  }

  /** With a zero error column every delta is zero and no parameter moves. */
  lemma {:induction false} BackwardZeroError(layers: seq<nat>, p: Params, data: seq<Tensor2D>, errors: Tensor2D,
                                             gradients: Tensor2D, rate: real, df: real -> real, k: nat)
    requires AllPositive(layers) && WellShaped(layers, p.weights, p.biases) && k < |layers|
    requires k == 0 || CacheShaped(layers, data)
    requires errors == Zeros(layers[k], 1) && gradients.HasShape(layers[k], 1)
    ensures Backward(layers, p, data, errors, gradients, rate, df, k) == p
    decreases k
  {
    if k > 0 {
      var i := k - 1;
      DotMultiplyZero(gradients);
      MapZero(layers[k], 1, ScaleBy(rate));
      var delta := Map(Entrywise(gradients, errors, Times), ScaleBy(rate));
      assert delta == Zeros(layers[k], 1);
      ProductZeroLeft(layers[k], Transposed(data[i]));
      AddZero(p.weights[i]);
      AddZero(p.biases[i]);
      ProductZeroRight(Transposed(p.weights[i]), 1);
      assert p.weights[i := p.weights[i]] == p.weights;
      assert p.biases[i := p.biases[i]] == p.biases;
      assert BackwardLayer(layers, p, data, errors, gradients, rate, df, i) == (p, Zeros(layers[i], 1), Map(data[i], df));
      BackwardZeroError(layers, p, data, Zeros(layers[i], 1), Map(data[i], df), rate, df, i);
    }
  }

  /** When the outputs already equal the targets, back-propagation leaves every weight and bias alone. */
  lemma BackPropagationAtTarget(layers: seq<nat>, p: Params, data: seq<Tensor2D>, targets: seq<real>,
                                rate: real, df: real -> real)
    requires AllPositive(layers) && WellShaped(layers, p.weights, p.biases)
    requires |layers| == 1 || CacheShaped(layers, data)
    requires |targets| == layers[|layers| - 1]
    ensures BackPropagation(layers, p, data, targets, targets, rate, df) == p
  {
    SubtractSelfIsZero(Column(targets));
    BackwardZeroError(layers, p, data, Zeros(|targets|, 1), Map(Column(targets), df), rate, df, |layers| - 1);
  }

  // ---------------------------------------------------------------------------
  // Training

  /** Everything a training step can change. */
  datatype NetState = NetState(weights: seq<Tensor2D>, biases: seq<Tensor2D>, data: seq<Tensor2D>)

  ghost predicate StateValid(layers: seq<nat>, s: NetState) {
    WellShaped(layers, s.weights, s.biases) && (s.data == [] || CacheShaped(layers, s.data))
  }

  /**
   * What an example needs so that the step on it ends in a value or in one of
   * the source's explicit panics rather than an implicit one: when the input
   * length is right, `map` must never see an empty column, which requires every
   * layer after the first to be positive for the forward pass and, when the
   * target length is right too, every layer for the backward pass.
   */
  predicate Admissible(layers: seq<nat>, example: (seq<real>, seq<real>)) {
    |layers| >= 1 &&
    (|example.0| == layers[0] ==>
       (forall i :: 0 < i < |layers| ==> layers[i] > 0) &&
       (|example.1| == layers[|layers| - 1] ==> AllPositive(layers)))
  }

  ghost predicate AllAdmissible(layers: seq<nat>, schedule: seq<(seq<real>, seq<real>)>) {
    forall e :: e in schedule ==> Admissible(layers, e)
  }

  /** Every example pairs an input with a target, and every example is admissible. */
  ghost predicate Examples(layers: seq<nat>, inputs: seq<seq<real>>, targets: seq<seq<real>>) {
    |inputs| <= |targets| && AllAdmissible(layers, Pass(inputs, targets))
  }

  /** One forward pass on `example.0` followed by one backward pass against `example.1`. */
  ghost function Step(layers: seq<nat>, rate: real, act: Activation, s: NetState,
                      example: (seq<real>, seq<real>)): (res: (NetState, Result<()>))
    requires StateValid(layers, s) && Admissible(layers, example)
    ensures StateValid(layers, res.0)
  {
    var (x, t) := example;
    if |x| != layers[0] then (s, Panic(InvalidInputs))
    else
      var cache := Forward(layers, s.weights, s.biases, act.func, x);
      if |t| != layers[|layers| - 1] then (s.(data := cache), Panic(InvalidTargets))
      else
        var p := BackPropagation(layers, Params(s.weights, s.biases), cache, ColumnValues(cache[|cache| - 1]),
                                 t, rate, act.derivative);
        (NetState(p.weights, p.biases, cache), Ok(()))
  }

  /** The steps of `schedule` in order, stopping at the first panic. */
  ghost function Run(layers: seq<nat>, rate: real, act: Activation, s: NetState,
                     schedule: seq<(seq<real>, seq<real>)>): (res: (NetState, Result<()>))
    requires StateValid(layers, s) && AllAdmissible(layers, schedule)
    ensures StateValid(layers, res.0)
    decreases |schedule|
  {
    if schedule == [] then (s, Ok(()))
    else
      var prev := Run(layers, rate, act, s, schedule[..|schedule| - 1]);
      if prev.1.Panic? then prev else Step(layers, rate, act, prev.0, schedule[|schedule| - 1])
  }

  /** One epoch: every example, in input order. */
  ghost function Pass(inputs: seq<seq<real>>, targets: seq<seq<real>>): (p: seq<(seq<real>, seq<real>)>)
    requires |inputs| <= |targets|
    ensures |p| == |inputs| && forall j :: 0 <= j < |inputs| ==> p[j] == (inputs[j], targets[j])
  {
    seq(|inputs|, j requires 0 <= j < |inputs| => (inputs[j], targets[j]))
  }

  /** `epochs` passes, one after the other. */
  ghost function Schedule(inputs: seq<seq<real>>, targets: seq<seq<real>>, epochs: nat): (s: seq<(seq<real>, seq<real>)>)
    requires epochs == 0 || |inputs| <= |targets|
    ensures |s| == epochs * |inputs|
    ensures forall e :: e in s ==> e in Pass(inputs, targets)
  {
    if epochs == 0 then [] else Schedule(inputs, targets, epochs - 1) + Pass(inputs, targets)
  }

  /**
   * Training makes exactly epochs * |inputs| steps, and step number
   * e * |inputs| + j uses example j.
   */
  lemma {:induction false} ScheduleAt(inputs: seq<seq<real>>, targets: seq<seq<real>>, epochs: nat, e: nat, j: nat)
    requires |inputs| <= |targets| && e < epochs && j < |inputs|
    ensures Schedule(inputs, targets, epochs)[e * |inputs| + j] == (inputs[j], targets[j])
  {
    var n := |inputs|;
    var earlier := Schedule(inputs, targets, epochs - 1);
    assert Schedule(inputs, targets, epochs) == earlier + Pass(inputs, targets);
    if e < epochs - 1 {
      MulMono(n, e + 1, epochs - 1);
      assert e * n + j < (e + 1) * n <= |earlier|;
      ScheduleAt(inputs, targets, epochs - 1, e, j);
    } else {
      assert e * n + j == |earlier| + j;
    }
  }

  /** A schedule of fewer epochs is a prefix of a schedule of more. */
  lemma {:induction false} SchedulePrefix(inputs: seq<seq<real>>, targets: seq<seq<real>>, e: nat, epochs: nat)
    requires e <= epochs && (epochs == 0 || |inputs| <= |targets|)
    ensures |Schedule(inputs, targets, e)| <= |Schedule(inputs, targets, epochs)|
    ensures Schedule(inputs, targets, epochs)[..|Schedule(inputs, targets, e)|] == Schedule(inputs, targets, e)
    decreases epochs
  {
    if e < epochs {
      SchedulePrefix(inputs, targets, e, epochs - 1);
    }
  }

  /** Every step of training runs an admissible example. */
  lemma {:induction false} ScheduleAdmissible(layers: seq<nat>, inputs: seq<seq<real>>, targets: seq<seq<real>>, epochs: nat)
    requires epochs == 0 || Examples(layers, inputs, targets)
    ensures AllAdmissible(layers, Schedule(inputs, targets, epochs))
  {
    if epochs > 0 {
      ScheduleAdmissible(layers, inputs, targets, epochs - 1);
      var earlier, pass := Schedule(inputs, targets, epochs - 1), Pass(inputs, targets);
      forall e | e in earlier + pass
        ensures Admissible(layers, e)
      {
        if e !in earlier {
          assert e in pass;
        }
      }
    }
  }

  /** The outcome of training for `epochs` epochs from state s: the steps of the schedule, in order. */
  ghost function Training(layers: seq<nat>, rate: real, act: Activation, s: NetState,
                          inputs: seq<seq<real>>, targets: seq<seq<real>>, epochs: nat): (res: (NetState, Result<()>))
    requires StateValid(layers, s) && (epochs == 0 || Examples(layers, inputs, targets))
    ensures StateValid(layers, res.0)
  {
    ScheduleAdmissible(layers, inputs, targets, epochs);
    Run(layers, rate, act, s, Schedule(inputs, targets, epochs))
  }

  /** Once a prefix of the schedule has panicked, the rest of the schedule is never run. */
  lemma {:induction false} RunStopsAtPanic(layers: seq<nat>, rate: real, act: Activation, s: NetState,
                                           pre: seq<(seq<real>, seq<real>)>, schedule: seq<(seq<real>, seq<real>)>)
    requires StateValid(layers, s) && AllAdmissible(layers, schedule)
    requires |pre| <= |schedule| && schedule[..|pre|] == pre
    requires Run(layers, rate, act, s, pre).1.Panic?
    ensures Run(layers, rate, act, s, schedule) == Run(layers, rate, act, s, pre)
    decreases |schedule|
  {
    if |schedule| > |pre| {
      var shorter := schedule[..|schedule| - 1];
      assert shorter[..|pre|] == pre;
      RunStopsAtPanic(layers, rate, act, s, pre, shorter);
    } else {
      assert schedule == pre;
    }
  }

  /** Within an epoch, the next step runs example j. */
  lemma PassExtend(inputs: seq<seq<real>>, targets: seq<seq<real>>, j: nat)
    requires |inputs| <= |targets| && j < |inputs|
    ensures Pass(inputs, targets)[..j + 1] == Pass(inputs, targets)[..j] + [(inputs[j], targets[j])]
  {
  }

  /** Running one more example continues from where the shorter schedule left off. */
  lemma RunExtend(layers: seq<nat>, rate: real, act: Activation, s: NetState,
                  pre: seq<(seq<real>, seq<real>)>, example: (seq<real>, seq<real>))
    requires StateValid(layers, s) && AllAdmissible(layers, pre) && Admissible(layers, example)
    ensures Run(layers, rate, act, s, pre + [example]) ==
      var prev := Run(layers, rate, act, s, pre);
      if prev.1.Panic? then prev else Step(layers, rate, act, prev.0, example)
  {
    assert (pre + [example])[..|pre|] == pre;
  }

  /** Running two schedules back to back is running the second from where the first left off. */
  lemma {:induction false} RunAppend(layers: seq<nat>, rate: real, act: Activation, s: NetState,
                                     first: seq<(seq<real>, seq<real>)>, second: seq<(seq<real>, seq<real>)>)
    requires StateValid(layers, s) && AllAdmissible(layers, first) && AllAdmissible(layers, second)
    ensures Run(layers, rate, act, s, first + second) ==
      var mid := Run(layers, rate, act, s, first);
      if mid.1.Panic? then mid else Run(layers, rate, act, mid.0, second)
    decreases |second|
  {
    if second == [] {
      assert first + second == first;
    } else {
      var init := second[..|second| - 1];
      var last := second[|second| - 1];
      assert first + second == (first + init) + [last];
      assert second == init + [last];
      RunAppend(layers, rate, act, s, first, init);
      RunExtend(layers, rate, act, s, first + init, last);
      var mid := Run(layers, rate, act, s, first);
      if !mid.1.Panic? {
        RunExtend(layers, rate, act, mid.0, init, last);
      }
    }
  }

  /** Epoch e + 1 continues from the state epoch e left behind, unless that panicked. */
  lemma RunEpoch(layers: seq<nat>, rate: real, act: Activation, s: NetState,
                 inputs: seq<seq<real>>, targets: seq<seq<real>>, e: nat)
    requires Examples(layers, inputs, targets) && StateValid(layers, s)
    ensures Run(layers, rate, act, s, Schedule(inputs, targets, e + 1)) ==
      var mid := Run(layers, rate, act, s, Schedule(inputs, targets, e));
      if mid.1.Panic? then mid else Run(layers, rate, act, mid.0, Pass(inputs, targets))
  {
    if |inputs| > 0 {
      RunAppend(layers, rate, act, s, Schedule(inputs, targets, e), Pass(inputs, targets));
    } else {
      assert Schedule(inputs, targets, e + 1) == Schedule(inputs, targets, e);
    }
  }

  /** A panic within the first e epochs is where the whole training run ends. */
  lemma RunEndsEarly(layers: seq<nat>, rate: real, act: Activation, s: NetState,
                     inputs: seq<seq<real>>, targets: seq<seq<real>>, e: nat, epochs: nat)
    requires Examples(layers, inputs, targets) && StateValid(layers, s)
    requires e <= epochs && Run(layers, rate, act, s, Schedule(inputs, targets, e)).1.Panic?
    ensures Run(layers, rate, act, s, Schedule(inputs, targets, epochs)) ==
            Run(layers, rate, act, s, Schedule(inputs, targets, e))
  {
    SchedulePrefix(inputs, targets, e, epochs);
    RunStopsAtPanic(layers, rate, act, s, Schedule(inputs, targets, e), Schedule(inputs, targets, epochs));
  }

  /**
   * After the pass of epoch e: either training goes on from the new state, or
   * it panicked and that is the outcome of the whole run.
   */
  lemma EpochAdvance(layers: seq<nat>, rate: real, act: Activation, s: NetState,
                     inputs: seq<seq<real>>, targets: seq<seq<real>>, e: nat, epochs: nat,
                     mid: NetState, after: (NetState, Result<()>))
    requires Examples(layers, inputs, targets) && StateValid(layers, s)
    requires e < epochs && Run(layers, rate, act, s, Schedule(inputs, targets, e)) == (mid, Ok(()))
    requires after == Run(layers, rate, act, mid, Pass(inputs, targets))
    ensures after.1.Ok? ==> Run(layers, rate, act, s, Schedule(inputs, targets, e + 1)) == after
    ensures after.1.Panic? ==> Run(layers, rate, act, s, Schedule(inputs, targets, epochs)) == after
  {
    RunEpoch(layers, rate, act, s, inputs, targets, e);
    if after.1.Panic? {
      RunEndsEarly(layers, rate, act, s, inputs, targets, e + 1, epochs);
    }
  }

  // ---------------------------------------------------------------------------
  // The network object

  class Network {
    const layers: seq<nat>
    var weights: seq<Tensor2D>
    var biases: seq<Tensor2D>
    var data: seq<Tensor2D>
    const learningRate: real
    const activation: Activation

    /** The shape invariant; the cache is empty until the first forward pass. */
    ghost predicate Valid()
      reads this
    {
      StateValid(layers, State())
    }

    ghost function State(): NetState
      reads this
    {
      NetState(weights, biases, data)
    }

    /**
     * One random weight matrix and one random bias column per layer transition.
     * `draws(t)` stands for the uniform draws of the t-th call to `Tensor2D::random`.
     */
    constructor (layers: seq<nat>, learningRate: real, activation: Activation, draws: nat -> (nat, nat) -> real)
      requires |layers| >= 1
      requires forall t, i, j :: 0.0 <= draws(t)(i, j) < 1.0
      ensures Valid() && data == []
      ensures this.layers == layers && this.learningRate == learningRate && this.activation == activation
      ensures forall i :: 0 <= i < |layers| - 1 ==>
        weights[i] == Random(layers[i + 1], layers[i], draws(2 * i)) &&
        biases[i] == Random(layers[i + 1], 1, draws(2 * i + 1))
    {
      var ws: seq<Tensor2D> := [];
      var bs: seq<Tensor2D> := [];
      for i := 0 to |layers| - 1
        invariant |ws| == |bs| == i
        invariant forall i' :: 0 <= i' < i ==>
          ws[i'] == Random(layers[i' + 1], layers[i'], draws(2 * i')) &&
          bs[i'] == Random(layers[i' + 1], 1, draws(2 * i' + 1))
      {
        ws := ws + [Random(layers[i + 1], layers[i], draws(2 * i))];
        bs := bs + [Random(layers[i + 1], 1, draws(2 * i + 1))];
      }
      this.layers := layers;
      weights := ws;
      biases := bs;
      data := [];
      this.learningRate := learningRate;
      this.activation := activation;
    }

    /**
     * Panics unless the input has layers[0] entries; otherwise caches every
     * layer's activation column in `data` and returns the last one as a vector.
     */
    method FeedForward(inputs: seq<real>) returns (r: Result<seq<real>>)
      requires Valid()
      requires |inputs| == layers[0] ==> forall i :: 0 < i < |layers| ==> layers[i] > 0
      modifies this`data
      ensures Valid()
      ensures |inputs| != layers[0] ==> r == Panic(InvalidInputs) && data == old(data)
      ensures |inputs| == layers[0] ==>
        data == Forward(layers, weights, biases, activation.func, inputs) &&
        r.Ok? && |r.value| == layers[|layers| - 1] && r.value == ColumnValues(data[|layers| - 1])
    {
      if |inputs| != layers[0] {
        return Panic(InvalidInputs);
      }
      var current := ForwardLoop(inputs);
      var flat := Transpose(current);
      return Ok(flat.data[0]);
    }

    /** The forward loop: fills `data` with the cache and returns its last column. */
    method ForwardLoop(inputs: seq<real>) returns (current: Tensor2D)
      requires WellShaped(layers, weights, biases) && |inputs| == layers[0]
      requires forall i :: 0 < i < |layers| ==> layers[i] > 0
      modifies this`data
      ensures data == Forward(layers, weights, biases, activation.func, inputs)
      ensures current == data[|layers| - 1]
    {
      current := Transpose(From([inputs]));
      var cache := [current];
      for i := 0 to |layers| - 1
        invariant cache == Activations(layers, weights, biases, activation.func, inputs, i)
        invariant current == cache[i]
      {
        ActivationsNext(layers, weights, biases, activation.func, inputs, i);
        current := ForwardLayer(i, current);
        cache := cache + [current];
      }
      data := cache;
    }

    /** The body of the forward loop: layer i's activation column pushed through transition i. */
    method ForwardLayer(i: nat, current: Tensor2D) returns (next: Tensor2D)
      requires WellShaped(layers, weights, biases) && i < |layers| - 1 && layers[i + 1] > 0
      requires current.HasShape(layers[i], 1)
      ensures next == Layer(weights[i], biases[i], current, activation.func)
    {
      var product := Multiply(weights[i], current);
      var sum := Add(product.value, biases[i]);
      next := Map(sum.value, activation.func);
    }

    /**
     * Panics unless `targets` has one entry per output unit (and, through the
     * subtraction, unless `outputs` has as many); otherwise updates every
     * weight matrix and bias column, from the last layer down.
     */
    method BackPropagate(outputs: seq<real>, targets: seq<real>) returns (r: Result<()>)
      requires Valid()
      requires |targets| == layers[|layers| - 1] == |outputs| ==> AllPositive(layers) && (|layers| == 1 || data != [])
      modifies this`weights, this`biases
      ensures Valid()
      ensures |targets| != layers[|layers| - 1] ==>
        r == Panic(InvalidTargets) && weights == old(weights) && biases == old(biases)
      ensures |targets| == layers[|layers| - 1] && |outputs| != |targets| ==>
        r == Panic(SubtractMismatch) && weights == old(weights) && biases == old(biases)
      ensures |targets| == layers[|layers| - 1] == |outputs| ==>
        r == Ok(()) &&
        Params(weights, biases) == BackPropagation(layers, Params(old(weights), old(biases)), data,
                                                   outputs, targets, learningRate, activation.derivative)
    {
      if |targets| != layers[|layers| - 1] {
        return Panic(InvalidTargets);
      }
      var parsed := Transpose(From([outputs]));
      var expected := Transpose(From([targets]));
      var difference := Subtract(expected, parsed);
      if difference.Panic? {
        return Panic(difference.message);
      }
      var errors := difference.value;
      var gradients := Map(parsed, activation.derivative);
      assert parsed == Column(outputs) && expected == Column(targets);
      BackwardFrom(|layers| - 1, errors, gradients);
      return Ok(());
    }

    /** The backward loop: layers k-1 down to 0, from the error and gradient columns of layer k. */
    method BackwardFrom(k: nat, errors: Tensor2D, gradients: Tensor2D)
      requires Valid() && AllPositive(layers) && k < |layers| && (k == 0 || data != [])
      requires errors.HasShape(layers[k], 1) && gradients.HasShape(layers[k], 1)
      modifies this`weights, this`biases
      ensures Valid()
      ensures Params(weights, biases) ==
        Backward(layers, Params(old(weights), old(biases)), data, errors, gradients, learningRate, activation.derivative, k)
    {
      ghost var goal := Backward(layers, Params(weights, biases), data, errors, gradients, learningRate, activation.derivative, k);
      var e, g := errors, gradients;
      var i := k;
      while i > 0
        invariant 0 <= i <= k
        invariant Valid()
        invariant e.HasShape(layers[i], 1) && g.HasShape(layers[i], 1)
        invariant Backward(layers, Params(weights, biases), data, e, g, learningRate, activation.derivative, i) == goal
      {
        i := i - 1;
        e, g := UpdateLayer(i, e, g);
      }
    }

    /** The body of the backward loop for layer i: updates weights[i] and biases[i] in place. */
    method UpdateLayer(i: nat, errors: Tensor2D, gradients: Tensor2D) returns (errors': Tensor2D, gradients': Tensor2D)
      requires Valid() && AllPositive(layers) && i + 1 < |layers| && data != []
      requires errors.HasShape(layers[i + 1], 1) && gradients.HasShape(layers[i + 1], 1)
      modifies this`weights, this`biases
      ensures Valid()
      ensures (Params(weights, biases), errors', gradients') ==
        BackwardLayer(layers, Params(old(weights), old(biases)), data, errors, gradients, learningRate, activation.derivative, i)
    {
      var hadamard := DotMultiply(gradients, errors);
      var delta := Map(hadamard.value, ScaleBy(learningRate));
      var inputRow := Transpose(data[i]);
      var step := Multiply(delta, inputRow);
      var w := Add(weights[i], step.value);
      weights := weights[i := w.value];
      var b := Add(biases[i], delta);
      biases := biases[i := b.value];
      var wt := Transpose(weights[i]);
      var propagated := Multiply(wt, errors);
      errors' := propagated.value;
      gradients' := Map(data[i], activation.derivative);
    }

    /** One example: a forward pass on `x`, then a backward pass of its output against `t`. */
    method TrainStep(x: seq<real>, t: seq<real>) returns (r: Result<()>)
      requires Valid() && Admissible(layers, (x, t))
      modifies this`weights, this`biases, this`data
      ensures Valid()
      ensures (State(), r) == Step(layers, learningRate, activation, old(State()), (x, t))
    {
      var outputs := FeedForward(x);
      if outputs.Panic? {
        return Panic(outputs.message);
      }
      r := BackPropagate(outputs.value, t);
    }

    /** One pass over the examples in input order; a panic ends the pass. */
    method TrainEpoch(inputs: seq<seq<real>>, targets: seq<seq<real>>) returns (r: Result<()>)
      requires Valid() && Examples(layers, inputs, targets)
      modifies this`weights, this`biases, this`data
      ensures Valid()
      ensures (State(), r) == Run(layers, learningRate, activation, old(State()), Pass(inputs, targets))
    {
      ghost var start := State();
      r := Ok(());
      for j := 0 to |inputs|
        invariant Valid()
        invariant Run(layers, learningRate, activation, start, Pass(inputs, targets)[..j]) == (State(), r) && r == Ok(())
      {
        RunExtend(layers, learningRate, activation, start, Pass(inputs, targets)[..j], (inputs[j], targets[j]));
        r := TrainStep(inputs[j], targets[j]);
        PassExtend(inputs, targets, j);
        if r.Panic? {
          RunStopsAtPanic(layers, learningRate, activation, start, Pass(inputs, targets)[..j + 1], Pass(inputs, targets));
          return;
        }
      }
      assert Pass(inputs, targets)[..|inputs|] == Pass(inputs, targets);
    }

    /**
     * `epochs` passes over the examples in input order, one forward pass and
     * one backward pass per example; a panic in either ends training.
     */
    method Train(inputs: seq<seq<real>>, targets: seq<seq<real>>, epochs: nat) returns (r: Result<()>)
      requires Valid()
      requires epochs == 0 || Examples(layers, inputs, targets)
      modifies this`weights, this`biases, this`data
      ensures Valid()
      ensures (State(), r) == Training(layers, learningRate, activation, old(State()), inputs, targets, epochs)
    {
      ghost var start := State();
      for e := 0 to epochs
        invariant Valid()
        invariant Training(layers, learningRate, activation, start, inputs, targets, e) == (State(), Ok(()))
      {
        r := TrainRound(inputs, targets, e, epochs, start);
        if r.Panic? {
          return;
        }
      }
      r := Ok(());
    }

    /** The body of the epoch loop: epoch e, after epochs 0 to e - 1 ended without a panic. */
    method TrainRound(inputs: seq<seq<real>>, targets: seq<seq<real>>, e: nat, epochs: nat, ghost start: NetState)
      returns (r: Result<()>)
      requires Valid() && StateValid(layers, start) && Examples(layers, inputs, targets) && e < epochs
      requires Training(layers, learningRate, activation, start, inputs, targets, e) == (State(), Ok(()))
      modifies this`weights, this`biases, this`data
      ensures Valid()
      ensures r.Ok? ==> Training(layers, learningRate, activation, start, inputs, targets, e + 1) == (State(), r)
      ensures r.Panic? ==> Training(layers, learningRate, activation, start, inputs, targets, epochs) == (State(), r)
    {
      ghost var mid := State();
      r := TrainEpoch(inputs, targets);
      EpochAdvance(layers, learningRate, activation, start, inputs, targets, e, epochs, mid, (State(), r));
    }
  }
}
