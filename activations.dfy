/**
 * The scalar activation functions of src/activations.rs (its `activation`
 * module), over exact reals. The exponential the source takes from `f32::exp`
 * is a parameter: any positive-valued function, so the results below hold
 * whatever exponential is used.
 */
module Activation {

  /** An exponential: only its positivity is relied on. */
  type Exp = e: real -> real | forall t :: e(t) > 0.0 witness (t: real) => 1.0

  /** logistic: 1 / (1 + e^-x), strictly inside (0, 1). */
  function Logistic(x: real, exp: Exp): (r: real)
    ensures 0.0 < r < 1.0
  {
    var d := 1.0 + exp(-x);
    assert d > 1.0;
    1.0 / d
  }

  /** relu: the larger of x and 0. */
  function Relu(x: real): (r: real)
    ensures r >= 0.0 && r >= x && (r == x || r == 0.0)
  {
    if x > 0.0 then x else 0.0
  }

  /** relie: slope 0.01 below zero; never below x and of the same sign as x. */
  function Relie(x: real): (r: real)
    ensures r >= x
    ensures (r > 0.0 <==> x > 0.0) && (r == 0.0 <==> x == 0.0)
  {
    if x > 0.0 then x else 0.01 * x
  }

  /** linear: the identity. */
  function Linear(x: real): (r: real)
    ensures r == x
  {
    x
  }

  /** ramp: slope 1.1 above zero and 0.1 below; never below x and of the same sign as x. */
  function Ramp(x: real): (r: real)
    ensures r >= x
    ensures (r > 0.0 <==> x > 0.0) && (r == 0.0 <==> x == 0.0)
  {
    if x > 0.0 then x + 0.1 * x else 0.1 * x
  }

  /** tanh: (e^2x - 1) / (e^2x + 1), strictly inside (-1, 1). */
  function TanH(x: real, exp: Exp): (r: real)
    ensures -1.0 < r < 1.0
  {
    var e := exp(x * 2.0);
    assert e + 1.0 > 0.0;
    (e - 1.0) / (e + 1.0)
  }

  /**
   * plse: slope 1/8 on [-4, 4] and 1/100 outside. The output is in [0, 1]
   * exactly when the input is in [-4, 4], below 0 left of it and above 1
   * right of it.
   */
  function Plse(x: real): (r: real)
    ensures -4.0 <= x <= 4.0 <==> 0.0 <= r <= 1.0
    ensures x < -4.0 <==> r < 0.0
    ensures x > 4.0 <==> r > 1.0
  {
    if x < -4.0 then 0.01 * (x + 4.0)
    else if x > 4.0 then 0.01 * (x - 4.0) + 1.0
    else 0.125 * x + 0.5
  }

  /** leaky: slope 0.1 below zero; never below x and of the same sign as x. */
  function Leaky(x: real): (r: real)
    ensures r >= x
    ensures (r > 0.0 <==> x > 0.0) && (r == 0.0 <==> x == 0.0)
  {
    if x > 0.0 then x else 0.1 * x
  }

  /** elu: x above zero, e^x - 1 otherwise; always above -1. */
  function Elu(x: real, exp: Exp): (r: real)
    ensures r > -1.0
  {
    if x > 0.0 then x else exp(x) - 1.0
  }

  /** loggy: 2 / (1 + e^-x) - 1, strictly inside (-1, 1). */
  function Loggy(x: real, exp: Exp): (r: real)
    ensures -1.0 < r < 1.0
  {
    var d := 1.0 + exp(-x);
    assert d > 1.0;
    2.0 / d - 1.0
  }

  /**
   * stair: the floor n of x when n is even, n + 1/2 when it is odd. The
   * output keeps the input's floor, lies in (x - 1, x + 1/2], and is a whole
   * number exactly when that floor is even.
   */
  function Stair(x: real): (r: real)
    ensures r.Floor == x.Floor
    ensures x - 1.0 < r <= x + 0.5
    ensures r == r.Floor as real <==> x.Floor % 2 == 0
  {
    var n := x.Floor;
    if n % 2 == 0 then n as real else n as real + 0.5
  }

  /** hard_tan: x clamped to [-1, 1]. */
  function HardTan(x: real): (r: real)
    ensures -1.0 <= r <= 1.0
    ensures -1.0 <= x <= 1.0 ==> r == x
  {
    if x < -1.0 then -1.0 else if x > 1.0 then 1.0 else x
  }

  /**
   * lh_tan: the identity on [0, 1], slope 1/1000 outside. The output is in
   * [0, 1] exactly when the input is, below 0 left of it and above 1 right of it.
   */
  function LhTan(x: real): (r: real)
    ensures 0.0 <= x <= 1.0 ==> r == x
    ensures x < 0.0 <==> r < 0.0
    ensures x > 1.0 <==> r > 1.0
  {
    if x < 0.0 then 0.001 * x
    else if x > 1.0 then 0.001 * (x - 1.0) + 1.0
    else x
  }

  /**
   * selu: 1.0507 x from zero up, 1.0507 * 1.6732 (e^x - 1) below; never
   * below x from zero up, and never below -1.0507 * 1.6732.
   */
  function Selu(x: real, exp: Exp): (r: real)
    ensures x >= 0.0 ==> r >= x
    ensures r > -1.0507 * 1.6732
  {
    if x >= 0.0 then 1.0507 * x else 1.0507 * 1.6732 * (exp(x) - 1.0)
  }
}

/**
 * The gradients of src/activations.rs (its `gradient` module). Each takes the
 * activation's OUTPUT y, not its input, as the back-propagation code holds only
 * the cached outputs.
 */
module Gradient {
  import opened Activation

  /** logistic: (1 - y) y, at most 1/4. */
  function Logistic(y: real): (r: real)
    ensures r <= 0.25
  {
    assert (1.0 - y) * y == 0.25 - (y - 0.5) * (y - 0.5);
    (1.0 - y) * y
  }

  function Relu(y: real): (r: real)
    ensures r == 0.0 || r == 1.0
  {
    if y > 0.0 then 1.0 else 0.0
  }

  /** relie: 1 on the positive side and 0.01 elsewhere; never zero. */
  function Relie(y: real): (r: real)
    ensures 0.0 < r <= 1.0
    ensures r == 1.0 <==> y > 0.0
  {
    if y > 0.0 then 1.0 else 0.01
  }

  /** linear: the constant slope 1, whatever the output. */
  function Linear(y: real): (r: real)
    ensures r == 1.0
  {
    1.0
  }

  function Ramp(y: real): (r: real)
    ensures r > 0.0
  {
    if y > 0.0 then 1.1 else 0.1
  }

  /** tanh: 1 - y^2, at most 1. */
  function TanH(y: real): (r: real)
    ensures r <= 1.0
  {
    1.0 - y * y
  }

  function Plse(y: real): (r: real)
    ensures r > 0.0
  {
    if y < 0.0 || y > 1.0 then 0.01 else 0.125
  }

  /** leaky: 1 on the positive side and 0.1 elsewhere; never zero. */
  function Leaky(y: real): (r: real)
    ensures 0.0 < r <= 1.0
    ensures r == 1.0 <==> y > 0.0
  {
    if y > 0.0 then 1.0 else 0.1
  }

  function Elu(y: real, exp: Exp): (r: real)
    ensures r > 0.0
  {
    if y > 0.0 then 1.0 else exp(y)
  }

  /** loggy: with z = (y + 1) / 2, 2 (1 - z) z, at most 1/2. */
  function Loggy(y: real): (r: real)
    ensures r <= 0.5
  {
    var z := (y + 1.0) / 2.0;
    assert 2.0 * (1.0 - z) * z == 0.5 - 2.0 * (z - 0.5) * (z - 0.5);
    2.0 * (1.0 - z) * z
  }

  /** stair: 0 at whole numbers, 1 elsewhere. */
  function Stair(y: real): (r: real)
    ensures r == 0.0 || r == 1.0
    ensures r == 0.0 <==> y == y.Floor as real
  {
    if y.Floor as real == y then 0.0 else 1.0
  }

  function HardTan(y: real): (r: real)
    ensures r == 0.0 || r == 1.0
  {
    if y > -1.0 && y < 1.0 then 1.0 else 0.0
  }

  function LhTan(y: real): (r: real)
    ensures r > 0.0
  {
    if y > 0.0 && y < 1.0 then 1.0 else 0.001
  }

  /** selu: on every output selu can produce, the gradient is positive. */
  function Selu(y: real): (r: real)
    ensures y > -1.0507 * 1.6732 ==> r > 0.0
  {
    if y >= 0.0 then 1.0507 else y + 1.0507 * 1.6732
  }
}

/**
 * The `ActivationFunction` enum, the `activate`/`gradient` dispatch and the
 * in-place slice maps `activate_vector`/`gradient_vector` of src/activations.rs.
 */
module Activations {
  import opened Activation
  import G = Gradient

  datatype ActivationFunction =
    | Logistic | Relu | Relie | Linear | Ramp | TanH | Plse
    | Leaky | Elu | Loggy | Stair | HardTan | LhTan | Selu

  /**
   * activate: the scalar activation named by `f`. Each variant keeps the
   * range of the function of the same name.
   */
  function Activate(x: real, f: ActivationFunction, exp: Exp): (r: real)
    ensures f == Logistic ==> 0.0 < r < 1.0
    ensures f in {TanH, Loggy} ==> -1.0 < r < 1.0
    ensures f == HardTan ==> -1.0 <= r <= 1.0
    ensures f == Relu ==> r >= 0.0 && r >= x
    ensures f in {Relie, Ramp, Leaky} ==> r >= x && (r > 0.0 <==> x > 0.0)
    ensures f == Linear ==> r == x
    ensures f == Plse ==> (r < 0.0 <==> x < -4.0)
    ensures f == LhTan ==> (r < 0.0 <==> x < 0.0)
    ensures f == Elu ==> r > -1.0
    ensures f == Selu ==> r > -1.0507 * 1.6732
    ensures f == Stair ==> r.Floor == x.Floor
  {
    match f
    case Logistic => Activation.Logistic(x, exp)
    case Relu => Activation.Relu(x)
    case Relie => Activation.Relie(x)
    case Linear => Activation.Linear(x)
    case Ramp => Activation.Ramp(x)
    case TanH => Activation.TanH(x, exp)
    case Plse => Activation.Plse(x)
    case Leaky => Activation.Leaky(x)
    case Elu => Activation.Elu(x, exp)
    case Loggy => Activation.Loggy(x, exp)
    case Stair => Activation.Stair(x)
    case HardTan => Activation.HardTan(x)
    case LhTan => Activation.LhTan(x)
    case Selu => Activation.Selu(x, exp)
  }

  /**
   * gradient: the scalar gradient named by `f`, taken at an activation
   * output. Each variant keeps the range of the gradient of the same name.
   */
  function Gradient(y: real, f: ActivationFunction, exp: Exp): (r: real)
    ensures f in {Relu, Stair, HardTan} ==> r == 0.0 || r == 1.0
    ensures f in {Relie, Linear, Ramp, Plse, Leaky, Elu, LhTan} ==> r > 0.0
    ensures f == Linear ==> r == 1.0
    ensures f == Logistic ==> r <= 0.25
    ensures f == TanH ==> r <= 1.0
    ensures f == Loggy ==> r <= 0.5
    ensures f == Selu && y > -1.0507 * 1.6732 ==> r > 0.0
  {
    match f
    case Logistic => G.Logistic(y)
    case Relu => G.Relu(y)
    case Relie => G.Relie(y)
    case Linear => G.Linear(y)
    case Ramp => G.Ramp(y)
    case TanH => G.TanH(y)
    case Plse => G.Plse(y)
    case Leaky => G.Leaky(y)
    case Elu => G.Elu(y, exp)
    case Loggy => G.Loggy(y)
    case Stair => G.Stair(y)
    case HardTan => G.HardTan(y)
    case LhTan => G.LhTan(y)
    case Selu => G.Selu(y)
  }

  /** The activations that are straight lines between finitely many kinks. */
  predicate PiecewiseLinear(f: ActivationFunction) {
    f in {Relu, Relie, Linear, Ramp, Plse, Leaky, HardTan, LhTan}
  }

  /**
   * Which straight piece of `f` the input x lies on, numbered left to right.
   * A kink belongs to the piece whose slope the gradient reports there.
   */
  function Piece(f: ActivationFunction, x: real): nat
    requires PiecewiseLinear(f)
  {
    match f
    case Plse => if x < -4.0 then 0 else if x > 4.0 then 2 else 1
    case HardTan => if x <= -1.0 then 0 else if x >= 1.0 then 2 else 1
    case LhTan => if x <= 0.0 then 0 else if x >= 1.0 then 2 else 1
    case Linear => 0
    case _ => if x > 0.0 then 1 else 0
  }

  /**
   * The gradient, applied to the output at x, is the slope of the activation
   * between x and any z on the same piece: the output-side convention of the
   * source's gradients is consistent with its activations.
   */
  lemma GradientIsSlope(f: ActivationFunction, exp: Exp, x: real, z: real)
    requires PiecewiseLinear(f) && Piece(f, x) == Piece(f, z)
    ensures Activate(z, f, exp) - Activate(x, f, exp) == Gradient(Activate(x, f, exp), f, exp) * (z - x)
  {
    match f
    case Relu =>
    case Relie =>
    case Linear =>
    case Ramp =>
    case Plse =>
    case Leaky =>
    case HardTan =>
    case LhTan =>
  }

  /** Every piecewise-linear activation is non-decreasing. */
  lemma Monotone(f: ActivationFunction, exp: Exp, x: real, z: real)
    requires PiecewiseLinear(f) && x <= z
    ensures Activate(x, f, exp) <= Activate(z, f, exp)
  {
  }

  /** linear is the identity, and its gradient is 1 everywhere. */
  lemma LinearIsIdentity(exp: Exp, x: real)
    ensures Activate(x, Linear, exp) == x && Gradient(x, Linear, exp) == 1.0
  {
  }

  /** relu, linear, stair and hard_tan give back their own outputs unchanged. */
  lemma Idempotent(f: ActivationFunction, exp: Exp, x: real)
    requires f in {Relu, Linear, Stair, HardTan}
    ensures Activate(Activate(x, f, exp), f, exp) == Activate(x, f, exp)
  {
    if f == Stair {
      var r := Activation.Stair(x);
      assert r.Floor == x.Floor;
    }
  }

  /** `activate` applied to every element of s. */
  function ActivateAll(s: seq<real>, f: ActivationFunction, exp: Exp): (r: seq<real>)
    ensures |r| == |s|
  {
    seq(|s|, i requires 0 <= i < |s| => Activate(s[i], f, exp))
  }

  /** `gradient` applied to every element of s. */
  function GradientAll(s: seq<real>, f: ActivationFunction, exp: Exp): (r: seq<real>)
    ensures |r| == |s|
  {
    seq(|s|, i requires 0 <= i < |s| => Gradient(s[i], f, exp))
  }

  /** activate_vector: overwrites each element of v with its activation, in place. */
  method ActivateVector(v: array<real>, f: ActivationFunction, exp: Exp)
    modifies v
    ensures v[..] == ActivateAll(old(v[..]), f, exp)
  {
    for k := 0 to v.Length
      invariant v[k..] == old(v[k..])
      invariant v[..k] == ActivateAll(old(v[..]), f, exp)[..k]
    {
      v[k] := Activate(v[k], f, exp);
    }
  }

  /** gradient_vector: overwrites each element of v with its gradient, in place. */
  method GradientVector(v: array<real>, f: ActivationFunction, exp: Exp)
    modifies v
    ensures v[..] == GradientAll(old(v[..]), f, exp)
  {
    for k := 0 to v.Length
      invariant v[k..] == old(v[k..])
      invariant v[..k] == GradientAll(old(v[..]), f, exp)[..k]
    {
      v[k] := Gradient(v[k], f, exp);
    }
  }

  /** Applying an idempotent activation to a whole slice twice is the same as once. */
  lemma ActivateAllIdempotent(s: seq<real>, f: ActivationFunction, exp: Exp)
    requires f in {Relu, Linear, Stair, HardTan}
    ensures ActivateAll(ActivateAll(s, f, exp), f, exp) == ActivateAll(s, f, exp)
  {
    forall i | 0 <= i < |s|
      ensures ActivateAll(ActivateAll(s, f, exp), f, exp)[i] == ActivateAll(s, f, exp)[i]
    {
      Idempotent(f, exp, s[i]);
    }
  }
}
