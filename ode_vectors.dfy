/** State vectors and derivative functions shared by every integrator.

    A state vector is a flat sequence of reals (the numpy float64 arrays of
    the source, with exact real arithmetic instead of IEEE rounding). The
    element-wise operations below are the numpy operators `+`, `-`, scalar
    `*` and scalar `/` on vectors of equal length. */
module OdeVectors {

  type Vector = seq<real>

  /** The right-hand side `diff_eq(time, y_vec, masses)`: any function whose
      result has the length of the state it is given. */
  type Derivative = f: (real, Vector, Vector) -> Vector | forall t, y, m :: |f(t, y, m)| == |y|
    witness (t: real, y: Vector, m: Vector) => y

  /** `f` ignores time and state on vectors of the length of `c`, returning `c`. */
  ghost predicate ConstantOn(f: Derivative, c: Vector) {
    forall t, y, m :: |y| == |c| ==> f(t, y, m) == c
  }

  lemma ConstantAt(f: Derivative, c: Vector, t: real, y: Vector, m: Vector)
    requires ConstantOn(f, c) && |y| == |c|
    ensures f(t, y, m) == c
  {
  }

  function Add(u: Vector, v: Vector): (w: Vector)
    requires |u| == |v|
    ensures |w| == |u|
  {
    seq(|u|, i requires 0 <= i < |u| => u[i] + v[i])
  }

  function Sub(u: Vector, v: Vector): (w: Vector)
    requires |u| == |v|
    ensures |w| == |u|
  {
    seq(|u|, i requires 0 <= i < |u| => u[i] - v[i])
  }

  function Scale(c: real, v: Vector): (w: Vector)
    ensures |w| == |v|
  {
    seq(|v|, i requires 0 <= i < |v| => c * v[i])
  }

  function Div(v: Vector, d: real): (w: Vector)
    requires d != 0.0
    ensures |w| == |v|
  {
    seq(|v|, i requires 0 <= i < |v| => v[i] / d)
  }

  function Zero(n: nat): (w: Vector)
    ensures |w| == n
  {
    seq(n, i requires 0 <= i < n => 0.0)
  }
}
