/** A reference definition of one explicit Runge-Kutta step, driven by a
    Butcher tableau. Each hand-written scheme of the integrators is proved
    equal to this definition with its own tableau, which pins down the time
    and state at which it calls the derivative and how it combines the
    stages; the general facts proved here (a constant derivative is
    integrated exactly, a zero step changes nothing) then carry over. */
module RungeKutta {
  import opened OdeVectors

  /** Nodes `c`, strictly lower-triangular stage coefficients `a` (row `i`
      has `i` entries) and final weights `b`. */
  datatype Tableau = Tableau(c: seq<real>, a: seq<seq<real>>, b: seq<real>)

  predicate WellFormed(tab: Tableau) {
    && |tab.a| == |tab.c|
    && |tab.b| == |tab.c|
    && forall i :: 0 <= i < |tab.a| ==> |tab.a[i]| == i
  }

  /** The first `n` entries of `w`, added up. */
  function SumUpTo(w: seq<real>, n: nat): real
    requires n <= |w|
  {
    if n == 0 then 0.0 else SumUpTo(w, n - 1) + w[n - 1]
  }

  function Sum(w: seq<real>): real {
    SumUpTo(w, |w|)
  }

  /** Each row of `a` adds up to its node, so that stage `i` is taken at
      `t + c[i]*dt` from a state that has moved as far as a step of that length. */
  predicate RowSumsAreNodes(tab: Tableau)
    requires WellFormed(tab)
  {
    forall i :: 0 <= i < |tab.c| ==> Sum(tab.a[i]) == tab.c[i]
  }

  /** `y + w[0]*ks[0] + ... + w[n-1]*ks[n-1]`, added left to right. */
  function Accumulate(y: Vector, w: seq<real>, ks: seq<Vector>, n: nat): (r: Vector)
    requires n <= |w| && n <= |ks|
    requires forall j :: 0 <= j < n ==> |ks[j]| == |y|
    ensures |r| == |y|
  {
    if n == 0 then y else Add(Accumulate(y, w, ks, n - 1), Scale(w[n - 1], ks[n - 1]))
  }

  /** The stage times `t + c[i]*dt` of the tableau. */
  function Nodes(c: seq<real>, t: real, dt: real): (ts: seq<real>)
    ensures |ts| == |c|
  {
    seq(|c|, i requires 0 <= i < |c| => t + c[i] * dt)
  }

  /** The first `n` stage increments `k[i] = dt * f(nodes[i], y + sum_j a[i][j]*k[j], m)`. */
  function Stages(tab: Tableau, f: Derivative, nodes: seq<real>, dt: real, y: Vector, m: Vector, n: nat): (ks: seq<Vector>)
    requires WellFormed(tab) && |nodes| == |tab.c| && n <= |tab.c|
    ensures |ks| == n
    ensures forall j :: 0 <= j < n ==> |ks[j]| == |y|
  {
    if n == 0 then []
    else
      var ks := Stages(tab, f, nodes, dt, y, m, n - 1);
      ks + [Scale(dt, f(nodes[n - 1], Accumulate(y, tab.a[n - 1], ks, n - 1), m))]
  }

  /** One step whose stage times are given explicitly. */
  function RungeKuttaAt(tab: Tableau, f: Derivative, nodes: seq<real>, dt: real, y: Vector, m: Vector): (r: Vector)
    requires WellFormed(tab) && |nodes| == |tab.c|
    ensures |r| == |y|
  {
    Accumulate(y, tab.b, Stages(tab, f, nodes, dt, y, m, |tab.c|), |tab.c|)
  }

  /** One step of the explicit method of the tableau, from time `t`. */
  function ExplicitRungeKutta(tab: Tableau, f: Derivative, t: real, dt: real, y: Vector, m: Vector): (r: Vector)
    requires WellFormed(tab)
    ensures |r| == |y|
  {
    RungeKuttaAt(tab, f, Nodes(tab.c, t, dt), dt, y, m)
  }

  /** The stage equations of the tableau, for the increments `ks`. */
  ghost predicate SolvesStages(tab: Tableau, f: Derivative, nodes: seq<real>, dt: real, y: Vector, m: Vector, ks: seq<Vector>)
    requires WellFormed(tab) && |nodes| == |tab.c|
  {
    && |ks| == |tab.c|
    && (forall j :: 0 <= j < |ks| ==> |ks[j]| == |y|)
    // triggered on `nodes[j]`: unfolding `Accumulate` mentions `ks[j - 1]`, so a
    // trigger on `ks[j]` would instantiate the equation for every earlier stage
    && forall j {:trigger nodes[j]} :: 0 <= j < |ks| ==> ks[j] == Scale(dt, f(nodes[j], Accumulate(y, tab.a[j], ks, j), m))
  }

  lemma {:induction false} AccumulateSameVectors(y: Vector, w: seq<real>, ks: seq<Vector>, ls: seq<Vector>, n: nat)
    requires n <= |w| && n <= |ks| && n <= |ls|
    requires forall j :: 0 <= j < n ==> |ks[j]| == |y| && ks[j] == ls[j]
    ensures Accumulate(y, w, ks, n) == Accumulate(y, w, ls, n)
  {
    if n > 0 {
      AccumulateSameVectors(y, w, ks, ls, n - 1);
    }
  }

  /** Stage `j` of a solution of the stage equations. */
  lemma StageEquation(tab: Tableau, f: Derivative, nodes: seq<real>, dt: real, y: Vector, m: Vector, ks: seq<Vector>, j: nat)
    requires WellFormed(tab) && |nodes| == |tab.c|
    requires SolvesStages(tab, f, nodes, dt, y, m, ks) && j < |ks|
    ensures ks[j] == Scale(dt, f(nodes[j], Accumulate(y, tab.a[j], ks, j), m))
  {
  }

  /** Increments that solve the stage equations are the ones `Stages` computes. */
  lemma {:induction false} StagesPrefix(tab: Tableau, f: Derivative, nodes: seq<real>, dt: real, y: Vector, m: Vector, ks: seq<Vector>, n: nat)
    requires WellFormed(tab) && |nodes| == |tab.c| && n <= |tab.c|
    requires SolvesStages(tab, f, nodes, dt, y, m, ks)
    ensures Stages(tab, f, nodes, dt, y, m, n) == ks[..n]
  {
    if n > 0 {
      StagesPrefix(tab, f, nodes, dt, y, m, ks, n - 1);
      var prefix := Stages(tab, f, nodes, dt, y, m, n - 1);
      AccumulateSameVectors(y, tab.a[n - 1], prefix, ks, n - 1);
      StageEquation(tab, f, nodes, dt, y, m, ks, n - 1);
      assert Stages(tab, f, nodes, dt, y, m, n) == prefix + [ks[n - 1]];
      assert ks[..n] == ks[..n - 1] + [ks[n - 1]];
    }
  }

  /** A step is determined by any solution of its stage equations. */
  lemma RungeKuttaFromStages(tab: Tableau, f: Derivative, nodes: seq<real>, dt: real, y: Vector, m: Vector, ks: seq<Vector>)
    requires WellFormed(tab) && |nodes| == |tab.c|
    requires SolvesStages(tab, f, nodes, dt, y, m, ks)
    ensures RungeKuttaAt(tab, f, nodes, dt, y, m) == Accumulate(y, tab.b, ks, |ks|)
  {
    StagesPrefix(tab, f, nodes, dt, y, m, ks, |ks|);
    assert ks[..|ks|] == ks;
  }

  /** Accumulating copies of one vector adds it scaled by the sum of the weights. */
  lemma {:induction false} AccumulateOfEqual(y: Vector, w: seq<real>, ks: seq<Vector>, v: Vector, n: nat)
    requires n <= |w| && n <= |ks| && |v| == |y|
    requires forall j :: 0 <= j < n ==> ks[j] == v
    ensures Accumulate(y, w, ks, n) == Add(y, Scale(SumUpTo(w, n), v))
  {
    if n > 0 {
      AccumulateOfEqual(y, w, ks, v, n - 1);
      var lhs, rhs := Accumulate(y, w, ks, n), Add(y, Scale(SumUpTo(w, n), v));
      forall i | 0 <= i < |y|
        ensures lhs[i] == rhs[i]
      {
        calc {
          lhs[i];
          (y[i] + SumUpTo(w, n - 1) * v[i]) + w[n - 1] * v[i];
          y[i] + (SumUpTo(w, n - 1) + w[n - 1]) * v[i];
          rhs[i];
        }
      }
    } else {
      assert Add(y, Scale(0.0, v)) == y;
    }
  }

  lemma {:induction false} StagesOfConstant(tab: Tableau, f: Derivative, c: Vector, nodes: seq<real>, dt: real, y: Vector, m: Vector, n: nat)
    requires WellFormed(tab) && |nodes| == |tab.c| && n <= |tab.c|
    requires ConstantOn(f, c) && |y| == |c|
    ensures forall j :: 0 <= j < n ==> Stages(tab, f, nodes, dt, y, m, n)[j] == Scale(dt, c)
  {
    if n > 0 {
      StagesOfConstant(tab, f, c, nodes, dt, y, m, n - 1);
      var ks := Stages(tab, f, nodes, dt, y, m, n - 1);
      ConstantAt(f, c, nodes[n - 1], Accumulate(y, tab.a[n - 1], ks, n - 1), m);
    }
  }

  /** Whatever the stage times, a derivative that is constant `c` moves the
      state by `Sum(b) * dt * c`. */
  lemma ConstantDerivative(tab: Tableau, f: Derivative, c: Vector, nodes: seq<real>, dt: real, y: Vector, m: Vector)
    requires WellFormed(tab) && |nodes| == |tab.c|
    requires ConstantOn(f, c) && |y| == |c|
    ensures RungeKuttaAt(tab, f, nodes, dt, y, m) == Add(y, Scale(Sum(tab.b) * dt, c))
  {
    var ks := Stages(tab, f, nodes, dt, y, m, |tab.c|);
    StagesOfConstant(tab, f, c, nodes, dt, y, m, |tab.c|);
    AccumulateOfEqual(y, tab.b, ks, Scale(dt, c), |tab.c|);
    var lhs, rhs := Add(y, Scale(Sum(tab.b), Scale(dt, c))), Add(y, Scale(Sum(tab.b) * dt, c));
    forall i | 0 <= i < |y|
      ensures lhs[i] == rhs[i]
    {
      assert Sum(tab.b) * (dt * c[i]) == Sum(tab.b) * dt * c[i];
    }
  }

  /** With weights adding up to 1 a constant derivative is integrated exactly. */
  lemma ConstantDerivativeExact(tab: Tableau, f: Derivative, c: Vector, nodes: seq<real>, dt: real, y: Vector, m: Vector)
    requires WellFormed(tab) && |nodes| == |tab.c| && Sum(tab.b) == 1.0
    requires ConstantOn(f, c) && |y| == |c|
    ensures RungeKuttaAt(tab, f, nodes, dt, y, m) == Add(y, Scale(dt, c))
  {
    ConstantDerivative(tab, f, c, nodes, dt, y, m);
    assert Scale(1.0 * dt, c) == Scale(dt, c);
  }

  lemma {:induction false} StagesOfZeroStep(tab: Tableau, f: Derivative, nodes: seq<real>, y: Vector, m: Vector, n: nat)
    requires WellFormed(tab) && |nodes| == |tab.c| && n <= |tab.c|
    ensures forall j :: 0 <= j < n ==> Stages(tab, f, nodes, 0.0, y, m, n)[j] == Zero(|y|)
  {
    if n > 0 {
      StagesOfZeroStep(tab, f, nodes, y, m, n - 1);
    }
  }

  /** A step of length zero returns the state unchanged. */
  lemma ZeroStep(tab: Tableau, f: Derivative, nodes: seq<real>, y: Vector, m: Vector)
    requires WellFormed(tab) && |nodes| == |tab.c|
    ensures RungeKuttaAt(tab, f, nodes, 0.0, y, m) == y
  {
    var ks := Stages(tab, f, nodes, 0.0, y, m, |tab.c|);
    StagesOfZeroStep(tab, f, nodes, y, m, |tab.c|);
    AccumulateOfEqual(y, tab.b, ks, Zero(|y|), |tab.c|);
    assert Add(y, Scale(Sum(tab.b), Zero(|y|))) == y;
  }
}
