/** The fixed-step time integrators of integrators/time_integrator.py.

    Each `simulate_step` of the source is a function here that takes what the
    method reads from its object as parameters: the derivative `f` (the
    `diff_eq` field), the current `time`, the `time_step` and, for the
    multistep scheme, the history `y_vec_arr`. The object itself, with its
    clock and its setters, is the class `TimeIntegrator` at the end. */
module TimeIntegrators {
  import opened OdeVectors
  import opened RungeKutta
  import opened Wrappers

  // ----- Forward Euler (lines 31-39) -----

  function ForwardEulerStep(f: Derivative, t: real, dt: real, y: Vector, m: Vector): (r: Vector)
    ensures |r| == |y|
  {
    Add(y, Scale(dt, f(t, y, m)))
  }

  const EulerTableau := Tableau([0.0], [[]], [1.0])

  /** Forward Euler is the one-stage method evaluated at `(t, y)` with weight 1. */
  lemma ForwardEulerMatchesTableau(f: Derivative, t: real, dt: real, y: Vector, m: Vector)
    ensures WellFormed(EulerTableau) && Sum(EulerTableau.b) == 1.0
    ensures ForwardEulerStep(f, t, dt, y, m) == ExplicitRungeKutta(EulerTableau, f, t, dt, y, m)
  {
    var tab := EulerTableau;
    var nodes := Nodes(tab.c, t, dt);
    var ks := [Scale(dt, f(t, y, m))];
    assert nodes == [t];
    assert SolvesStages(tab, f, nodes, dt, y, m, ks);
    RungeKuttaFromStages(tab, f, nodes, dt, y, m, ks);
    assert Accumulate(y, tab.b, ks, 1) == Add(y, Scale(1.0, ks[0]));
  }

  // ----- Classical Runge-Kutta (lines 42-55) -----

  /** The four increments of lines 50-53. */
  function ClassicalIncrements(f: Derivative, t: real, dt: real, y: Vector, m: Vector): (ks: seq<Vector>)
    ensures |ks| == 4 && forall j :: 0 <= j < 4 ==> |ks[j]| == |y|
  {
    var k1 := Scale(dt, f(t, y, m));
    var k2 := Scale(dt, f(t + 0.5 * dt, Add(y, Scale(0.5, k1)), m));
    var k3 := Scale(dt, f(t + 0.5 * dt, Add(y, Scale(0.5, k2)), m));
    var k4 := Scale(dt, f(t + dt, Add(y, k3), m));
    [k1, k2, k3, k4]
  }

  function RungeKutta4Step(f: Derivative, t: real, dt: real, y: Vector, m: Vector): (r: Vector)
    ensures |r| == |y|
  {
    var ks := ClassicalIncrements(f, t, dt, y, m);
    Add(y, Div(Add(Add(Add(ks[0], Scale(2.0, ks[1])), Scale(2.0, ks[2])), ks[3]), 6.0))
  }

  const ClassicalTableau := Tableau(
    [0.0, 0.5, 0.5, 1.0],
    [[], [0.5], [0.0, 0.5], [0.0, 0.0, 1.0]],
    [1.0 / 6.0, 2.0 / 6.0, 2.0 / 6.0, 1.0 / 6.0])

  /** The source's RK4 step is the classical tableau: stages at `t`, `t+dt/2`,
      `t+dt/2`, `t+dt` from `y`, `y+k1/2`, `y+k2/2`, `y+k3`, weights (1,2,2,1)/6. */
  lemma RungeKutta4MatchesTableau(f: Derivative, t: real, dt: real, y: Vector, m: Vector)
    ensures WellFormed(ClassicalTableau) && Sum(ClassicalTableau.b) == 1.0
    ensures RowSumsAreNodes(ClassicalTableau)
    ensures RungeKutta4Step(f, t, dt, y, m) == ExplicitRungeKutta(ClassicalTableau, f, t, dt, y, m)
  {
    var tab := ClassicalTableau;
    var ks := ClassicalIncrements(f, t, dt, y, m);
    ClassicalIncrementsSolveStages(f, t, dt, y, m);
    RungeKuttaFromStages(tab, f, Nodes(tab.c, t, dt), dt, y, m, ks);
    ClassicalWeights(y, ks);
  }

  lemma ClassicalIncrementsSolveStages(f: Derivative, t: real, dt: real, y: Vector, m: Vector)
    ensures SolvesStages(ClassicalTableau, f, Nodes(ClassicalTableau.c, t, dt), dt, y, m, ClassicalIncrements(f, t, dt, y, m))
  {
    var ks := ClassicalIncrements(f, t, dt, y, m);
    assert Nodes(ClassicalTableau.c, t, dt) == [t, t + 0.5 * dt, t + 0.5 * dt, t + dt];
    ClassicalStageStates(y, ks);
  }

  lemma ClassicalStageStates(y: Vector, ks: seq<Vector>)
    requires |ks| == 4 && forall j :: 0 <= j < 4 ==> |ks[j]| == |y|
    ensures Accumulate(y, ClassicalTableau.a[1], ks, 1) == Add(y, Scale(0.5, ks[0]))
    ensures Accumulate(y, ClassicalTableau.a[2], ks, 2) == Add(y, Scale(0.5, ks[1]))
    ensures Accumulate(y, ClassicalTableau.a[3], ks, 3) == Add(y, ks[2])
  {
    var tab := ClassicalTableau;
    var s2 := Accumulate(y, tab.a[2], ks, 2);
    assert Accumulate(y, tab.a[2], ks, 1) == Add(y, Scale(0.0, ks[0]));
    assert s2 == Add(Add(y, Scale(0.0, ks[0])), Scale(0.5, ks[1]));
    assert forall i | 0 <= i < |y| :: s2[i] == Add(y, Scale(0.5, ks[1]))[i];
    var s3 := Accumulate(y, tab.a[3], ks, 3);
    assert Accumulate(y, tab.a[3], ks, 1) == Add(y, Scale(0.0, ks[0]));
    assert Accumulate(y, tab.a[3], ks, 2) == Add(Add(y, Scale(0.0, ks[0])), Scale(0.0, ks[1]));
    assert s3 == Add(Add(Add(y, Scale(0.0, ks[0])), Scale(0.0, ks[1])), Scale(1.0, ks[2]));
    assert forall i | 0 <= i < |y| :: s3[i] == Add(y, ks[2])[i];
  }

  lemma ClassicalWeights(y: Vector, ks: seq<Vector>)
    requires |ks| == 4 && forall j :: 0 <= j < 4 ==> |ks[j]| == |y|
    ensures Accumulate(y, ClassicalTableau.b, ks, 4)
         == Add(y, Div(Add(Add(Add(ks[0], Scale(2.0, ks[1])), Scale(2.0, ks[2])), ks[3]), 6.0))
  {
    var tab := ClassicalTableau;
    var r := Accumulate(y, tab.b, ks, 4);
    assert Accumulate(y, tab.b, ks, 1) == Add(y, Scale(tab.b[0], ks[0]));
    assert Accumulate(y, tab.b, ks, 2) == Add(Accumulate(y, tab.b, ks, 1), Scale(tab.b[1], ks[1]));
    assert Accumulate(y, tab.b, ks, 3) == Add(Accumulate(y, tab.b, ks, 2), Scale(tab.b[2], ks[2]));
    assert r == Add(Add(Add(Add(y, Scale(tab.b[0], ks[0])), Scale(tab.b[1], ks[1])), Scale(tab.b[2], ks[2])), Scale(tab.b[3], ks[3]));
    var hand := Add(y, Div(Add(Add(Add(ks[0], Scale(2.0, ks[1])), Scale(2.0, ks[2])), ks[3]), 6.0));
    assert forall i | 0 <= i < |y| :: r[i] == hand[i];
  }

  // ----- Runge-Kutta 3/8 rule (lines 83-96) -----

  /** The four increments of lines 91-94. */
  function ThreeEighthsIncrements(f: Derivative, t: real, dt: real, y: Vector, m: Vector): (ks: seq<Vector>)
    ensures |ks| == 4 && forall j :: 0 <= j < 4 ==> |ks[j]| == |y|
  {
    var k1 := Scale(dt, f(t, y, m));
    var k2 := Scale(dt, f(t + (1.0 / 3.0) * dt, Add(y, Scale(1.0 / 3.0, k1)), m));
    var k3 := Scale(dt, f(t + (2.0 / 3.0) * dt, Add(Sub(y, Scale(1.0 / 3.0, k1)), k2), m));
    var k4 := Scale(dt, f(t + dt, Add(Sub(Add(y, k1), k2), k3), m));
    [k1, k2, k3, k4]
  }

  function RungeKutta3dash8Step(f: Derivative, t: real, dt: real, y: Vector, m: Vector): (r: Vector)
    ensures |r| == |y|
  {
    var ks := ThreeEighthsIncrements(f, t, dt, y, m);
    Add(y, Div(Add(Add(Add(ks[0], Scale(3.0, ks[1])), Scale(3.0, ks[2])), ks[3]), 8.0))
  }

  const ThreeEighthsTableau := Tableau(
    [0.0, 1.0 / 3.0, 2.0 / 3.0, 1.0],
    [[], [1.0 / 3.0], [-1.0 / 3.0, 1.0], [1.0, -1.0, 1.0]],
    [1.0 / 8.0, 3.0 / 8.0, 3.0 / 8.0, 1.0 / 8.0])

  /** The source's 3/8 step: stages at `t`, `t+dt/3`, `t+2dt/3`, `t+dt` from
      `y`, `y+k1/3`, `y-k1/3+k2`, `y+k1-k2+k3`, weights (1,3,3,1)/8. */
  lemma RungeKutta3dash8MatchesTableau(f: Derivative, t: real, dt: real, y: Vector, m: Vector)
    ensures WellFormed(ThreeEighthsTableau) && Sum(ThreeEighthsTableau.b) == 1.0
    ensures RowSumsAreNodes(ThreeEighthsTableau)
    ensures RungeKutta3dash8Step(f, t, dt, y, m) == ExplicitRungeKutta(ThreeEighthsTableau, f, t, dt, y, m)
  {
    var tab := ThreeEighthsTableau;
    var ks := ThreeEighthsIncrements(f, t, dt, y, m);
    ThreeEighthsIncrementsSolveStages(f, t, dt, y, m);
    RungeKuttaFromStages(tab, f, Nodes(tab.c, t, dt), dt, y, m, ks);
    ThreeEighthsWeights(y, ks);
  }

  lemma ThreeEighthsIncrementsSolveStages(f: Derivative, t: real, dt: real, y: Vector, m: Vector)
    ensures SolvesStages(ThreeEighthsTableau, f, Nodes(ThreeEighthsTableau.c, t, dt), dt, y, m, ThreeEighthsIncrements(f, t, dt, y, m))
  {
    var ks := ThreeEighthsIncrements(f, t, dt, y, m);
    assert Nodes(ThreeEighthsTableau.c, t, dt) == [t, t + (1.0 / 3.0) * dt, t + (2.0 / 3.0) * dt, t + dt];
    ThreeEighthsStageStates(y, ks);
  }

  lemma ThreeEighthsStageStates(y: Vector, ks: seq<Vector>)
    requires |ks| == 4 && forall j :: 0 <= j < 4 ==> |ks[j]| == |y|
    ensures Accumulate(y, ThreeEighthsTableau.a[1], ks, 1) == Add(y, Scale(1.0 / 3.0, ks[0]))
    ensures Accumulate(y, ThreeEighthsTableau.a[2], ks, 2) == Add(Sub(y, Scale(1.0 / 3.0, ks[0])), ks[1])
    ensures Accumulate(y, ThreeEighthsTableau.a[3], ks, 3) == Add(Sub(Add(y, ks[0]), ks[1]), ks[2])
  {
    var tab := ThreeEighthsTableau;
    var s2 := Accumulate(y, tab.a[2], ks, 2);
    assert Accumulate(y, tab.a[2], ks, 1) == Add(y, Scale(-1.0 / 3.0, ks[0]));
    var hand2 := Add(Sub(y, Scale(1.0 / 3.0, ks[0])), ks[1]);
    assert forall i | 0 <= i < |y| :: s2[i] == hand2[i];
    var s3 := Accumulate(y, tab.a[3], ks, 3);
    assert Accumulate(y, tab.a[3], ks, 1) == Add(y, Scale(1.0, ks[0]));
    assert Accumulate(y, tab.a[3], ks, 2) == Add(Add(y, Scale(1.0, ks[0])), Scale(-1.0, ks[1]));
    var hand3 := Add(Sub(Add(y, ks[0]), ks[1]), ks[2]);
    assert forall i | 0 <= i < |y| :: s3[i] == hand3[i];
  }

  lemma ThreeEighthsWeights(y: Vector, ks: seq<Vector>)
    requires |ks| == 4 && forall j :: 0 <= j < 4 ==> |ks[j]| == |y|
    ensures Accumulate(y, ThreeEighthsTableau.b, ks, 4)
         == Add(y, Div(Add(Add(Add(ks[0], Scale(3.0, ks[1])), Scale(3.0, ks[2])), ks[3]), 8.0))
  {
    var tab := ThreeEighthsTableau;
    var r := Accumulate(y, tab.b, ks, 4);
    assert Accumulate(y, tab.b, ks, 1) == Add(y, Scale(tab.b[0], ks[0]));
    assert Accumulate(y, tab.b, ks, 2) == Add(Accumulate(y, tab.b, ks, 1), Scale(tab.b[1], ks[1]));
    assert Accumulate(y, tab.b, ks, 3) == Add(Accumulate(y, tab.b, ks, 2), Scale(tab.b[2], ks[2]));
    var hand := Add(y, Div(Add(Add(Add(ks[0], Scale(3.0, ks[1])), Scale(3.0, ks[2])), ks[3]), 8.0));
    assert forall i | 0 <= i < |y| :: r[i] == hand[i];
  }

  // ----- Runge-Kutta-Fehlberg (lines 99-114) -----

  /** Lines 107-114 with the time of the second derivative call as a
      parameter: every other stage time, every stage state and the final
      weights are those of the source. */
  function FehlbergIncrements(f: Derivative, t: real, t2: real, dt: real, y: Vector, m: Vector): (ks: seq<Vector>)
    ensures |ks| == 6 && forall j :: 0 <= j < 6 ==> |ks[j]| == |y|
  {
    var k1 := Scale(dt, f(t, y, m));
    var k2 := Scale(dt, f(t2, Add(y, Scale(1.0 / 4.0, k1)), m));
    var k3 := Scale(dt, f(t + (3.0 / 8.0) * dt, Add(Add(y, Scale(3.0 / 32.0, k1)), Scale(9.0 / 32.0, k2)), m));
    var k4 := Scale(dt, f(t + (12.0 / 13.0) * dt,
      Add(Add(Add(y, Scale(1932.0 / 2197.0, k1)), Scale(-7200.0 / 2197.0, k2)), Scale(7296.0 / 2197.0, k3)), m));
    var k5 := Scale(dt, f(t + dt,
      Add(Add(Add(Add(y, Scale(439.0 / 216.0, k1)), Scale(-8.0, k2)), Scale(3680.0 / 513.0, k3)), Scale(-845.0 / 4104.0, k4)), m));
    var k6 := Scale(dt, f(t + 0.5 * dt,
      Add(Add(Add(Add(Add(y, Scale(-8.0 / 27.0, k1)), Scale(2.0, k2)), Scale(-3544.0 / 2565.0, k3)), Scale(1859.0 / 4104.0, k4)), Scale(-11.0 / 40.0, k5)), m));
    [k1, k2, k3, k4, k5, k6]
  }

  /** Lines 107-114 with the time of the second derivative call as a
      parameter: every other stage time, every stage state and the final
      weights are those of the source. */
  function FehlbergWithStageTwoAt(f: Derivative, t: real, t2: real, dt: real, y: Vector, m: Vector): (r: Vector)
    ensures |r| == |y|
  {
    var ks := FehlbergIncrements(f, t, t2, dt, y, m);
    Add(y, Add(Add(Add(Add(Scale(16.0 / 135.0, ks[0]), Scale(6656.0 / 12825.0, ks[2])), Scale(28561.0 / 56430.0, ks[3])), Scale(-9.0 / 50.0, ks[4])), Scale(2.0 / 55.0, ks[5])))
  }

  /** The source's step as written: line 108 calls the derivative at
      `time * (1/4) * time_step`, a product. */
  function RungeKuttaFehlbergStep(f: Derivative, t: real, dt: real, y: Vector, m: Vector): (r: Vector)
    ensures |r| == |y|
  {
    FehlbergWithStageTwoAt(f, t, t * (1.0 / 4.0) * dt, dt, y, m)
  }

  /** The step with the second stage at `time + (1/4) * time_step`, the node of
      the Runge-Kutta-Fehlberg tableau. */
  function RungeKuttaFehlbergCanonicalStep(f: Derivative, t: real, dt: real, y: Vector, m: Vector): (r: Vector)
    ensures |r| == |y|
  {
    FehlbergWithStageTwoAt(f, t, t + (1.0 / 4.0) * dt, dt, y, m)
  }

  const FehlbergTableau := Tableau(
    [0.0, 1.0 / 4.0, 3.0 / 8.0, 12.0 / 13.0, 1.0, 1.0 / 2.0],
    [[],
     [1.0 / 4.0],
     [3.0 / 32.0, 9.0 / 32.0],
     [1932.0 / 2197.0, -7200.0 / 2197.0, 7296.0 / 2197.0],
     [439.0 / 216.0, -8.0, 3680.0 / 513.0, -845.0 / 4104.0],
     [-8.0 / 27.0, 2.0, -3544.0 / 2565.0, 1859.0 / 4104.0, -11.0 / 40.0]],
    [16.0 / 135.0, 0.0, 6656.0 / 12825.0, 28561.0 / 56430.0, -9.0 / 50.0, 2.0 / 55.0])

  /** The stage times the source feeds to the derivative, stage 2 at `t2`. */
  function FehlbergNodes(t: real, t2: real, dt: real): (ts: seq<real>)
    ensures |ts| == |FehlbergTableau.c|
  {
    Nodes(FehlbergTableau.c, t, dt)[1 := t2]
  }

  /** Whatever the time of its second call, the Fehlberg code is the
      Runge-Kutta-Fehlberg tableau (fifth-order weights, `k2` weighted 0)
      with the tableau's stage times everywhere else. */
  lemma FehlbergMatchesTableau(f: Derivative, t: real, t2: real, dt: real, y: Vector, m: Vector)
    ensures WellFormed(FehlbergTableau) && Sum(FehlbergTableau.b) == 1.0
    ensures RowSumsAreNodes(FehlbergTableau)
    ensures FehlbergWithStageTwoAt(f, t, t2, dt, y, m) == RungeKuttaAt(FehlbergTableau, f, FehlbergNodes(t, t2, dt), dt, y, m)
  {
    FehlbergCoefficients();
    var tab := FehlbergTableau;
    var ks := FehlbergIncrements(f, t, t2, dt, y, m);
    FehlbergIncrementsSolveStages(f, t, t2, dt, y, m);
    RungeKuttaFromStages(tab, f, FehlbergNodes(t, t2, dt), dt, y, m, ks);
    FehlbergWeights(y, ks);
  }

  lemma FehlbergIncrementsSolveStages(f: Derivative, t: real, t2: real, dt: real, y: Vector, m: Vector)
    ensures SolvesStages(FehlbergTableau, f, FehlbergNodes(t, t2, dt), dt, y, m, FehlbergIncrements(f, t, t2, dt, y, m))
  {
    var ks := FehlbergIncrements(f, t, t2, dt, y, m);
    assert FehlbergNodes(t, t2, dt) == [t, t2, t + (3.0 / 8.0) * dt, t + (12.0 / 13.0) * dt, t + dt, t + 0.5 * dt];
    FehlbergStageStates(y, ks);
  }

  lemma FehlbergCoefficients()
    ensures WellFormed(FehlbergTableau) && Sum(FehlbergTableau.b) == 1.0
    ensures RowSumsAreNodes(FehlbergTableau)
  {
    var tab := FehlbergTableau;
    assert Sum(tab.a[5]) == SumUpTo(tab.a[5], 4) + tab.a[5][4];
    assert SumUpTo(tab.b, 3) == SumUpTo(tab.b, 2) + tab.b[2];
    assert SumUpTo(tab.b, 4) == SumUpTo(tab.b, 3) + tab.b[3];
    assert SumUpTo(tab.b, 5) == SumUpTo(tab.b, 4) + tab.b[4];
  }

  lemma FehlbergStageStates(y: Vector, ks: seq<Vector>)
    requires |ks| == 6 && forall j :: 0 <= j < 6 ==> |ks[j]| == |y|
    ensures Accumulate(y, FehlbergTableau.a[1], ks, 1) == Add(y, Scale(1.0 / 4.0, ks[0]))
    ensures Accumulate(y, FehlbergTableau.a[2], ks, 2) == Add(Add(y, Scale(3.0 / 32.0, ks[0])), Scale(9.0 / 32.0, ks[1]))
    ensures Accumulate(y, FehlbergTableau.a[3], ks, 3)
         == Add(Add(Add(y, Scale(1932.0 / 2197.0, ks[0])), Scale(-7200.0 / 2197.0, ks[1])), Scale(7296.0 / 2197.0, ks[2]))
    ensures Accumulate(y, FehlbergTableau.a[4], ks, 4)
         == Add(Add(Add(Add(y, Scale(439.0 / 216.0, ks[0])), Scale(-8.0, ks[1])), Scale(3680.0 / 513.0, ks[2])), Scale(-845.0 / 4104.0, ks[3]))
    ensures Accumulate(y, FehlbergTableau.a[5], ks, 5)
         == Add(Add(Add(Add(Add(y, Scale(-8.0 / 27.0, ks[0])), Scale(2.0, ks[1])), Scale(-3544.0 / 2565.0, ks[2])), Scale(1859.0 / 4104.0, ks[3])), Scale(-11.0 / 40.0, ks[4]))
  {
    var a := FehlbergTableau.a;
    assert Accumulate(y, a[2], ks, 1) == Add(y, Scale(a[2][0], ks[0]));
    assert Accumulate(y, a[3], ks, 1) == Add(y, Scale(a[3][0], ks[0]));
    assert Accumulate(y, a[4], ks, 1) == Add(y, Scale(a[4][0], ks[0]));
    assert Accumulate(y, a[4], ks, 2) == Add(Accumulate(y, a[4], ks, 1), Scale(a[4][1], ks[1]));
    assert Accumulate(y, a[5], ks, 1) == Add(y, Scale(a[5][0], ks[0]));
    assert Accumulate(y, a[5], ks, 2) == Add(Accumulate(y, a[5], ks, 1), Scale(a[5][1], ks[1]));
    assert Accumulate(y, a[5], ks, 3) == Add(Accumulate(y, a[5], ks, 2), Scale(a[5][2], ks[2]));
  }

  lemma FehlbergWeights(y: Vector, ks: seq<Vector>)
    requires |ks| == 6 && forall j :: 0 <= j < 6 ==> |ks[j]| == |y|
    ensures Accumulate(y, FehlbergTableau.b, ks, 6)
         == Add(y, Add(Add(Add(Add(Scale(16.0 / 135.0, ks[0]), Scale(6656.0 / 12825.0, ks[2])),
              Scale(28561.0 / 56430.0, ks[3])), Scale(-9.0 / 50.0, ks[4])), Scale(2.0 / 55.0, ks[5])))
  {
    var b := FehlbergTableau.b;
    assert Accumulate(y, b, ks, 1) == Add(y, Scale(b[0], ks[0]));
    assert Accumulate(y, b, ks, 2) == Add(Accumulate(y, b, ks, 1), Scale(b[1], ks[1]));
    assert Accumulate(y, b, ks, 3) == Add(Accumulate(y, b, ks, 2), Scale(b[2], ks[2]));
    assert Accumulate(y, b, ks, 4) == Add(Accumulate(y, b, ks, 3), Scale(b[3], ks[3]));
    assert Accumulate(y, b, ks, 5) == Add(Accumulate(y, b, ks, 4), Scale(b[4], ks[4]));
    var r := Accumulate(y, b, ks, 6);
    var hand := Add(y, Add(Add(Add(Add(Scale(16.0 / 135.0, ks[0]), Scale(6656.0 / 12825.0, ks[2])),
              Scale(28561.0 / 56430.0, ks[3])), Scale(-9.0 / 50.0, ks[4])), Scale(2.0 / 55.0, ks[5])));
    assert forall i | 0 <= i < |y| :: r[i] == hand[i];
  }

  /** With the second stage at `time + time_step/4` the Fehlberg code is
      exactly the explicit method of the Runge-Kutta-Fehlberg tableau. */
  lemma FehlbergCanonicalIsTableau(f: Derivative, t: real, dt: real, y: Vector, m: Vector)
    ensures RungeKuttaFehlbergCanonicalStep(f, t, dt, y, m) == ExplicitRungeKutta(FehlbergTableau, f, t, dt, y, m)
  {
    FehlbergMatchesTableau(f, t, t + (1.0 / 4.0) * dt, dt, y, m);
    assert FehlbergNodes(t, t + (1.0 / 4.0) * dt, dt) == Nodes(FehlbergTableau.c, t, dt);
  }

  /** The stage times of the step as written are the tableau's exactly when
      `t * dt / 4 == t + dt / 4`; at `t = 0` the second stage is sampled at
      time 0, not at `dt / 4`. */
  lemma FehlbergStageTwoTime(t: real, dt: real)
    ensures FehlbergNodes(t, t * (1.0 / 4.0) * dt, dt) == Nodes(FehlbergTableau.c, t, dt)
        <==> t * (1.0 / 4.0) * dt == t + (1.0 / 4.0) * dt
    ensures t == 0.0 ==> FehlbergNodes(t, t * (1.0 / 4.0) * dt, dt)[1] == 0.0
    ensures t == 0.0 && dt != 0.0 ==> FehlbergNodes(t, t * (1.0 / 4.0) * dt, dt) != Nodes(FehlbergTableau.c, t, dt)
  {
    var asWritten, canonical := FehlbergNodes(t, t * (1.0 / 4.0) * dt, dt), Nodes(FehlbergTableau.c, t, dt);
    assert canonical[1] == t + (1.0 / 4.0) * dt;
    if t * (1.0 / 4.0) * dt == t + (1.0 / 4.0) * dt {
      assert forall i | 0 <= i < |asWritten| :: asWritten[i] == canonical[i];
    }
  }

  /** A derivative that is 1 at time 1/4, equals the state at time 3/8 and is
      0 elsewhere: from `t = 0`, `dt = 1`, `y = [0]` the step as written
      returns `[0]`, while the step at the tableau's stage times does not. */
  lemma FehlbergAsWrittenDiffers()
    ensures var f: Derivative := (t: real, y: Vector, m: Vector) =>
              seq(|y|, i requires 0 <= i < |y| => if t == 1.0 / 4.0 then 1.0 else if t == 3.0 / 8.0 then y[i] else 0.0);
            RungeKuttaFehlbergStep(f, 0.0, 1.0, [0.0], []) == [0.0]
            && RungeKuttaFehlbergCanonicalStep(f, 0.0, 1.0, [0.0], []) == [(6656.0 / 12825.0) * (9.0 / 32.0)]
  {
    var f: Derivative := (t: real, y: Vector, m: Vector) =>
      seq(|y|, i requires 0 <= i < |y| => if t == 1.0 / 4.0 then 1.0 else if t == 3.0 / 8.0 then y[i] else 0.0);
    var y := [0.0];
    var k1 := Scale(1.0, f(0.0, y, []));
    assert k1 == [0.0];
    // as written: the second stage runs at 0 * (1/4) * 1 == 0
    var k2 := Scale(1.0, f(0.0 * (1.0 / 4.0) * 1.0, Add(y, Scale(1.0 / 4.0, k1)), []));
    assert k2 == [0.0];
    var s3 := Add(Add(y, Scale(3.0 / 32.0, k1)), Scale(9.0 / 32.0, k2));
    assert s3 == [0.0];
    var k3 := Scale(1.0, f(0.0 + (3.0 / 8.0) * 1.0, s3, []));
    assert k3 == [0.0];
    // canonical: the second stage runs at 1/4
    var c2 := Scale(1.0, f(0.0 + (1.0 / 4.0) * 1.0, Add(y, Scale(1.0 / 4.0, k1)), []));
    assert c2 == [1.0];
    var c3state := Add(Add(y, Scale(3.0 / 32.0, k1)), Scale(9.0 / 32.0, c2));
    assert c3state == [9.0 / 32.0];
    var c3 := Scale(1.0, f(0.0 + (3.0 / 8.0) * 1.0, c3state, []));
    assert c3 == [9.0 / 32.0];
  }

  // ----- Two-step Adams-Bashforth (lines 117-131) -----

  /** The failures a step can raise: an attribute that was never set, or the
      `[-1]` index into an empty history. */
  datatype StepError = MissingAttribute(name: string) | IndexOutOfRange

  datatype Result<T> = Ok(value: T) | Err(error: StepError)

  /** One step given the history `y_vec_arr`: Forward Euler while the history
      holds one state, the two-step formula using its last entry otherwise. */
  function AdamsBashforthStep(f: Derivative, t: real, dt: real, history: seq<Vector>, y: Vector, m: Vector): (r: Result<Vector>)
    requires |history| >= 2 ==> |history[|history| - 1]| == |y|
    ensures |history| == 1 ==> r == Ok(ForwardEulerStep(f, t, dt, y, m))
    ensures |history| == 0 <==> r == Err(IndexOutOfRange)
    ensures r.Ok? ==> |r.value| == |y|
  {
    if |history| == 1 then
      Ok(Add(y, Scale(dt, f(t, y, m))))
    else if |history| == 0 then
      Err(IndexOutOfRange)
    else
      var dt1 := Scale((3.0 / 2.0) * dt, f(t, y, m));
      var dt0 := Scale((-1.0 / 2.0) * dt, f(t - dt, history[|history| - 1], m));
      Ok(Add(Add(y, dt1), dt0))
  }

  /** With two or more states of history the step is Forward Euler corrected by
      `dt/2` times the change of the derivative since the last state
      (`f(t - dt, history[last])`); no other history entry is read. */
  lemma AdamsBashforthCorrectsEuler(f: Derivative, t: real, dt: real, history: seq<Vector>, y: Vector, m: Vector)
    requires |history| >= 2 && |history[|history| - 1]| == |y|
    ensures AdamsBashforthStep(f, t, dt, history, y, m)
         == Ok(Add(ForwardEulerStep(f, t, dt, y, m), Scale(dt / 2.0, Sub(f(t, y, m), f(t - dt, history[|history| - 1], m)))))
  {
    var now, before := f(t, y, m), f(t - dt, history[|history| - 1], m);
    var lhs := AdamsBashforthStep(f, t, dt, history, y, m).value;
    var rhs := Add(ForwardEulerStep(f, t, dt, y, m), Scale(dt / 2.0, Sub(now, before)));
    forall i | 0 <= i < |y|
      ensures lhs[i] == rhs[i]
    {
      calc {
        lhs[i];
        y[i] + (3.0 / 2.0) * dt * now[i] + (-1.0 / 2.0) * dt * before[i];
        y[i] + dt * now[i] + (dt / 2.0) * (now[i] - before[i]);
        rhs[i];
      }
    }
    assert lhs == rhs;
  }

  /** Once the history is not empty, a constant derivative `c` gives `y + dt*c`
      on both branches. */
  lemma AdamsBashforthConstantDerivative(f: Derivative, c: Vector, t: real, dt: real, history: seq<Vector>, y: Vector, m: Vector)
    requires |history| >= 1 && ConstantOn(f, c) && |y| == |c|
    requires |history| >= 2 ==> |history[|history| - 1]| == |y|
    ensures AdamsBashforthStep(f, t, dt, history, y, m) == Ok(Add(y, Scale(dt, c)))
  {
    ConstantAt(f, c, t, y, m);
    if |history| >= 2 {
      ConstantAt(f, c, t - dt, history[|history| - 1], m);
      AdamsBashforthCorrectsEuler(f, t, dt, history, y, m);
      assert Scale(dt / 2.0, Sub(c, c)) == Zero(|y|);
      assert Add(ForwardEulerStep(f, t, dt, y, m), Zero(|y|)) == ForwardEulerStep(f, t, dt, y, m);
    }
  }

  // ----- Velocity Verlet (lines 58-80) -----

  /** The state is a sequence of blocks `x, y, z, vx, vy, vz`; offsets 0-2 of a
      block are a position, offsets 3-5 its velocity. */
  predicate IsPosition(k: int) { k % 6 < 3 }

  /** How far a position moves in one step from velocity `v` and
      acceleration `a` (lines 69-71). */
  function PositionShift(dt: real, v: real, a: real): real {
    dt * v + (0.5 * (dt * dt)) * a
  }

  /** How far a velocity moves from the accelerations at both ends of the
      step (lines 76-78). */
  function VelocityShift(dt: real, a1: real, a2: real): real {
    0.5 * dt * (a1 + a2)
  }

  /** The first loop (lines 68-71): each position moves by
      `dt*a[k] + (dt^2/2)*a[k+3]`, every velocity is kept. */
  function Drift(dt: real, y: Vector, a: Vector): (p: Vector)
    requires |y| % 6 == 0 && |a| == |y|
    ensures |p| == |y|
    ensures forall k :: 0 <= k < |y| && !IsPosition(k) ==> p[k] == y[k]
  {
    seq(|y|, k requires 0 <= k < |y| =>
      if IsPosition(k) then y[k] + PositionShift(dt, a[k], a[k + 3]) else y[k])
  }

  /** The second loop (lines 75-78): each velocity moves by
      `dt/2 * (a1[k] + a2[k])`, every position is kept. */
  function Kick(dt: real, p: Vector, a1: Vector, a2: Vector): (r: Vector)
    requires |p| % 6 == 0 && |a1| == |p| && |a2| == |p|
    ensures |r| == |p|
    ensures forall k :: 0 <= k < |p| && IsPosition(k) ==> r[k] == p[k]
  {
    seq(|p|, k requires 0 <= k < |p| =>
      if IsPosition(k) then p[k] else p[k] + VelocityShift(dt, a1[k], a2[k]))
  }

  /** The whole step: the derivative is sampled at `(t, y)` and then at
      `(t + dt, p)`, where `p` has the new positions and the old velocities. */
  function VelocityVerlet(f: Derivative, t: real, dt: real, y: Vector, m: Vector): (r: Vector)
    requires |y| % 6 == 0
    ensures |r| == |y|
  {
    var a1 := f(t, y, m);
    var p := Drift(dt, y, a1);
    Kick(dt, p, a1, f(t + dt, p, m))
  }

  /** The six offsets of a block that starts at `i`. */
  lemma BlockOffsets(i: int, n: int)
    requires 0 <= i < n && i % 6 == 0 && n % 6 == 0
    ensures i + 6 <= n
    ensures IsPosition(i) && IsPosition(i + 1) && IsPosition(i + 2)
    ensures !IsPosition(i + 3) && !IsPosition(i + 4) && !IsPosition(i + 5)
    ensures (i + 6) % 6 == 0
  {
  }

  /** Lines 65-80 on the caller's array: positions in one pass, velocities in
      a second pass, the array itself is the result. */
  method VelocityVerletInPlace(f: Derivative, t: real, dt: real, y: array<real>, m: Vector)
    requires y.Length % 6 == 0
    modifies y
    ensures y[..] == VelocityVerlet(f, t, dt, old(y[..]), m)
  {
    var dt1 := f(t, y[..], m);
    DriftInPlace(dt, y, dt1);
    var dt2 := f(t + dt, y[..], m);
    KickInPlace(dt, y, dt1, dt2);
  }

  /** The first loop: offsets 0-2 of each block, one block at a time. */
  method DriftInPlace(dt: real, y: array<real>, dt1: Vector)
    requires y.Length % 6 == 0 && |dt1| == y.Length
    modifies y
    ensures y[..] == Drift(dt, old(y[..]), dt1)
  {
    ghost var y0 := y[..];
    ghost var p := Drift(dt, y0, dt1);
    var i := 0;
    while i < y.Length
      invariant 0 <= i <= y.Length && i % 6 == 0
      invariant forall k :: 0 <= k < i ==> y[k] == p[k]
      invariant forall k :: i <= k < y.Length ==> y[k] == y0[k]
    {
      BlockOffsets(i, y.Length);
      y[i] := y[i] + PositionShift(dt, dt1[i], dt1[i + 3]);
      y[i + 1] := y[i + 1] + PositionShift(dt, dt1[i + 1], dt1[i + 4]);
      y[i + 2] := y[i + 2] + PositionShift(dt, dt1[i + 2], dt1[i + 5]);
      forall k | 0 <= k < i + 6
        ensures y[k] == p[k]
      {
        if i + 3 <= k < i + 6 {
          assert k == i + 3 || k == i + 4 || k == i + 5;
          assert y[k] == y0[k] == p[k];
        } else if i <= k {
          assert k == i || k == i + 1 || k == i + 2;
          assert p[k] == y0[k] + PositionShift(dt, dt1[k], dt1[k + 3]);
        }
      }
      i := i + 6;
    }
    assert y[..] == p;
  }

  /** The second loop: offsets 3-5 of each block, one block at a time. */
  method KickInPlace(dt: real, y: array<real>, dt1: Vector, dt2: Vector)
    requires y.Length % 6 == 0 && |dt1| == y.Length && |dt2| == y.Length
    modifies y
    ensures y[..] == Kick(dt, old(y[..]), dt1, dt2)
  {
    ghost var p := y[..];
    ghost var r := Kick(dt, p, dt1, dt2);
    var i := 0;
    while i < y.Length
      invariant 0 <= i <= y.Length && i % 6 == 0
      invariant forall k :: 0 <= k < i ==> y[k] == r[k]
      invariant forall k :: i <= k < y.Length ==> y[k] == p[k]
    {
      BlockOffsets(i, y.Length);
      y[i + 3] := y[i + 3] + VelocityShift(dt, dt1[i + 3], dt2[i + 3]);
      y[i + 4] := y[i + 4] + VelocityShift(dt, dt1[i + 4], dt2[i + 4]);
      y[i + 5] := y[i + 5] + VelocityShift(dt, dt1[i + 5], dt2[i + 5]);
      forall k | 0 <= k < i + 6
        ensures y[k] == r[k]
      {
        if i + 3 <= k {
          assert r[k] == p[k] + VelocityShift(dt, dt1[k], dt2[k]);
        } else if i <= k {
          assert k == i || k == i + 1 || k == i + 2;
          assert y[k] == p[k] == r[k];
        }
      }
      i := i + 6;
    }
    assert y[..] == r;
  }

  /** A constant derivative `(w, a)` (velocity part `w`, acceleration part `a`
      in each block): every velocity grows by exactly `dt*a`, every position by
      `dt*w + (dt^2/2)*a`. */
  lemma VelocityVerletConstantDerivative(f: Derivative, c: Vector, t: real, dt: real, y: Vector, m: Vector)
    requires |y| % 6 == 0 && ConstantOn(f, c) && |y| == |c|
    ensures forall k :: 0 <= k < |y| && IsPosition(k) ==>
      VelocityVerlet(f, t, dt, y, m)[k] == y[k] + dt * c[k] + (dt * dt / 2.0) * c[k + 3]
    ensures forall k :: 0 <= k < |y| && !IsPosition(k) ==>
      VelocityVerlet(f, t, dt, y, m)[k] == y[k] + dt * c[k]
  {
    ConstantAt(f, c, t, y, m);
    ConstantAt(f, c, t + dt, Drift(dt, y, c), m);
    assert VelocityVerlet(f, t, dt, y, m) == Kick(dt, Drift(dt, y, c), c, c);
    DriftKickConstant(dt, y, c);
  }

  /** One Verlet step under a constant acceleration field `c`, slot by slot. */
  lemma DriftKickConstant(dt: real, y: Vector, c: Vector)
    requires |y| % 6 == 0 && |y| == |c|
    ensures forall k :: 0 <= k < |y| && IsPosition(k) ==>
      Kick(dt, Drift(dt, y, c), c, c)[k] == y[k] + dt * c[k] + (dt * dt / 2.0) * c[k + 3]
    ensures forall k :: 0 <= k < |y| && !IsPosition(k) ==>
      Kick(dt, Drift(dt, y, c), c, c)[k] == y[k] + dt * c[k]
  {
    forall k | 0 <= k < |y| && IsPosition(k)
      ensures Kick(dt, Drift(dt, y, c), c, c)[k] == y[k] + dt * c[k] + (dt * dt / 2.0) * c[k + 3]
    {
      DriftKickConstantPosition(dt, y, c, k);
    }
    forall k | 0 <= k < |y| && !IsPosition(k)
      ensures Kick(dt, Drift(dt, y, c), c, c)[k] == y[k] + dt * c[k]
    {
      DriftKickConstantVelocity(dt, y, c, k);
    }
  }

  lemma DriftKickConstantPosition(dt: real, y: Vector, c: Vector, k: int)
    requires |y| % 6 == 0 && |y| == |c| && 0 <= k < |y| && IsPosition(k)
    ensures Kick(dt, Drift(dt, y, c), c, c)[k] == y[k] + dt * c[k] + (dt * dt / 2.0) * c[k + 3]
  {
    var p := Drift(dt, y, c);
    assert Kick(dt, p, c, c)[k] == p[k] == y[k] + PositionShift(dt, c[k], c[k + 3]);
    PositionShiftValue(dt, c[k], c[k + 3]);
  }

  lemma DriftKickConstantVelocity(dt: real, y: Vector, c: Vector, k: int)
    requires |y| % 6 == 0 && |y| == |c| && 0 <= k < |y| && !IsPosition(k)
    ensures Kick(dt, Drift(dt, y, c), c, c)[k] == y[k] + dt * c[k]
  {
    var p := Drift(dt, y, c);
    assert Kick(dt, p, c, c)[k] == p[k] + VelocityShift(dt, c[k], c[k]) && p[k] == y[k];
    VelocityShiftOfEqual(dt, c[k]);
  }

  lemma PositionShiftValue(dt: real, v: real, a: real)
    ensures PositionShift(dt, v, a) == dt * v + (dt * dt / 2.0) * a
  {
  }

  lemma VelocityShiftOfEqual(dt: real, a: real)
    ensures VelocityShift(dt, a, a) == dt * a
  {
  }

  /** `f` returns, in each block, the block's own velocity and the fixed
      acceleration `g`: free motion under a uniform field. */
  ghost predicate UniformAcceleration(f: Derivative, g: Vector) {
    |g| % 6 == 0 && forall t, y, m :: |y| == |g| ==> f(t, y, m) == Motion(y, g)
  }

  function Motion(y: Vector, g: Vector): (d: Vector)
    requires |y| % 6 == 0 && |g| == |y|
    ensures |d| == |y|
  {
    seq(|y|, k requires 0 <= k < |y| => if IsPosition(k) then y[k + 3] else g[k])
  }

  lemma MotionAt(y: Vector, g: Vector, k: int)
    requires |y| % 6 == 0 && |g| == |y| && 0 <= k < |y|
    ensures IsPosition(k) ==> k + 3 < |y| && Motion(y, g)[k] == y[k + 3]
    ensures !IsPosition(k) ==> Motion(y, g)[k] == g[k]
  {
    if IsPosition(k) {
      PartnerSlot(k, |y|);
    }
  }

  /** Under a uniform acceleration the Verlet step is the exact motion:
      `x + dt*v + (dt^2/2)*g` and `v + dt*g`. */
  lemma VelocityVerletUniformAcceleration(f: Derivative, g: Vector, t: real, dt: real, y: Vector, m: Vector)
    requires |y| % 6 == 0 && |g| == |y| && UniformAcceleration(f, g)
    ensures forall k :: 0 <= k < |y| && IsPosition(k) ==>
      k + 3 < |y| && VelocityVerlet(f, t, dt, y, m)[k] == y[k] + dt * y[k + 3] + (dt * dt / 2.0) * g[k + 3]
    ensures forall k :: 0 <= k < |y| && !IsPosition(k) ==>
      VelocityVerlet(f, t, dt, y, m)[k] == y[k] + dt * g[k]
  {
    var a1 := Motion(y, g);
    var p := Drift(dt, y, a1);
    assert f(t, y, m) == a1;
    assert f(t + dt, p, m) == Motion(p, g);
    assert VelocityVerlet(f, t, dt, y, m) == Kick(dt, p, a1, Motion(p, g));
    DriftKickUniform(dt, y, g);
  }

  /** One Verlet step under free motion in the uniform field `g`, slot by slot. */
  lemma DriftKickUniform(dt: real, y: Vector, g: Vector)
    requires |y| % 6 == 0 && |g| == |y|
    ensures forall k :: 0 <= k < |y| && IsPosition(k) ==>
      k + 3 < |y| && UniformStep(dt, y, g)[k] == y[k] + dt * y[k + 3] + (dt * dt / 2.0) * g[k + 3]
    ensures forall k :: 0 <= k < |y| && !IsPosition(k) ==>
      UniformStep(dt, y, g)[k] == y[k] + dt * g[k]
  {
    forall k | 0 <= k < |y| && IsPosition(k)
      ensures k + 3 < |y| && UniformStep(dt, y, g)[k] == y[k] + dt * y[k + 3] + (dt * dt / 2.0) * g[k + 3]
    {
      DriftKickUniformPosition(dt, y, g, k);
    }
    forall k | 0 <= k < |y| && !IsPosition(k)
      ensures UniformStep(dt, y, g)[k] == y[k] + dt * g[k]
    {
      DriftKickUniformVelocity(dt, y, g, k);
    }
  }

  /** The Verlet step with `f = Motion(_, g)`, written without `f`. */
  function UniformStep(dt: real, y: Vector, g: Vector): (r: Vector)
    requires |y| % 6 == 0 && |g| == |y|
    ensures |r| == |y|
  {
    var p := Drift(dt, y, Motion(y, g));
    Kick(dt, p, Motion(y, g), Motion(p, g))
  }

  lemma DriftKickUniformPosition(dt: real, y: Vector, g: Vector, k: int)
    requires |y| % 6 == 0 && |g| == |y| && 0 <= k < |y| && IsPosition(k)
    ensures k + 3 < |y| && UniformStep(dt, y, g)[k] == y[k] + dt * y[k + 3] + (dt * dt / 2.0) * g[k + 3]
  {
    PartnerSlot(k, |y|);
    var a1 := Motion(y, g);
    var p := Drift(dt, y, a1);
    MotionAt(y, g, k);
    MotionAt(y, g, k + 3);
    assert UniformStep(dt, y, g)[k] == p[k] == y[k] + PositionShift(dt, y[k + 3], g[k + 3]);
    PositionShiftValue(dt, y[k + 3], g[k + 3]);
  }

  lemma DriftKickUniformVelocity(dt: real, y: Vector, g: Vector, k: int)
    requires |y| % 6 == 0 && |g| == |y| && 0 <= k < |y| && !IsPosition(k)
    ensures UniformStep(dt, y, g)[k] == y[k] + dt * g[k]
  {
    var a1 := Motion(y, g);
    var p := Drift(dt, y, a1);
    var a2 := Motion(p, g);
    MotionAt(y, g, k);
    MotionAt(p, g, k);
    assert UniformStep(dt, y, g)[k] == p[k] + VelocityShift(dt, g[k], g[k]) && p[k] == y[k];
    VelocityShiftOfEqual(dt, g[k]);
  }

  /** A position slot's velocity partner, three slots on, is in range. */
  lemma PartnerSlot(k: int, n: int)
    requires 0 <= k < n && n % 6 == 0 && IsPosition(k)
    ensures k + 3 < n && !IsPosition(k + 3)
  {
    assert k == 6 * (k / 6) + k % 6;
    assert n == 6 * (n / 6);
    assert k / 6 < n / 6;
  }



  // ----- The six schemes (lines 31-131) -----

  /** Which `TimeIntegrator` subclass an object is. */
  datatype Scheme =
    | ForwardEuler
    | RungeKutta4
    | VectorVerlet
    | RungeKutta3dash8
    | RungeKuttaFehlberg
    | TwoStepAdamsBashforth

  /** The schemes whose step reads nothing but the current state. */
  predicate IsSingleStage(s: Scheme) {
    s.ForwardEuler? || s.RungeKutta4? || s.RungeKutta3dash8? || s.RungeKuttaFehlberg?
  }

  function SingleStageStep(s: Scheme, f: Derivative, t: real, dt: real, y: Vector, m: Vector): (r: Vector)
    requires IsSingleStage(s)
    ensures |r| == |y|
  {
    if s.ForwardEuler? then ForwardEulerStep(f, t, dt, y, m)
    else if s.RungeKutta4? then RungeKutta4Step(f, t, dt, y, m)
    else if s.RungeKutta3dash8? then RungeKutta3dash8Step(f, t, dt, y, m)
    else RungeKuttaFehlbergStep(f, t, dt, y, m)
  }

  /** Each of these schemes is a tableau method with weights adding up to 1
      (Fehlberg with its second stage time as written), so each moves the
      state by exactly `dt*c` under a constant derivative `c`. */
  lemma SingleStageConstantDerivative(s: Scheme, f: Derivative, c: Vector, t: real, dt: real, y: Vector, m: Vector)
    requires IsSingleStage(s) && ConstantOn(f, c) && |y| == |c|
    ensures SingleStageStep(s, f, t, dt, y, m) == Add(y, Scale(dt, c))
  {
    match s
    case ForwardEuler =>
      ForwardEulerMatchesTableau(f, t, dt, y, m);
      ConstantDerivativeExact(EulerTableau, f, c, Nodes(EulerTableau.c, t, dt), dt, y, m);
    case RungeKutta4 =>
      RungeKutta4MatchesTableau(f, t, dt, y, m);
      ConstantDerivativeExact(ClassicalTableau, f, c, Nodes(ClassicalTableau.c, t, dt), dt, y, m);
    case RungeKutta3dash8 =>
      RungeKutta3dash8MatchesTableau(f, t, dt, y, m);
      ConstantDerivativeExact(ThreeEighthsTableau, f, c, Nodes(ThreeEighthsTableau.c, t, dt), dt, y, m);
    case RungeKuttaFehlberg =>
      var t2 := t * (1.0 / 4.0) * dt;
      FehlbergMatchesTableau(f, t, t2, dt, y, m);
      ConstantDerivativeExact(FehlbergTableau, f, c, FehlbergNodes(t, t2, dt), dt, y, m);
  }

  /** A step of length zero leaves the state as it is. */
  lemma SingleStageZeroStep(s: Scheme, f: Derivative, t: real, y: Vector, m: Vector)
    requires IsSingleStage(s)
    ensures SingleStageStep(s, f, t, 0.0, y, m) == y
  {
    match s
    case ForwardEuler =>
      ForwardEulerMatchesTableau(f, t, 0.0, y, m);
      ZeroStep(EulerTableau, f, Nodes(EulerTableau.c, t, 0.0), y, m);
    case RungeKutta4 =>
      RungeKutta4MatchesTableau(f, t, 0.0, y, m);
      ZeroStep(ClassicalTableau, f, Nodes(ClassicalTableau.c, t, 0.0), y, m);
    case RungeKutta3dash8 =>
      RungeKutta3dash8MatchesTableau(f, t, 0.0, y, m);
      ZeroStep(ThreeEighthsTableau, f, Nodes(ThreeEighthsTableau.c, t, 0.0), y, m);
    case RungeKuttaFehlberg =>
      var t2 := t * (1.0 / 4.0) * 0.0;
      FehlbergMatchesTableau(f, t, t2, 0.0, y, m);
      ZeroStep(FehlbergTableau, f, FehlbergNodes(t, t2, 0.0), y, m);
  }

  // ----- The clock (lines 26-28) -----

  /** The value of `time` after `n` calls of `update_time_step`. */
  function TimeAfter(dt: real, n: nat): real {
    if n == 0 then 0.0 else TimeAfter(dt, n - 1) + dt
  }

  lemma {:induction false} TimeAfterIsProduct(dt: real, n: nat)
    ensures TimeAfter(dt, n) == n as real * dt
  {
    if n > 0 {
      TimeAfterIsProduct(dt, n - 1);
    }
  }

  /** The number of calls of `update_time_step` that return true, for a
      positive step: the smallest count whose time reaches `runTime`. */
  function StepsToFinish(dt: real, runTime: real): (n: nat)
    requires dt > 0.0
  {
    if runTime <= 0.0 then 0
    else
      var q := runTime / dt;
      if q.Floor as real == q then q.Floor else q.Floor + 1
  }

  /** Call number `n` (counting from 1) returns true exactly when `n` is below
      `StepsToFinish`: the run continues for that many calls and then stops. */
  lemma ContinuesExactly(dt: real, runTime: real, n: nat)
    requires dt > 0.0 && n >= 1
    ensures TimeAfter(dt, n) < runTime <==> n < StepsToFinish(dt, runTime)
  {
    TimeAfterIsProduct(dt, n);
    if runTime > 0.0 {
      var q := runTime / dt;
      BelowQuotient(dt, n as real, runTime);
      BelowCeiling(q, n);
    }
  }

  lemma BelowQuotient(dt: real, x: real, r: real)
    requires dt > 0.0
    ensures x * dt < r <==> x < r / dt
  {
    assert r == (r / dt) * dt;
  }

  /** An integer lies below a positive real exactly when it lies below its
      ceiling. */
  lemma BelowCeiling(q: real, n: int)
    requires q > 0.0
    ensures n as real < q <==> n < (if q.Floor as real == q then q.Floor else q.Floor + 1)
  {
    var fl := q.Floor;
    if fl as real != q && n > fl {
      assert n as real >= fl as real + 1.0;
    }
  }

  /** With a non-negative step, once a call has returned false every later
      call returns false. */
  lemma StoppedStaysStopped(dt: real, runTime: real, n: nat, k: nat)
    requires dt >= 0.0 && TimeAfter(dt, n) >= runTime
    ensures TimeAfter(dt, n + k) >= runTime
  {
    TimeAfterIsProduct(dt, n);
    TimeAfterIsProduct(dt, n + k);
    assert (n + k) as real * dt == n as real * dt + k as real * dt;
  }

  // ----- The integrator object -----

  /** One integrator object. The attributes `diff_eq` and `y_vec_arr` do not
      exist until their setters run; reading them before raises
      `AttributeError`, modelled by `None`. */
  class TimeIntegrator {
    const scheme: Scheme
    const timeStep: real
    const runTime: real
    var time: real
    var diffEq: Option<Derivative>
    var yVecArr: Option<seq<Vector>>
    /** How many times `update_time_step` has run. */
    ghost var steps: nat

    ghost predicate Valid()
      reads this`time, this`steps
    {
      time == TimeAfter(timeStep, steps)
    }

    /** Every subclass's `__init__`: the clock starts at 0. */
    constructor (scheme: Scheme, timeStep: real, runTime: real)
      ensures this.scheme == scheme && this.timeStep == timeStep && this.runTime == runTime
      ensures time == 0.0 && steps == 0 && Valid()
      ensures diffEq.None? && yVecArr.None?
    {
      this.scheme := scheme;
      this.timeStep := timeStep;
      this.runTime := runTime;
      time := 0.0;
      steps := 0;
      diffEq := None;
      yVecArr := None;
    }

    method SetYVecArr(yVecArray: seq<Vector>)
      modifies this`yVecArr
      ensures yVecArr == Some(yVecArray)
    {
      yVecArr := Some(yVecArray);
    }

    method SetDiffEq(func: Derivative)
      modifies this`diffEq
      ensures diffEq == Some(func)
    {
      diffEq := Some(func);
    }

    /** Advances the clock by one step and reports whether the run goes on. */
    method UpdateTimeStep() returns (running: bool)
      requires Valid()
      modifies this`time, this`steps
      ensures time == old(time) + timeStep && steps == old(steps) + 1 && Valid()
      ensures running <==> time < runTime
      ensures timeStep > 0.0 ==> (running <==> steps < StepsToFinish(timeStep, runTime))
    {
      time := time + timeStep;
      steps := steps + 1;
      running := time < runTime;
      if timeStep > 0.0 {
        ContinuesExactly(timeStep, runTime, steps);
      }
    }

    /** The last history entry has the length of the state, when the
        two-step formula reads it. */
    predicate HistoryFits(y: Vector)
      reads this`yVecArr
    {
      scheme.TwoStepAdamsBashforth? && yVecArr.Some? && |yVecArr.value| >= 2 ==>
        |yVecArr.value[|yVecArr.value| - 1]| == |y|
    }

    /** What `simulate_step` returns or raises for the state `y`. */
    function StepOutcome(y: Vector, masses: Vector): (r: Result<Vector>)
      reads this`time, this`diffEq, this`yVecArr
      requires scheme.VectorVerlet? ==> |y| % 6 == 0
      requires HistoryFits(y)
      ensures r.Ok? ==> |r.value| == |y|
      ensures scheme.TwoStepAdamsBashforth? && yVecArr.None? ==> r == Err(MissingAttribute("y_vec_arr"))
      ensures !(scheme.TwoStepAdamsBashforth? && yVecArr.None?) && diffEq.None? ==> r == Err(MissingAttribute("diff_eq"))
      ensures r == Err(IndexOutOfRange) <==> scheme.TwoStepAdamsBashforth? && yVecArr == Some([]) && diffEq.Some?
      ensures r.Ok? <==> diffEq.Some? && (scheme.TwoStepAdamsBashforth? ==> yVecArr.Some? && |yVecArr.value| >= 1)
    {
      if scheme.TwoStepAdamsBashforth? && yVecArr.None? then Err(MissingAttribute("y_vec_arr"))
      else if diffEq.None? then Err(MissingAttribute("diff_eq"))
      else if scheme.VectorVerlet? then Ok(VelocityVerlet(diffEq.value, time, timeStep, y, masses))
      else if scheme.TwoStepAdamsBashforth? then AdamsBashforthStep(diffEq.value, time, timeStep, yVecArr.value, y, masses)
      else Ok(SingleStageStep(scheme, diffEq.value, time, timeStep, y, masses))
    }

    /** `simulate_step`: Verlet updates `y` in place and returns it; every
        other scheme leaves `y` alone and returns a new array. No scheme
        touches the clock. */
    method SimulateStep(y: array<real>, masses: Vector) returns (r: Result<array<real>>)
      requires scheme.VectorVerlet? ==> y.Length % 6 == 0
      requires HistoryFits(y[..])
      modifies y
      ensures StepOutcome(old(y[..]), masses).Err? ==>
        r == Err(StepOutcome(old(y[..]), masses).error) && y[..] == old(y[..])
      ensures StepOutcome(old(y[..]), masses).Ok? ==>
        r.Ok? && r.value[..] == StepOutcome(old(y[..]), masses).value
      ensures scheme.VectorVerlet? && r.Ok? ==> r.value == y
      ensures !scheme.VectorVerlet? ==> y[..] == old(y[..]) && (r.Ok? ==> fresh(r.value))
    {
      if scheme.TwoStepAdamsBashforth? && yVecArr.None? {
        return Err(MissingAttribute("y_vec_arr"));
      }
      if diffEq.None? {
        return Err(MissingAttribute("diff_eq"));
      }
      if scheme.VectorVerlet? {
        VelocityVerletInPlace(diffEq.value, time, timeStep, y, masses);
        return Ok(y);
      }
      var outcome := StepOutcome(y[..], masses);
      match outcome
      case Err(e) =>
        r := Err(e);
      case Ok(v) =>
        var a := new real[|v|](i requires 0 <= i < |v| => v[i]);
        r := Ok(a);
    }
  }
}
