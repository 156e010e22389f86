/** The fixed-step classical RK4 driver for the SIR equations
    (src/rk4_solver.py): one step, the state after t steps, the three
    output series, and the array-filling procedure itself. */
module Rk4Solver {
  import opened SirModel
  import Rk4Reference

  /** The step size; one simulated day. */
  const Dt: real := 1.0

  /** The point at which the second and third stages evaluate the rates:
      half a step along `k`. */
  function HalfStage(x: Triple, k: Triple): Triple {
    Triple(x.s + Dt * k.s / 2.0, x.i + Dt * k.i / 2.0, x.r + Dt * k.r / 2.0)
  }

  /** The point at which the fourth stage evaluates the rates: a full step
      along `k`. */
  function FullStage(x: Triple, k: Triple): Triple {
    Triple(x.s + Dt * k.s, x.i + Dt * k.i, x.r + Dt * k.r)
  }

  /** The update of all three compartments from the four stage rates. */
  function Update(x: Triple, k1: Triple, k2: Triple, k3: Triple, k4: Triple): Triple {
    Triple(
      x.s + Dt * (k1.s + 2.0 * k2.s + 2.0 * k3.s + k4.s) / 6.0,
      x.i + Dt * (k1.i + 2.0 * k2.i + 2.0 * k3.i + k4.i) / 6.0,
      x.r + Dt * (k1.r + 2.0 * k2.r + 2.0 * k3.r + k4.r) / 6.0)
  }

  /** One RK4 step from `x`, with the total population fixed at `n`, as the
      body of the driver's loop computes it. */
  function Step(p: Params, n: real, x: Triple): (y: Triple)
    requires n != 0.0
    ensures y.s + y.i + y.r == x.s + x.i + x.r
    ensures p.beta == 0.0 ==> y.s == x.s
    ensures p.gamma == 0.0 ==> y.r == x.r
    ensures x.i == 0.0 ==> y == x
  {
    var k1 := Derivative(x, n, p);
    var k2 := Derivative(HalfStage(x, k1), n, p);
    var k3 := Derivative(HalfStage(x, k2), n, p);
    var k4 := Derivative(FullStage(x, k3), n, p);
    Update(x, k1, k2, k3, k4)
  }

  /** The SIR vector field with beta, gamma and n fixed. */
  function Field(p: Params, n: real): Triple -> Triple
    requires n != 0.0
  {
    y => Derivative(y, n, p)
  }

  /** The driver's step is the textbook RK4 step of the SIR field with
      h = 1: all three compartments advance with one shared set of four
      stage evaluations. */
  lemma StepIsClassicalRk4(p: Params, n: real, x: Triple)
    requires n != 0.0
    ensures Step(p, n, x) == Rk4Reference.Rk4(Field(p, n), Dt, x)
  {
    var k1 := Derivative(x, n, p);
    HalfStageIsReference(x, k1);
    var k2 := Derivative(HalfStage(x, k1), n, p);
    HalfStageIsReference(x, k2);
    var k3 := Derivative(HalfStage(x, k2), n, p);
    FullStageIsReference(x, k3);
    var k4 := Derivative(FullStage(x, k3), n, p);
    UpdateIsReference(x, k1, k2, k3, k4);
  }

  // The three places where the driver's scalar arithmetic meets the vector
  // form of the reference step.

  lemma HalfStageIsReference(x: Triple, k: Triple)
    ensures Rk4Reference.Add(x, Rk4Reference.Scale(Dt / 2.0, k)) == HalfStage(x, k)
  {
  }

  lemma FullStageIsReference(x: Triple, k: Triple)
    ensures Rk4Reference.Add(x, Rk4Reference.Scale(Dt, k)) == FullStage(x, k)
  {
  }

  lemma UpdateIsReference(x: Triple, k1: Triple, k2: Triple, k3: Triple, k4: Triple)
    ensures Rk4Reference.Add(x, Rk4Reference.Scale(Dt / 6.0,
      Rk4Reference.Add(Rk4Reference.Add(k1, Rk4Reference.Scale(2.0, k2)),
                       Rk4Reference.Add(Rk4Reference.Scale(2.0, k3), k4)))) == Update(x, k1, k2, k3, k4)
  {
  }

  /** The loop body keeps S + I + R for the general reason: it is an RK4
      step of a field whose rates sum to zero. */
  lemma StepKeepsTotalByReference(p: Params, n: real, x: Triple)
    requires n != 0.0
    ensures var y := Step(p, n, x); y.s + y.i + y.r == x.s + x.i + x.r
  {
    StepIsClassicalRk4(p, n, x);
    Rk4Reference.Rk4KeepsTotal(Field(p, n), Dt, x);
  }

  /** The state after `t` steps from `x0`. Every step uses the same `n`,
      which is why S + I + R never moves, whatever nonzero `n` is. */
  function StateAt(p: Params, n: real, x0: Triple, t: nat): (x: Triple)
    requires t > 0 ==> n != 0.0
    ensures x.s + x.i + x.r == x0.s + x0.i + x0.r
  {
    if t == 0 then x0 else Step(p, n, StateAt(p, n, x0, t - 1))
  }

  /** The rows of a run: row t holds (S[t], I[t], R[t]). Row 0 is `x0` and
      each later row is one step from the row before, as the driver fills
      its buffers. `days = 1` runs no step, so `n` is used only from two
      days on. */
  function Simulate(p: Params, n: real, x0: Triple, days: nat): (rows: seq<Triple>)
    requires days >= 1
    requires days >= 2 ==> n != 0.0
    ensures |rows| == days
    ensures rows[0] == x0
    ensures forall t :: 0 <= t < days ==> rows[t] == StateAt(p, n, x0, t)
    ensures forall t :: 0 <= t < days ==> rows[t].s + rows[t].i + rows[t].r == x0.s + x0.i + x0.r
  {
    if days == 1 then
      [x0]
    else
      var prev := Simulate(p, n, x0, days - 1);
      prev + [Step(p, n, prev[days - 2])]
  }

  /** Row t + 1 depends on row t alone (with beta, gamma and n). */
  lemma SimulateIsMarkov(p: Params, n: real, x0: Triple, days: nat)
    requires days >= 1
    requires days >= 2 ==> n != 0.0
    ensures var rows := Simulate(p, n, x0, days);
      forall t :: 0 <= t < days - 1 ==> rows[t + 1] == Step(p, n, rows[t])
  {
  }

  /** Every row after the first is the classical RK4 step of the SIR field
      from the row before. */
  lemma SimulateIsRk4Iteration(p: Params, n: real, x0: Triple, days: nat)
    requires days >= 2
    requires n != 0.0
    ensures var rows := Simulate(p, n, x0, days);
      forall t :: 0 <= t < days - 1 ==> rows[t + 1] == Rk4Reference.Rk4(Field(p, n), Dt, rows[t])
  {
    var rows := Simulate(p, n, x0, days);
    forall t | 0 <= t < days - 1
      ensures rows[t + 1] == Rk4Reference.Rk4(Field(p, n), Dt, rows[t])
    {
      StepIsClassicalRk4(p, n, rows[t]);
    }
  }

  /** A shorter run is a prefix of a longer one with the same inputs. */
  lemma {:induction false} SimulatePrefix(p: Params, n: real, x0: Triple, m: nat, days: nat)
    requires 1 <= m <= days
    requires days >= 2 ==> n != 0.0
    ensures Simulate(p, n, x0, m) == Simulate(p, n, x0, days)[..m]
    decreases days - m
  {
    if m < days {
      SimulatePrefix(p, n, x0, m, days - 1);
      assert Simulate(p, n, x0, days)[..days - 1] == Simulate(p, n, x0, days - 1);
    }
  }

  /** Simulate is the only sequence of `days` rows whose row t is the
      state after t steps. */
  lemma SimulateIsUnique(p: Params, n: real, x0: Triple, days: nat, rows: seq<Triple>)
    requires days >= 1
    requires days >= 2 ==> n != 0.0
    requires |rows| == days
    requires forall t :: 0 <= t < days ==> rows[t] == StateAt(p, n, x0, t)
    ensures rows == Simulate(p, n, x0, days)
  {
  }

  lemma {:induction false} NoTransmissionAt(p: Params, n: real, x0: Triple, t: nat)
    requires t > 0 ==> n != 0.0
    requires p.beta == 0.0
    ensures StateAt(p, n, x0, t).s == x0.s
  {
    if t > 0 {
      NoTransmissionAt(p, n, x0, t - 1);
    }
  }

  lemma {:induction false} NoRecoveryAt(p: Params, n: real, x0: Triple, t: nat)
    requires t > 0 ==> n != 0.0
    requires p.gamma == 0.0
    ensures StateAt(p, n, x0, t).r == x0.r
  {
    if t > 0 {
      NoRecoveryAt(p, n, x0, t - 1);
    }
  }

  lemma {:induction false} NoInfectionAt(p: Params, n: real, x0: Triple, t: nat)
    requires t > 0 ==> n != 0.0
    requires x0.i == 0.0
    ensures StateAt(p, n, x0, t) == x0
  {
    if t > 0 {
      NoInfectionAt(p, n, x0, t - 1);
    }
  }

  /** beta = 0: the susceptible series is constant. */
  lemma SimulateNoTransmission(p: Params, n: real, x0: Triple, days: nat)
    requires days >= 1
    requires days >= 2 ==> n != 0.0
    requires p.beta == 0.0
    ensures forall t :: 0 <= t < days ==> Simulate(p, n, x0, days)[t].s == x0.s
  {
    forall t | 0 <= t < days
      ensures Simulate(p, n, x0, days)[t].s == x0.s
    {
      NoTransmissionAt(p, n, x0, t);
    }
  }

  /** gamma = 0: the recovered series is constant. */
  lemma SimulateNoRecovery(p: Params, n: real, x0: Triple, days: nat)
    requires days >= 1
    requires days >= 2 ==> n != 0.0
    requires p.gamma == 0.0
    ensures forall t :: 0 <= t < days ==> Simulate(p, n, x0, days)[t].r == x0.r
  {
    forall t | 0 <= t < days
      ensures Simulate(p, n, x0, days)[t].r == x0.r
    {
      NoRecoveryAt(p, n, x0, t);
    }
  }

  /** Nobody infected at the start: every row is the initial state. */
  lemma SimulateNoInfection(p: Params, n: real, x0: Triple, days: nat)
    requires days >= 1
    requires days >= 2 ==> n != 0.0
    requires x0.i == 0.0
    ensures forall t :: 0 <= t < days ==> Simulate(p, n, x0, days)[t] == x0
  {
    forall t | 0 <= t < days
      ensures Simulate(p, n, x0, days)[t] == x0
    {
      NoInfectionAt(p, n, x0, t);
    }
  }

  /** Under RK4 with a one-day step, beta >= 0 does not make S
      non-increasing: from a physical state with S, I >= 0 and N > 0, an
      intermediate stage overshoots below zero and S grows. The rate
      beta = 8 lies outside the range the app's sliders offer (app.py). */
  lemma StepCanIncreaseSusceptible()
    ensures var p, x := Params(8.0, 0.0), Triple(0.5, 0.5, 0.0);
      p.beta >= 0.0 && x.s >= 0.0 && x.i >= 0.0 && x.s + x.i + x.r > 0.0
      && Step(p, x.s + x.i + x.r, x).s > x.s
  {
    var p, x := Params(8.0, 0.0), Triple(0.5, 0.5, 0.0);
    assert Derivative(x, 1.0, p) == Triple(-2.0, 2.0, 0.0);
    assert Derivative(Triple(-0.5, 1.5, 0.0), 1.0, p) == Triple(6.0, -6.0, 0.0);
    assert Derivative(Triple(3.5, -2.5, 0.0), 1.0, p) == Triple(70.0, -70.0, 0.0);
    assert Derivative(Triple(70.5, -69.5, 0.0), 1.0, p) == Triple(39198.0, -39198.0, 0.0);
  }

  /** Under RK4 with a one-day step, gamma >= 0 does not make R
      non-decreasing either: a large gamma drives I negative at the second
      and fourth stages and R falls. The rate gamma = 3 lies outside the
      range the app's sliders offer (app.py). */
  lemma StepCanDecreaseRecovered()
    ensures var p, x := Params(0.0, 3.0), Triple(0.0, 1.0, 0.0);
      p.gamma >= 0.0 && x.s >= 0.0 && x.i >= 0.0 && x.s + x.i + x.r > 0.0
      && Step(p, x.s + x.i + x.r, x).r < x.r
  {
    var p, x := Params(0.0, 3.0), Triple(0.0, 1.0, 0.0);
    assert Derivative(x, 1.0, p) == Triple(0.0, -3.0, 3.0);
    assert Derivative(Triple(0.0, -0.5, 1.5), 1.0, p) == Triple(0.0, 1.5, -1.5);
    assert Derivative(Triple(0.0, 1.75, -0.75), 1.0, p) == Triple(0.0, -5.25, 5.25);
    assert Derivative(Triple(0.0, -4.25, 5.25), 1.0, p) == Triple(0.0, 12.75, -12.75);
  }

  /** The I component of one step when beta = 0, as a scalar recurrence:
      the same four stages, with dI = -gamma I at each. */
  function DecayStep(gamma: real, i: real): real {
    var k1 := -gamma * i;
    var k2 := -gamma * (i + Dt * k1 / 2.0);
    var k3 := -gamma * (i + Dt * k2 / 2.0);
    var k4 := -gamma * (i + Dt * k3);
    i + Dt * (k1 + 2.0 * k2 + 2.0 * k3 + k4) / 6.0
  }

  /** beta = 0: the I component of a step depends on I and gamma alone. */
  lemma StepWithoutTransmission(p: Params, n: real, x: Triple)
    requires n != 0.0
    requires p.beta == 0.0
    ensures Step(p, n, x).i == DecayStep(p.gamma, x.i)
  {
  }

  /** The scalar recurrence multiplies I by Rk4Reference.DecayFactor(gamma). */
  lemma DecayStepIsFactor(gamma: real, i: real)
    ensures DecayStep(gamma, i) == i * Rk4Reference.DecayFactor(gamma)
  {
    var g := gamma;
    assert -g * (i + Dt * (-g * i) / 2.0) == -g * i + g * g * i / 2.0;
  }

  /** beta = 0: one step multiplies I by the fixed factor
      Rk4Reference.DecayFactor(gamma), not by the exp(-gamma) of the
      continuous model. */
  lemma StepNoTransmissionDecay(p: Params, n: real, x: Triple)
    requires n != 0.0
    requires p.beta == 0.0
    ensures Step(p, n, x).i == x.i * Rk4Reference.DecayFactor(p.gamma)
  {
    StepWithoutTransmission(p, n, x);
    DecayStepIsFactor(p.gamma, x.i);
  }

  /** I after `t` steps of the scalar recurrence from `i0`. */
  function DecayAfter(gamma: real, i0: real, t: nat): real {
    if t == 0 then i0 else DecayStep(gamma, DecayAfter(gamma, i0, t - 1))
  }

  /** a to the t-th power. */
  function Power(a: real, t: nat): real {
    if t == 0 then 1.0 else a * Power(a, t - 1)
  }

  /** beta = 0: I after t steps follows the scalar recurrence alone. */
  lemma {:induction false} NoTransmissionDecayAt(p: Params, n: real, x0: Triple, t: nat)
    requires t > 0 ==> n != 0.0
    requires p.beta == 0.0
    ensures StateAt(p, n, x0, t).i == DecayAfter(p.gamma, x0.i, t)
  {
    if t > 0 {
      NoTransmissionDecayAt(p, n, x0, t - 1);
      StepWithoutTransmission(p, n, StateAt(p, n, x0, t - 1));
    }
  }

  /** t steps of the scalar recurrence multiply I by the t-th power of the
      one-step factor: a geometric sequence with ratio
      Rk4Reference.DecayFactor(gamma), in place of exp(-gamma t). */
  lemma {:induction false} DecayAfterIsGeometric(gamma: real, i0: real, t: nat)
    ensures DecayAfter(gamma, i0, t) == i0 * Power(Rk4Reference.DecayFactor(gamma), t)
  {
    if t > 0 {
      var c := Rk4Reference.DecayFactor(gamma);
      DecayAfterIsGeometric(gamma, i0, t - 1);
      DecayStepIsFactor(gamma, DecayAfter(gamma, i0, t - 1));
      MulRegroup(DecayAfter(gamma, i0, t), DecayAfter(gamma, i0, t - 1), i0, Power(c, t - 1), c, Power(c, t));
    }
  }

  /** (a b) c = a (c b), with the products named so that the solver needs
      no search. */
  lemma MulRegroup(z: real, y: real, a: real, b: real, c: real, d: real)
    requires y == a * b
    requires z == y * c
    requires d == c * b
    ensures z == a * d
  {
  }

  /** beta = 0: the I series of a run is the scalar recurrence from I0,
      which DecayAfterIsGeometric turns into a geometric sequence. */
  lemma SimulateNoTransmissionDecay(p: Params, n: real, x0: Triple, days: nat)
    requires days >= 1
    requires days >= 2 ==> n != 0.0
    requires p.beta == 0.0
    ensures forall t :: 0 <= t < days ==> Simulate(p, n, x0, days)[t].i == DecayAfter(p.gamma, x0.i, t)
  {
    forall t | 0 <= t < days
      ensures Simulate(p, n, x0, days)[t].i == DecayAfter(p.gamma, x0.i, t)
    {
      NoTransmissionDecayAt(p, n, x0, t);
    }
  }

  /** The three output series S, I and R. */
  datatype Series = Series(s: seq<real>, i: seq<real>, r: seq<real>)

  /** The three columns of a sequence of rows. */
  function Columns(rows: seq<Triple>): (tr: Series)
    ensures |tr.s| == |rows| && |tr.i| == |rows| && |tr.r| == |rows|
    ensures forall t :: 0 <= t < |rows| ==>
      tr.s[t] == rows[t].s && tr.i[t] == rows[t].i && tr.r[t] == rows[t].r
  {
    Series(seq(|rows|, t requires 0 <= t < |rows| => rows[t].s),
           seq(|rows|, t requires 0 <= t < |rows| => rows[t].i),
           seq(|rows|, t requires 0 <= t < |rows| => rows[t].r))
  }

  /** Why the driver fails, as the Python runtime would report it. */
  datatype SimError =
    | NegativeDimensions   // allocating an array of negative length
    | IndexOutOfRange      // writing index 0 of an empty array

  datatype Result<T> = Ok(value: T) | Err(error: SimError)

  /** The driver as written: allocate zero-filled buffers of `days`
      entries, store the initial condition at index 0, fix n = S0 + I0 + R0
      once, and fill the buffers day by day. A negative `days` fails at the
      allocation and `days = 0` at the write to index 0. */
  method Rk4Sir(beta: real, gamma: real, s0: real, i0: real, r0: real, days: int)
    returns (res: Result<Series>)
    requires days >= 2 ==> s0 + i0 + r0 != 0.0
    ensures days < 0 <==> res == Err(NegativeDimensions)
    ensures days == 0 <==> res == Err(IndexOutOfRange)
    ensures days >= 1 ==>
      res == Ok(Columns(Simulate(Params(beta, gamma), s0 + i0 + r0, Triple(s0, i0, r0), days)))
    ensures res.Ok? ==>
      var tr := res.value;
      && |tr.s| == days && |tr.i| == days && |tr.r| == days
      && tr.s[0] == s0 && tr.i[0] == i0 && tr.r[0] == r0
      && forall t :: 0 <= t < days ==> tr.s[t] + tr.i[t] + tr.r[t] == s0 + i0 + r0
  {
    if days < 0 {
      return Err(NegativeDimensions);
    }
    if days == 0 {
      return Err(IndexOutOfRange);
    }
    var n := s0 + i0 + r0;
    var rows := Integrate(Params(beta, gamma), n, Triple(s0, i0, r0), days);
    return Ok(Columns(rows));
  }

  /** The loop of the driver over one buffer of (S, I, R) rows: row t + 1
      is written from row t, for t = 0 .. days - 2; row 0 is never written
      again. */
  method Integrate(p: Params, n: real, x0: Triple, days: nat) returns (rows: seq<Triple>)
    requires days >= 1
    requires days >= 2 ==> n != 0.0
    ensures rows == Simulate(p, n, x0, days)
  {
    rows := seq(days, _ => Zero);
    rows := rows[0 := x0];
    var t := 0;
    while t < days - 1
      invariant 0 <= t <= days - 1
      invariant |rows| == days
      invariant forall j :: 0 <= j <= t ==> rows[j] == StateAt(p, n, x0, j)
    {
      // the four stage evaluations and the update of all three compartments
      rows := rows[t + 1 := Step(p, n, rows[t])];
      t := t + 1;
    }
    SimulateIsUnique(p, n, x0, days, rows);
  }
}
