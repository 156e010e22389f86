/** The classical fourth-order Runge-Kutta step written once, for any
    vector field on (S, I, R) triples, in vector form. It is the reference
    against which the component-wise step of the solver is checked
    (Rk4Solver.StepIsClassicalRk4). It also carries the general reason for
    conservation, that a linear combination of zero-sum rates has zero sum,
    which Rk4Solver.StepKeepsTotalByReference applies to the solver's step.
    Its DecayFactor is the factor that Rk4Solver.StepNoTransmissionDecay
    proves for the solver's step directly. */
module Rk4Reference {
  import opened SirModel

  function Add(a: Triple, b: Triple): Triple {
    Triple(a.s + b.s, a.i + b.i, a.r + b.r)
  }

  function Scale(k: real, a: Triple): Triple {
    Triple(k * a.s, k * a.i, k * a.r)
  }

  /** One classical RK4 step of size `h` for the field `f`:
      x + h/6 * (k1 + 2 k2 + 2 k3 + k4). */
  function Rk4(f: Triple -> Triple, h: real, x: Triple): Triple {
    var k1 := f(x);
    var k2 := f(Add(x, Scale(h / 2.0, k1)));
    var k3 := f(Add(x, Scale(h / 2.0, k2)));
    var k4 := f(Add(x, Scale(h, k3)));
    Add(x, Scale(h / 6.0, Add(Add(k1, Scale(2.0, k2)), Add(Scale(2.0, k3), k4))))
  }

  /** If every rate the field produces sums to zero, an RK4 step keeps
      S + I + R, whatever the step size. */
  lemma Rk4KeepsTotal(f: Triple -> Triple, h: real, x: Triple)
    requires forall y :: f(y).s + f(y).i + f(y).r == 0.0
    ensures var y := Rk4(f, h, x); y.s + y.i + y.r == x.s + x.i + x.r
  {
    var k1 := f(x);
    var k2 := f(Add(x, Scale(h / 2.0, k1)));
    var k3 := f(Add(x, Scale(h / 2.0, k2)));
    var k4 := f(Add(x, Scale(h, k3)));
    var sum := Add(Add(k1, Scale(2.0, k2)), Add(Scale(2.0, k3), k4));
    assert sum.s + sum.i + sum.r == 0.0;
  }

  /** The stability polynomial of classical RK4 at step size 1: the factor
      by which one step multiplies a quantity that decays at rate `g`, the
      degree-four Taylor polynomial of exp(-g). */
  function DecayFactor(g: real): real {
    1.0 - g + g * g / 2.0 - g * g * g / 6.0 + g * g * g * g / 24.0
  }

  /** If the field drives the I component by dI = -g I alone, one RK4 step
      of size 1 multiplies I by DecayFactor(g). */
  lemma Rk4LinearDecay(f: Triple -> Triple, g: real, x: Triple)
    requires forall y :: f(y).i == -g * y.i
    ensures Rk4(f, 1.0, x).i == x.i * DecayFactor(g)
  {
    var i := x.i;
    var k1 := f(x);
    var k2 := f(Add(x, Scale(1.0 / 2.0, k1)));
    var k3 := f(Add(x, Scale(1.0 / 2.0, k2)));
    var k4 := f(Add(x, Scale(1.0, k3)));
    assert k2.i == -g * i + g * g * i / 2.0;
    assert k3.i == -g * i + g * g * i / 2.0 - g * g * g * i / 4.0;
    assert k4.i == -g * i + g * g * i - g * g * g * i / 2.0 + g * g * g * g * i / 4.0;
  }
}
