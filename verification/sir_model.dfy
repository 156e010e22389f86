/** The SIR right-hand side: the instantaneous rates of change of the
    Susceptible, Infected and Recovered compartments (src/sir_model.py).
    Arithmetic is exact (`real`); the floating-point rounding of the
    original is not modelled. */
module SirModel {

  /** Three compartment values (S, I, R). The same shape carries a state of
      the epidemic and its rates of change (dS, dI, dR). */
  datatype Triple = Triple(s: real, i: real, r: real)

  /** Infection rate beta and recovery rate gamma; fixed for one run. */
  datatype Params = Params(beta: real, gamma: real)

  const Zero: Triple := Triple(0.0, 0.0, 0.0)

  /** The derivative triple of the SIR equations at state `x`, with total
      population `n`. Nothing is clamped or validated: negative compartments
      are accepted, and the only demand is a nonzero divisor. The R
      compartment is read by no rate. */
  function Derivative(x: Triple, n: real, p: Params): (d: Triple)
    requires n != 0.0
    // every individual leaving one compartment enters another
    ensures d.s + d.i + d.r == 0.0
    // no transmission: S is frozen and I decays at rate gamma
    ensures p.beta == 0.0 ==> d.s == 0.0 && d.i == -p.gamma * x.i
    // no recovery: R is frozen and I gains exactly what S loses
    ensures p.gamma == 0.0 ==> d.r == 0.0 && d.i == -d.s
    // a state with nobody infected is an equilibrium
    ensures x.i == 0.0 ==> d == Zero
    // sign facts of the physical regime
    ensures p.gamma >= 0.0 && x.i >= 0.0 ==> d.r >= 0.0
    ensures p.beta >= 0.0 && n > 0.0 && x.s * x.i >= 0.0 ==> d.s <= 0.0
  {
    var ds := -p.beta * x.s * x.i / n;
    var di := p.beta * x.s * x.i / n - p.gamma * x.i;
    var dr := p.gamma * x.i;
    Triple(ds, di, dr)
  }
}
