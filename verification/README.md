# SIR epidemic model with a fixed-step RK4 driver

This project models the numerical core of a small SIR (Susceptible,
Infected, Recovered) epidemic simulator:

- `sir_derivatives` in `src/sir_model.py` computes the rates
  dS = -beta S I / N, dI = beta S I / N - gamma I and dR = gamma I.
- `rk4_sir` in `src/rk4_solver.py` allocates three zero-filled arrays of
  `days` entries and writes the initial condition at index 0. It fixes
  N = S0 + I0 + R0 once. It then runs `days - 1` classical fourth-order
  Runge-Kutta steps with dt = 1, each filling index t + 1 from index t.

Arithmetic is exact (`real`), an idealisation of the Python floats. Every
operation in the core is `+`, `-`, `*`, or `/` by 2, by 6 or by N, so the
algebra holds exactly.

There are three modules:

- `SirModel` (`sir_model.dfy`): the `Triple` of compartment values, the
  rate parameters, and `Derivative`.
- `Rk4Reference` (`rk4_reference.dfy`): the textbook RK4 step for an
  arbitrary vector field on triples, written in vector form. It states two
  general facts:
  - a field whose rates sum to zero keeps S + I + R;
  - on a linearly decaying component, one step multiplies that component
    by RK4's degree-four stability polynomial.
- `Rk4Solver` (`rk4_solver.dfy`): the driver itself. It contains:
  - the step function, written component by component as the loop body
    writes it;
  - the state after t steps and the rows of a whole run;
  - the projection of the rows onto the three output series;
  - `Rk4Sir`, the driver with its failure cases;
  - `Integrate`, the filling loop over one buffer of rows.

The loop writes three arrays in lockstep. The model writes one sequence of
(S, I, R) rows instead, and `Columns` splits the rows into the three
series. Index 0 is never written by the loop.

Facts about the code that the model makes precise:

- Failure cases. The code validates neither `days` nor N.
  - A negative `days` fails inside `np.zeros` (negative dimensions).
  - `days = 0` fails at the write to index 0 of an empty array.
  - N = 0 divides by zero in floating point, which the exact model cannot
    represent.
  - `Rk4Sir` therefore returns `NegativeDimensions` and `IndexOutOfRange`
    for the first two cases. It requires N != 0 only when a step is
    actually taken (`days >= 2`).
- Monotonicity. One might expect S to be non-increasing for beta >= 0 and
  R to be non-decreasing for gamma >= 0. One RK4 step with dt = 1
  guarantees neither. `StepCanIncreaseSusceptible` and
  `StepCanDecreaseRecovered` give concrete non-negative starting states
  with positive N where S rises and where R falls. The stage points
  overshoot into negative compartment values, and the code does no
  clamping. Both examples use rates (beta = 8, gamma = 3) outside the
  slider ranges that `app.py` offers.
- Decay without transmission. With beta = 0, the I series is exactly
  geometric with ratio 1 - gamma + gamma^2/2 - gamma^3/6 + gamma^4/24, the
  degree-four Taylor polynomial of exp(-gamma). The proof comes in two
  lemmas that together give
  `Simulate(p, n, x0, days)[t].i == x0.i * Power(DecayFactor(p.gamma), t)`:
  - `SimulateNoTransmissionDecay` shows that entry t is the one-step
    recurrence applied t times.
  - `DecayAfterIsGeometric` shows that this recurrence is I0 times the
    t-th power of the factor.

## Model

| member | source | states |
|---|---|---|
| SirModel.Derivative | src/sir_model.py:1-8 | The three rates sum to zero. beta = 0 freezes S and makes dI = -gamma I. gamma = 0 freezes R and makes dI = -dS. I = 0 is an equilibrium. Sign facts: dR >= 0 when gamma, I >= 0; dS <= 0 when beta >= 0, N > 0 and S I >= 0. The only demand is N != 0; negative compartments are accepted. |
| Rk4Reference.Rk4KeepsTotal | src/rk4_solver.py:17-39 | For any field whose rates sum to zero and any step size, an RK4 step keeps S + I + R. |
| Rk4Reference.Rk4LinearDecay | src/rk4_solver.py:17-39 | If a field drives I by dI = -g I, one RK4 step of size 1 multiplies I by 1 - g + g^2/2 - g^3/6 + g^4/24. |
| Rk4Solver.Step | src/rk4_solver.py:17-39 | One loop iteration keeps S + I + R. beta = 0 keeps S, gamma = 0 keeps R, and a state with I = 0 is left unchanged. |
| Rk4Solver.StepIsClassicalRk4 | src/rk4_solver.py:17-39 | The component-wise loop body equals the vector-form classical RK4 step of the SIR field with h = 1. All three compartments share one set of four stage evaluations. |
| Rk4Solver.StepKeepsTotalByReference | src/rk4_solver.py:13-39 | One loop iteration keeps S + I + R because it is an RK4 step of a field whose rates sum to zero. The proof applies Rk4Reference.Rk4KeepsTotal through StepIsClassicalRk4. |
| Rk4Solver.StateAt | src/rk4_solver.py:13-39 | The state after t steps has the same total S + I + R as the initial state, for any fixed nonzero N. |
| Rk4Solver.Simulate | src/rk4_solver.py:8-39 | A run has exactly `days` rows, and row 0 is the initial condition. Row t is the state after t steps. Every row has the initial total. |
| Rk4Solver.SimulateIsMarkov | src/rk4_solver.py:16-39 | Row t + 1 is one step from row t alone. |
| Rk4Solver.SimulateIsRk4Iteration | src/rk4_solver.py:16-39 | Row t + 1 is the classical RK4 step of the SIR field from row t. |
| Rk4Solver.SimulatePrefix | src/rk4_solver.py:16-39 | A run of m days is the first m rows of any longer run with the same inputs. |
| Rk4Solver.SimulateIsUnique | src/rk4_solver.py:12-39 | Any `days` rows whose row t is the state after t steps are the run itself. |
| Rk4Solver.NoTransmissionAt | src/rk4_solver.py:17-37 | beta = 0: S after t steps equals S0. |
| Rk4Solver.NoRecoveryAt | src/rk4_solver.py:17-39 | gamma = 0: R after t steps equals R0. |
| Rk4Solver.NoInfectionAt | src/rk4_solver.py:17-39 | I0 = 0: the state after t steps is the initial state. |
| Rk4Solver.SimulateNoTransmission | src/rk4_solver.py:17-37 | beta = 0: every entry of the S series is S0. |
| Rk4Solver.SimulateNoRecovery | src/rk4_solver.py:17-39 | gamma = 0: every entry of the R series is R0. |
| Rk4Solver.SimulateNoInfection | src/rk4_solver.py:17-39 | I0 = 0: every row is the initial condition. |
| Rk4Solver.StepCanIncreaseSusceptible | src/rk4_solver.py:17-37 | With beta = 8, gamma = 0, (S, I, R) = (0.5, 0.5, 0) and N = 1, one step increases S, although beta >= 0 and the state is non-negative. |
| Rk4Solver.StepCanDecreaseRecovered | src/rk4_solver.py:17-39 | With beta = 0, gamma = 3, (S, I, R) = (0, 1, 0) and N = 1, one step decreases R, although gamma >= 0 and the state is non-negative. |
| Rk4Solver.StepWithoutTransmission | src/rk4_solver.py:17-38 | beta = 0: the new I depends only on the old I and gamma, through the same four stages run on I alone. |
| Rk4Solver.DecayStepIsFactor | src/rk4_solver.py:17-38 | That scalar step multiplies I by 1 - gamma + gamma^2/2 - gamma^3/6 + gamma^4/24. |
| Rk4Solver.StepNoTransmissionDecay | src/rk4_solver.py:17-38 | beta = 0: one loop iteration multiplies I by that factor, not by exp(-gamma) or 1 - gamma. |
| Rk4Solver.NoTransmissionDecayAt | src/rk4_solver.py:16-38 | beta = 0: I after t steps is the scalar step applied t times to I0. |
| Rk4Solver.DecayAfterIsGeometric | src/rk4_solver.py:16-38 | The scalar step applied t times to I0 gives I0 times the t-th power of the one-step factor. |
| Rk4Solver.SimulateNoTransmissionDecay | src/rk4_solver.py:16-38 | beta = 0: entry t of the I series is the scalar step applied t times to I0. |
| Rk4Solver.Columns | src/rk4_solver.py:37-41 | The three returned series have one entry per row, and entry t of each is that compartment of row t. |
| Rk4Solver.Rk4Sir | src/rk4_solver.py:4-41 | A negative `days` fails with `NegativeDimensions`; `days = 0` fails with `IndexOutOfRange` (each if and only if). For `days >= 1`, the result is the three series of the run from (S0, I0, R0) with N = S0 + I0 + R0. Those series have length `days`, start at the initial values, and keep S + I + R at every index. |
| Rk4Solver.Integrate | src/rk4_solver.py:12-39 | The filling loop over a buffer of `days` zero rows, with row 0 set to the initial state, produces exactly the rows of the run. |

## Left out

- `app.py` (Streamlit layout, sliders, Plotly charts, the severity
  classification) and `src/data_loader.py` (pandas CSV reading and
  grouping): presentation and I/O outside the numerical core.
- Floating-point rounding, overflow, `inf` and `nan`: the model computes
  exactly over `real`. Conservation therefore holds exactly here. In the
  original it holds only up to rounding.
- Rk4Sir: requires S0 + I0 + R0 != 0 whenever `days >= 2`. The original
  divides by zero there and fills the arrays with `inf`/`nan`, which exact
  arithmetic cannot represent.
- Rk4Sir: `days` is an integer. A non-integer `days` makes `np.zeros` or
  `range` raise a type error in the original, and that path is not
  modelled.
- How close a run is to the solution of the continuous SIR equations
  (RK4's local error O(dt^5), global error O(dt^4)): a statement about
  limits, not about the code.
- The three NumPy arrays are modelled as one sequence of rows plus a
  projection (`Columns`). Mutation of the caller's arrays is not
  observable, because the function allocates them itself.
