# Hodgkin-Huxley dashboard: parameter lookup, stimulus gate and gating algebra

This project models the logic of the brian_dash dashboard that sits between its
editable tables and the simulation engine, and proves properties of it in Dafny.

- **Table lookup** (`HH.FilterDataframe`, brian_dash/models/HH.py). A table is a
  sequence of rows with the CSV columns `parameter`, `unit`, `value`, `step`,
  `ramp` and `sin`. The lookup returns the value of the first row whose name
  matches, or `None`. Its test `len(value > 0)` counts matches and ignores the
  sign of the value. The source copies the table first; here the table is a
  value, so a lookup can never change it.
- **Model parameters** (`HH.ReadParameters`). At its start `simulate_HH_neuron`
  looks up `El, Ek, Ena, gl, gk, gna, C, v0` in that order. A missing name makes
  the source multiply `None` by a unit, which raises; the model returns
  `Err(name)` for the first missing name.
- **Gating and membrane algebra** (`HH`). The gate equation
  `alpha*(1-x) - beta*x`, the initial value `alpha/(alpha+beta)`, the membrane
  current `I_e + gna*m^3*h*(Ena-vm) + gl*(El-vm) + gk*n^4*(Ek-vm)` and
  `dvm/dt = membrane_Im/C`, all over `real`. The rates `alpha` and `beta` are
  given numbers, not the exponential formulas.
- **Current-table selection** (`AppHH.UpdateCurrentTable`). Selector value 1
  keeps the rows with `step == 1`, value 2 the rows with `ramp == 1`, and any
  other value the rows with `sin == 1`. Row order is kept.
- **Display callback** (`AppHH.UpdateOutput`). This covers `update_output` up
  to the start of the simulator. It looks up `end time`, `start time` and
  `simulation time` and converts each with `int()`, which raises on `None`. It
  then builds `list_par` for the selected kind and stops with `PreventUpdate`
  when an entry is `None`. Otherwise it reads the model parameters and starts
  the simulator. The result is an `Outcome`: `Raised(name)`, `Blocked` or
  `Simulated(parameters, current, duration)`. `current` is the generator call
  (`StepCurrent`, `RampCurrent` or `SinusoidalCurrent`) with its arguments.

Facts about the code that a reader might not expect, all followed by the model:

- A missing model parameter is not covered by the `PreventUpdate` gate. Only
  the stimulus parameters of the selected kind go into `list_par`.
- A missing `start time`, `end time` or `simulation time` reaches `int(None)`
  and raises before the gate is checked. `UpdateOutput` gives `Raised`.
- A missing model parameter such as `C` gets past the gate and raises inside
  `simulate_HH_neuron`. `UpdateOutput` gives `Raised("C")`, not `Blocked`.
- A table is not a name-to-value mapping. The lookup scans the rows and the
  first row with a name wins. `HH.FilterAgreesWithFirstValues` shows the scan
  agrees with a mapping built first-row-wins.
- The selector offers three values, but the code treats every value other
  than 1 and 2 as the sinusoid.

## Model

Some functions carry no contract of their own, and the lemmas after them say
what they mean. `HH.FilterDataframe` (the model of `filter_dataframe`) is
described by the rows from `HH.MatchingValuesEmptyIff` to
`HH.FilterAgreesWithFirstValues`. `HH.GatingRate` is described by
`HH.SteadyState` and the three `GatingRate*` lemmas. `HH.MembraneCurrent` and
its three channel terms are described by `HH.ChannelTermsVanishAtReversal`,
`HH.MembraneCurrentLinearInVoltage`, `HH.MembraneCurrentDecreasing` and
`HH.ZeroCurrentVoltage`. `AppHH.RowsWithFlag` is described by the lemmas
named after it and by `AppHH.LookupInSelection` and `AppHH.LookupInSelectionNone`.

| member | source | states |
|---|---|---|
| HH.MatchingValuesEmptyIff | brian_dash/models/HH.py:56-57 | the filtered value array is empty exactly when no row has the name |
| HH.MatchingValuesFirst | brian_dash/models/HH.py:56-58 | the first element of the filtered value array is the value of the first row with the name |
| HH.FilterNoneIffAbsent | brian_dash/models/HH.py:56-60 | `filter_dataframe` returns `None` exactly when no row has the name |
| HH.FilterFirstMatch | brian_dash/models/HH.py:56-58 | when row i is the first row with the name, the result is `Some` of row i's value |
| HH.FirstMatchExists | brian_dash/models/HH.py:56 | if any row has the name, a first such row exists at or before it |
| HH.FilterFoundIsFirstMatch | brian_dash/models/HH.py:56-58 | a found value always comes from the first row with the name |
| HH.FilterIgnoresSign | brian_dash/models/HH.py:57-58 | whatever number the first matching row holds, zero or negative included, is the one returned |
| HH.MatchingValuesConcat | brian_dash/models/HH.py:56 | filtering a concatenation gives the two filtered arrays concatenated, so table order is kept |
| HH.FilterConcat | brian_dash/models/HH.py:54-60 | a lookup in `a + b` is the lookup in `a` when `a` has the name, and otherwise the lookup in `b` |
| HH.FilterIgnoresOtherRows | brian_dash/models/HH.py:54-60 | inserting or removing a row with another name anywhere does not change the lookup |
| HH.FilterAgreesWithFirstValues | brian_dash/models/HH.py:38-60 | the scan equals lookup in the first-row-wins name-to-value map, with `None` exactly for names that are not keys |
| HH.LookupAll | brian_dash/models/HH.py:77-84 | looks names up in order; `Ok` exactly when all are present, holding their values; otherwise `Err` of the first missing name |
| HH.ReadParameters | brian_dash/models/HH.py:77-84 | succeeds exactly when all eight model parameters are present, each field being its lookup; otherwise fails at the first missing name in source order |
| HH.SteadyState | brian_dash/models/HH.py:111-113 | the initial gate value is a zero of `alpha*(1-x) - beta*x`, and lies strictly in (0,1) when both rates are positive |
| HH.GatingRateRelaxation | brian_dash/models/HH.py:100-102 | the gate derivative equals `(alpha+beta)*(x_inf - x)` |
| HH.GatingRateSign | brian_dash/models/HH.py:100-102 | with positive rates the derivative is positive below the steady state, negative above it and zero only at it |
| HH.GatingRateAtBounds | brian_dash/models/HH.py:100-102 | with positive rates a gate at 0 opens and a gate at 1 closes: the derivative points into [0, 1] at both ends |
| HH.ChannelTermsVanishAtReversal | brian_dash/models/HH.py:89-90 | the sodium, leak and potassium terms are each zero when `vm` equals their reversal potential |
| HH.MembraneCurrentLinearInVoltage | brian_dash/models/HH.py:89-90 | the membrane current is `I_e` plus the conductance-weighted reversal potentials minus the total conductance times `vm` |
| HH.MembraneCurrentDecreasing | brian_dash/models/HH.py:89-90 | with positive leak, non-negative conductances and non-negative `m` and `h`, a higher `vm` gives a strictly lower membrane current |
| HH.ZeroCurrentVoltage | brian_dash/models/HH.py:89-90 | with the gates held fixed, the membrane current vanishes at exactly one voltage, given in closed form |
| HH.VoltageRate | brian_dash/models/HH.py:104 | for any non-zero `C`, `dvm/dt` times `C` is the membrane current; with `C > 0` they have the same sign, with `C < 0` opposite signs |
| HH.InitialState | brian_dash/models/HH.py:110-113 | the initial state has `vm = v0`, each gate is at rest, and each is strictly in (0,1) for positive rates |
| AppHH.KindOf | brian_dash/apps/app_HH.py:170-181 | selector 1 is step, 2 is ramp, and every other value is the sinusoid, each an if-and-only-if |
| AppHH.RowsWithFlag | brian_dash/apps/app_HH.py:173-180 | the selection has exactly the rows whose flag is 1 and is a subsequence of the table |
| AppHH.RowsWithFlagConcat | brian_dash/apps/app_HH.py:173-180 | selection distributes over concatenation, so kept rows stay in table order |
| AppHH.RowsWithFlagCount | brian_dash/apps/app_HH.py:173-180 | a flagged row occurs in the selection as often as in the table; an unflagged row does not occur |
| AppHH.LookupInSelection | brian_dash/apps/app_HH.py:168-181 | a lookup in the selected rows finds the first row with the name that carries the kind's flag |
| AppHH.RowsWithFlagCountAll | brian_dash/apps/app_HH.py:173-180 | every flagged row occurs in the selection as often as in the table, and every unflagged row does not occur |
| AppHH.LookupInSelectionNone | brian_dash/apps/app_HH.py:173-180 | a lookup in the selected rows gives `None` exactly when no row with the name carries the kind's flag |
| AppHH.UpdateCurrentTable | brian_dash/apps/app_HH.py:168-181 | for 1, 2 and any other value, exactly the rows with `step`, `ramp` or `sin` equal to 1, each as often as in the table, as a subsequence of the table |
| AppHH.PyInt | brian_dash/apps/app_HH.py:196-198 | `int()` of a number truncates toward zero |
| AppHH.CollectStepParameters | brian_dash/apps/app_HH.py:203-208 | `list_par` is the lookup of `amplitude`; a step current is built exactly when it is present, with that amplitude and the given times |
| AppHH.CollectRampParameters | brian_dash/apps/app_HH.py:210-220 | `list_par` is the lookups of `amplitude start` and `amplitude end`; a ramp current is built exactly when both are present, with those values |
| AppHH.CollectSinusoidParameters | brian_dash/apps/app_HH.py:222-237 | `list_par` is the lookups of `frequency`, `direct current`, `phase offset` and `amplitude`; a sinusoidal current is built exactly when all are present, with those values |
| AppHH.UpdateOutput | brian_dash/apps/app_HH.py:191-244 | a missing time raises (end, start, then simulation time); blocked exactly when the times are present and a required stimulus parameter of the kind is missing; a missing model parameter raises after the gate; otherwise the simulator gets the table's parameters, the waveform built from the table and `int` of the times |

## Left out

- Brian2's `NeuronGroup`, exponential-Euler integration, `StateMonitor`, `Network.run` and the result dictionary (brian_dash/models/HH.py:107-136). They belong to a foreign simulation engine and floating-point ODE numerics. So spiking and the approach to rest over time are not modelled.
- The exponential rate formulas (brian_dash/models/HH.py:92-98) and their singular points at -60 mV and -45 mV. They are transcendental floating-point code, so the rates are given reals.
- The current generators `get_step_current`, `get_ramp_current`, `get_sinusoidal_current` and `get_zero_current`. brian_dash/input_factory is not part of this model. Only their call sites and arguments are modelled, as `Waveform`; `get_zero_current` is imported and never called.
- Physical units (`b2.mV`, `b2.uA`, `b2.ms`, `b2.Hz`). Values are plain numbers in the units the tables use.
- Floating point. All arithmetic is over exact `real`.
- Blank cells. A cleared cell reaches pandas as NaN, which passes the `None` gate, and `int(NaN)` raises. Rows here always hold a number.
- An empty table. `pd.DataFrame([])` has no `parameter` column, so a lookup in it raises `KeyError`. The model treats a table with no rows as having no match.
- The selector's `int(value)`. The dropdown gives 1, 2 or 3, so `value` is an `int`.
- Dash layout, widgets, styling and the plotly figure (brian_dash/apps/app_HH.py:21-160 and 245-260). They are presentation only.
- CSV loading and the split into parameter and current tables by `category` (brian_dash/apps/app_HH.py:39-41). The current table is an input of `AppHH.UpdateCurrentTable`.
- The HTTP server start (brian_dash/apps/app_HH.py:264), the timing `__main__` block (brian_dash/models/HH.py:139-150) and setup.py. They are I/O and packaging.
- HH.SteadyState: requires `alpha + beta != 0`. The source divides anyway and would produce an infinite or NaN start value.
- HH.VoltageRate: requires `C != 0`. The source would divide by zero for `C = 0`.
