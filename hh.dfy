/** The Hodgkin-Huxley neuron model (brian_dash/models/HH.py): the table lookup
    `filter_dataframe`, the parameter reading at the head of
    `simulate_HH_neuron`, and the algebra of its equations over `real`.
    The voltage-dependent rates `alpha`/`beta` are taken as given reals, and
    the numerical integration is not part of this model. */
module HH {
  import opened Wrappers

  // ---------------------------------------------------------------------
  // Parameter tables
  // ---------------------------------------------------------------------

  /** One record of a parameter table, with the columns of the CSV file the
      tables come from: the name, its unit, its numeric value and the three
      waveform flags (`step`, `ramp`, `sin`) that say which stimulus kinds use
      the row. */
  datatype Row = Row(parameter: string, unit: string, value: real,
                     step: real, ramp: real, sin: real)

  /** Row `i` is the first row of `df` whose name is `name`. */
  ghost predicate IsFirstMatch(df: seq<Row>, name: string, i: int)
  {
    0 <= i < |df| && df[i].parameter == name &&
    forall j :: 0 <= j < i ==> df[j].parameter != name
  }

  /** The `value` column of the rows whose `parameter` is `name`, in table
      order: the array the source selects with a boolean mask on the name
      column. */
  function MatchingValues(df: seq<Row>, name: string): (vs: seq<real>)
    ensures |vs| <= |df|
  {
    if df == [] then []
    else if df[0].parameter == name then [df[0].value] + MatchingValues(df[1..], name)
    else MatchingValues(df[1..], name)
  }

  /** No value is matched exactly when no row has the name. */
  lemma {:induction false} MatchingValuesEmptyIff(df: seq<Row>, name: string)
    ensures |MatchingValues(df, name)| == 0 <==> forall i :: 0 <= i < |df| ==> df[i].parameter != name
  {
    if df != [] {
      MatchingValuesEmptyIff(df[1..], name);
      assert forall i :: 1 <= i < |df| ==> df[i] == df[1..][i - 1];
    }
  }

  /** The first matched value is the value of the first row with the name. */
  lemma {:induction false} MatchingValuesFirst(df: seq<Row>, name: string, i: int)
    requires IsFirstMatch(df, name, i)
    ensures |MatchingValues(df, name)| > 0 && MatchingValues(df, name)[0] == df[i].value
  {
    if i > 0 {
      assert IsFirstMatch(df[1..], name, i - 1);
      MatchingValuesFirst(df[1..], name, i - 1);
    }
  }

  /** The elementwise comparison `value > 0`: one boolean per value. Only its
      length is ever used. */
  function ElementwisePositive(vs: seq<real>): (bs: seq<bool>)
    ensures |bs| == |vs|
  {
    seq(|vs|, i requires 0 <= i < |vs| => vs[i] > 0.0)
  }

  /** `filter_dataframe(df, label)`: the value of the first row named `name`,
      or `None` when no row has that name. The test `len(value > 0)` counts
      the matches and does not look at their sign. The table is a value, so
      the lookup cannot change it. */
  function FilterDataframe(df: seq<Row>, name: string): (r: Option<real>)
  {
    var value := MatchingValues(df, name);
    if |ElementwisePositive(value)| > 0 then Some(value[0]) else None
  }

  /** `None` exactly when no row has the name. */
  lemma FilterNoneIffAbsent(df: seq<Row>, name: string)
    ensures FilterDataframe(df, name).None? <==> forall i :: 0 <= i < |df| ==> df[i].parameter != name
  {
    MatchingValuesEmptyIff(df, name);
  }

  /** The value of the first row with the name, in table order. */
  lemma FilterFirstMatch(df: seq<Row>, name: string, i: int)
    requires IsFirstMatch(df, name, i)
    ensures FilterDataframe(df, name) == Some(df[i].value)
  {
    MatchingValuesFirst(df, name, i);
  }

  /** Whenever some row is named `name`, there is a first one. */
  lemma {:induction false} FirstMatchExists(df: seq<Row>, name: string, k: int)
    requires 0 <= k < |df| && df[k].parameter == name
    ensures exists i :: 0 <= i <= k && IsFirstMatch(df, name, i)
  {
    if !IsFirstMatch(df, name, k) {
      var j :| 0 <= j < k && df[j].parameter == name;
      FirstMatchExists(df, name, j);
    }
  }

  /** A found value is the value of the first row with that name. */
  lemma FilterFoundIsFirstMatch(df: seq<Row>, name: string)
    requires FilterDataframe(df, name).Some?
    ensures exists i :: IsFirstMatch(df, name, i) &&
                        FilterDataframe(df, name) == Some(df[i].value)
  {
    FilterNoneIffAbsent(df, name);
    var k :| 0 <= k < |df| && df[k].parameter == name;
    FirstMatchExists(df, name, k);
    var i :| 0 <= i <= k && IsFirstMatch(df, name, i);
    FilterFirstMatch(df, name, i);
  }

  /** The sign of the value plays no part: whatever number the first matching
      row holds, zero and negative numbers included, is the one returned. */
  lemma FilterIgnoresSign(df: seq<Row>, name: string, i: int, v: real)
    requires IsFirstMatch(df, name, i)
    ensures FilterDataframe(df[i := df[i].(value := v)], name) == Some(v)
  {
    assert IsFirstMatch(df[i := df[i].(value := v)], name, i);
    FilterFirstMatch(df[i := df[i].(value := v)], name, i);
  }

  /** The values matched in a concatenation are those matched in each part. */
  lemma {:induction false} MatchingValuesConcat(a: seq<Row>, b: seq<Row>, name: string)
    ensures MatchingValues(a + b, name) == MatchingValues(a, name) + MatchingValues(b, name)
  {
    if a != [] {
      assert (a + b)[1..] == a[1..] + b;
      MatchingValuesConcat(a[1..], b, name);
    } else {
      assert a + b == b;
    }
  }

  /** Looking up in `a + b` finds the answer in `a` when `a` has the name, and
      otherwise in `b`. */
  lemma FilterConcat(a: seq<Row>, b: seq<Row>, name: string)
    ensures FilterDataframe(a + b, name) ==
            if FilterDataframe(a, name).Some? then FilterDataframe(a, name)
            else FilterDataframe(b, name)
  {
    MatchingValuesConcat(a, b, name);
  }

  /** Rows with other names never affect the result: inserting or removing
      one anywhere leaves every lookup of `name` unchanged. */
  lemma FilterIgnoresOtherRows(a: seq<Row>, r: Row, b: seq<Row>, name: string)
    requires r.parameter != name
    ensures FilterDataframe(a + [r] + b, name) == FilterDataframe(a + b, name)
  {
    MatchingValuesConcat(a + [r], b, name);
    MatchingValuesConcat(a, [r], name);
    MatchingValuesConcat(a, b, name);
    assert MatchingValues([r], name) == [] by {
      assert [r][1..] == [];
    }
  }

  /** The name-to-value mapping a table denotes when the first row with a
      name wins: later rows are entered first and overwritten by earlier ones. */
  function FirstValues(df: seq<Row>): (m: map<string, real>)
  {
    if df == [] then map[] else FirstValues(df[1..])[df[0].parameter := df[0].value]
  }

  /** The scan agrees with the mapping: a lookup is the mapping's entry for
      the name, and `None` exactly when the name is not a key. */
  lemma {:induction false} FilterAgreesWithFirstValues(df: seq<Row>, name: string)
    ensures FilterDataframe(df, name) ==
            if name in FirstValues(df) then Some(FirstValues(df)[name]) else None
  {
    if df != [] {
      FilterAgreesWithFirstValues(df[1..], name);
      FilterConcat([df[0]], df[1..], name);
      assert [df[0]] + df[1..] == df;
      assert IsFirstMatch([df[0]], name, 0) <==> df[0].parameter == name;
    }
  }

  // ---------------------------------------------------------------------
  // Model parameters (simulate_HH_neuron, lines 77-84)
  // ---------------------------------------------------------------------

  /** The model constants, in mV (reversal potentials, initial voltage),
      mS (maximal conductances) and uF (capacitance). */
  datatype ParameterSet = ParameterSet(el: real, ek: real, ena: real,
                                       gl: real, gk: real, gna: real,
                                       c: real, v0: real)

  /** The names `simulate_HH_neuron` looks up, in the order it looks them up. */
  const ModelParameterNames: seq<string> := ["El", "Ek", "Ena", "gl", "gk", "gna", "C", "v0"]

  /** Looks up each of `names` in turn; `Err(n)` names the first one missing. */
  function LookupAll(par: seq<Row>, names: seq<string>): (r: Result<seq<real>, string>)
    ensures r.Ok? <==> forall k :: 0 <= k < |names| ==> FilterDataframe(par, names[k]).Some?
    ensures r.Ok? ==> |r.value| == |names| &&
                      forall k :: 0 <= k < |names| ==> FilterDataframe(par, names[k]) == Some(r.value[k])
    ensures r.Err? ==> exists k :: 0 <= k < |names| && r.error == names[k] &&
                        FilterDataframe(par, names[k]).None? &&
                        forall j :: 0 <= j < k ==> FilterDataframe(par, names[j]).Some?
  {
    if names == [] then Ok([])
    else
      var first := FilterDataframe(par, names[0]);
      if first.None? then Err(names[0])
      else
        var rest := LookupAll(par, names[1..]);
        assert forall k :: 1 <= k < |names| ==> names[k] == names[1..][k - 1];
        if rest.Err? then
          ghost var k :| 0 <= k < |names[1..]| && rest.error == names[1..][k] &&
                         FilterDataframe(par, names[1..][k]).None? &&
                         forall j :: 0 <= j < k ==> FilterDataframe(par, names[1..][j]).Some?;
          assert names[k + 1] == names[1..][k];
          Err(rest.error)
        else
          Ok([first.value] + rest.value)
  }

  /** Reading the model parameters from the table, in the source's order. A
      missing name makes the source multiply `None` by a unit, which raises;
      `Err(n)` is that failure at the first missing name `n`. */
  function ReadParameters(par: seq<Row>): (r: Result<ParameterSet, string>)
    ensures r.Ok? <==> forall k :: 0 <= k < |ModelParameterNames| ==>
                         FilterDataframe(par, ModelParameterNames[k]).Some?
    ensures r.Err? ==> exists k :: 0 <= k < |ModelParameterNames| &&
                        r.error == ModelParameterNames[k] &&
                        FilterDataframe(par, r.error).None? &&
                        forall j :: 0 <= j < k ==> FilterDataframe(par, ModelParameterNames[j]).Some?
    ensures r.Ok? ==>
      Some(r.value.el) == FilterDataframe(par, "El") && Some(r.value.ek) == FilterDataframe(par, "Ek") &&
      Some(r.value.ena) == FilterDataframe(par, "Ena") && Some(r.value.gl) == FilterDataframe(par, "gl") &&
      Some(r.value.gk) == FilterDataframe(par, "gk") && Some(r.value.gna) == FilterDataframe(par, "gna") &&
      Some(r.value.c) == FilterDataframe(par, "C") && Some(r.value.v0) == FilterDataframe(par, "v0")
  {
    match LookupAll(par, ModelParameterNames)
    case Err(missing) => Err(missing)
    case Ok(vs) =>
      assert FilterDataframe(par, ModelParameterNames[0]) == Some(vs[0]);
      assert FilterDataframe(par, ModelParameterNames[1]) == Some(vs[1]);
      assert FilterDataframe(par, ModelParameterNames[2]) == Some(vs[2]);
      assert FilterDataframe(par, ModelParameterNames[3]) == Some(vs[3]);
      assert FilterDataframe(par, ModelParameterNames[4]) == Some(vs[4]);
      assert FilterDataframe(par, ModelParameterNames[5]) == Some(vs[5]);
      assert FilterDataframe(par, ModelParameterNames[6]) == Some(vs[6]);
      assert FilterDataframe(par, ModelParameterNames[7]) == Some(vs[7]);
      Ok(ParameterSet(vs[0], vs[1], vs[2], vs[3], vs[4], vs[5], vs[6], vs[7]))
  }

  // ---------------------------------------------------------------------
  // Gating variables (lines 100-102, 111-113)
  // ---------------------------------------------------------------------

  /** The opening and closing rates of one gate at some voltage, in 1/ms. */
  datatype Rates = Rates(alpha: real, beta: real)

  predicate PositiveRates(r: Rates)
  {
    r.alpha > 0.0 && r.beta > 0.0
  }

  /** The right-hand side `alpha*(1-x) - beta*x` of `dx/dt` for a gate `x`. */
  function GatingRate(r: Rates, x: real): (dx: real)
  {
    r.alpha * (1.0 - x) - r.beta * x
  }

  /** The initial value `alpha/(alpha+beta)` of a gate: its steady state at
      the initial voltage. For positive rates it is strictly between 0 and 1,
      and the gate does not move there. */
  function SteadyState(r: Rates): (xInf: real)
    requires r.alpha + r.beta != 0.0
    ensures PositiveRates(r) ==> 0.0 < xInf < 1.0
    ensures GatingRate(r, xInf) == 0.0
  {
    var s := r.alpha + r.beta;
    assert s / s == 1.0;
    assert r.beta / s == (s - r.alpha) / s == s / s - r.alpha / s;
    assert r.alpha * (r.beta / s) == (r.alpha * r.beta) / s == r.beta * (r.alpha / s);
    r.alpha / s
  }

  /** The gating equation is a relaxation towards the steady state at speed
      `alpha + beta`. */
  lemma GatingRateRelaxation(r: Rates, x: real)
    requires r.alpha + r.beta != 0.0
    ensures GatingRate(r, x) == (r.alpha + r.beta) * (SteadyState(r) - x)
  {
    var s := r.alpha + r.beta;
    calc {
      (r.alpha + r.beta) * (SteadyState(r) - x);
      s * (r.alpha / s) - s * x;
      r.alpha - s * x;
      GatingRate(r, x);
    }
  }

  /** With positive rates the derivative points towards the steady state: it
      is positive below it, negative above it and zero only there. */
  lemma GatingRateSign(r: Rates, x: real)
    requires PositiveRates(r)
    ensures x < SteadyState(r) <==> GatingRate(r, x) > 0.0
    ensures x > SteadyState(r) <==> GatingRate(r, x) < 0.0
    ensures x == SteadyState(r) <==> GatingRate(r, x) == 0.0
  {
    GatingRateRelaxation(r, x);
  }

  /** With positive rates a gate at 0 opens and a gate at 1 closes: the
      derivative points into [0, 1] at both ends. */
  lemma GatingRateAtBounds(r: Rates)
    requires PositiveRates(r)
    ensures GatingRate(r, 0.0) > 0.0 && GatingRate(r, 1.0) < 0.0
  {
    GatingRateSign(r, 0.0);
    GatingRateSign(r, 1.0);
  }

  // ---------------------------------------------------------------------
  // Membrane current and voltage (lines 89-90, 104, 110-113)
  // ---------------------------------------------------------------------

  /** The state variables `vm`, `m`, `n`, `h` of the neuron. */
  datatype NeuronState = NeuronState(vm: real, m: real, n: real, h: real)

  /** The sodium term `gna*m**3*h*(Ena-vm)`. */
  function SodiumCurrent(p: ParameterSet, s: NeuronState): (i: real)
  {
    p.gna * (s.m * s.m * s.m) * s.h * (p.ena - s.vm)
  }

  /** The leak term `gl*(El-vm)`. */
  function LeakCurrent(p: ParameterSet, s: NeuronState): (i: real)
  {
    p.gl * (p.el - s.vm)
  }

  /** The potassium term `gk*n**4*(Ek-vm)`. */
  function PotassiumCurrent(p: ParameterSet, s: NeuronState): (i: real)
  {
    p.gk * (s.n * s.n * s.n * s.n) * (p.ek - s.vm)
  }

  /** `membrane_Im`: the injected current plus the three channel terms. */
  function MembraneCurrent(ie: real, p: ParameterSet, s: NeuronState): (i: real)
  {
    ie + SodiumCurrent(p, s) + LeakCurrent(p, s) + PotassiumCurrent(p, s)
  }

  /** The conductance the channels present at the state's gating values. */
  function TotalConductance(p: ParameterSet, s: NeuronState): (g: real)
  {
    p.gna * (s.m * s.m * s.m) * s.h + p.gl + p.gk * (s.n * s.n * s.n * s.n)
  }

  /** Each channel term vanishes when the membrane sits at its reversal
      potential. */
  lemma ChannelTermsVanishAtReversal(p: ParameterSet, s: NeuronState)
    ensures s.vm == p.ena ==> SodiumCurrent(p, s) == 0.0
    ensures s.vm == p.el ==> LeakCurrent(p, s) == 0.0
    ensures s.vm == p.ek ==> PotassiumCurrent(p, s) == 0.0
  {
  }

  /** The membrane current is the injected current plus the total conductance
      times the distance from the conductance-weighted reversal potential. */
  lemma MembraneCurrentLinearInVoltage(ie: real, p: ParameterSet, s: NeuronState)
    ensures MembraneCurrent(ie, p, s) ==
            ie + (p.gna * (s.m * s.m * s.m) * s.h * p.ena + p.gl * p.el + p.gk * (s.n * s.n * s.n * s.n) * p.ek)
               - TotalConductance(p, s) * s.vm
  {
    var gNa := p.gna * (s.m * s.m * s.m) * s.h;
    var gK := p.gk * (s.n * s.n * s.n * s.n);
    assert SodiumCurrent(p, s) == gNa * p.ena - gNa * s.vm;
    assert PotassiumCurrent(p, s) == gK * p.ek - gK * s.vm;
  }

  /** With a positive leak, non-negative channel conductances and
      non-negative `m` and `h`, raising the voltage strictly lowers the
      membrane current. */
  lemma MembraneCurrentDecreasing(ie: real, p: ParameterSet, s: NeuronState, v: real)
    requires p.gl > 0.0 && p.gna >= 0.0 && p.gk >= 0.0 && s.m >= 0.0 && s.h >= 0.0
    requires s.vm < v
    ensures MembraneCurrent(ie, p, s.(vm := v)) < MembraneCurrent(ie, p, s)
  {
    var s' := s.(vm := v);
    MembraneCurrentLinearInVoltage(ie, p, s);
    MembraneCurrentLinearInVoltage(ie, p, s');
    var g := TotalConductance(p, s);
    assert TotalConductance(p, s') == g;
    assert g > 0.0 by {
      assert s.m * s.m * s.m >= 0.0;
      assert p.gna * (s.m * s.m * s.m) * s.h >= 0.0;
      assert p.gk * (s.n * s.n * s.n * s.n) >= 0.0;
    }
    assert g * v > g * s.vm;
  }

  /** With the gates held fixed and a non-zero total conductance, the single
      voltage at which the membrane current vanishes. */
  lemma ZeroCurrentVoltage(ie: real, p: ParameterSet, s: NeuronState)
    requires TotalConductance(p, s) != 0.0
    ensures var g := TotalConductance(p, s);
            var vRest := (ie + p.gna * (s.m * s.m * s.m) * s.h * p.ena + p.gl * p.el
                          + p.gk * (s.n * s.n * s.n * s.n) * p.ek) / g;
            MembraneCurrent(ie, p, s) == 0.0 <==> s.vm == vRest
  {
    MembraneCurrentLinearInVoltage(ie, p, s);
    var g := TotalConductance(p, s);
    var e := ie + p.gna * (s.m * s.m * s.m) * s.h * p.ena + p.gl * p.el
             + p.gk * (s.n * s.n * s.n * s.n) * p.ek;
    assert MembraneCurrent(ie, p, s) == e - g * s.vm;
    assert g * (e / g) == e;
    if s.vm == e / g {
      assert g * s.vm == e;
    }
    if MembraneCurrent(ie, p, s) == 0.0 {
      assert s.vm == e / g;
    }
  }

  /** `dvm/dt = membrane_Im/C`. */
  function VoltageRate(ie: real, p: ParameterSet, s: NeuronState): (dv: real)
    requires p.c != 0.0
    ensures dv * p.c == MembraneCurrent(ie, p, s)
    ensures p.c > 0.0 ==> (dv > 0.0 <==> MembraneCurrent(ie, p, s) > 0.0)
    ensures p.c > 0.0 ==> (dv < 0.0 <==> MembraneCurrent(ie, p, s) < 0.0)
    ensures p.c < 0.0 ==> (dv > 0.0 <==> MembraneCurrent(ie, p, s) < 0.0)
  {
    MembraneCurrent(ie, p, s) / p.c
  }

  /** The state at time 0: the voltage is `v0` and each gate starts at its
      steady state, with the rates evaluated at `v0`. Every gate then lies
      strictly inside the unit interval and starts at rest. */
  function InitialState(v0: real, mRates: Rates, nRates: Rates, hRates: Rates): (s: NeuronState)
    requires mRates.alpha + mRates.beta != 0.0
    requires nRates.alpha + nRates.beta != 0.0
    requires hRates.alpha + hRates.beta != 0.0
    ensures s.vm == v0
    ensures PositiveRates(mRates) ==> 0.0 < s.m < 1.0
    ensures PositiveRates(nRates) ==> 0.0 < s.n < 1.0
    ensures PositiveRates(hRates) ==> 0.0 < s.h < 1.0
    ensures GatingRate(mRates, s.m) == 0.0 && GatingRate(nRates, s.n) == 0.0 &&
            GatingRate(hRates, s.h) == 0.0
  {
    NeuronState(v0, SteadyState(mRates), SteadyState(nRates), SteadyState(hRates))
  }
}
