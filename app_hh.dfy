/** The two callbacks of the dashboard (brian_dash/apps/app_HH.py): choosing
    the rows of the current table that belong to the selected stimulus kind,
    and gathering the stimulus and model parameters before the simulator is
    started. Rendering, widgets and the charts are not part of this model. */
module AppHH {
  import opened Wrappers
  import opened HH

  /** The stimulus kinds offered by the selector: 1 is step, 2 is ramp, and
      every other value is treated as the sinusoid. */
  datatype WaveKind = Step | Ramp | Sinusoid

  /** The three-way branch on `idx = int(value)` that both callbacks make. */
  function KindOf(idx: int): (k: WaveKind)
    ensures k == Step <==> idx == 1
    ensures k == Ramp <==> idx == 2
    ensures k == Sinusoid <==> idx != 1 && idx != 2
  {
    if idx == 1 then Step else if idx == 2 then Ramp else Sinusoid
  }

  /** The flag column of a row that belongs to kind `k`. */
  function Flag(k: WaveKind, r: Row): (f: real)
  {
    match k
    case Step => r.step
    case Ramp => r.ramp
    case Sinusoid => r.sin
  }

  /** `xs` is `ys` with some rows left out, the rest in their original order. */
  predicate IsSubsequence(xs: seq<Row>, ys: seq<Row>)
    decreases |ys|
  {
    if xs == [] then true
    else if ys == [] then false
    else if xs[0] == ys[0] then IsSubsequence(xs[1..], ys[1..])
    else IsSubsequence(xs, ys[1..])
  }

  /** `df.loc[df[<flag of k>] == 1]`: the rows whose flag for `k` is 1, in
      table order. */
  function RowsWithFlag(df: seq<Row>, k: WaveKind): (rs: seq<Row>)
    ensures |rs| <= |df|
    ensures forall r :: r in rs <==> r in df && Flag(k, r) == 1.0
    ensures IsSubsequence(rs, df)
  {
    if df == [] then []
    else
      var rest := RowsWithFlag(df[1..], k);
      assert forall r :: r in df <==> r == df[0] || r in df[1..];
      if Flag(k, df[0]) == 1.0 then
        assert ([df[0]] + rest)[1..] == rest;
        [df[0]] + rest
      else
        assert rest != [] ==> rest[0] in rest;
        rest
  }

  /** Selection distributes over concatenation, so the relative order of the
      kept rows is the table's. */
  lemma {:induction false} RowsWithFlagConcat(a: seq<Row>, b: seq<Row>, k: WaveKind)
    ensures RowsWithFlag(a + b, k) == RowsWithFlag(a, k) + RowsWithFlag(b, k)
  {
    if a == [] {
      assert a + b == b;
    } else {
      assert (a + b)[1..] == a[1..] + b;
      RowsWithFlagConcat(a[1..], b, k);
    }
  }

  /** A row occurs in the selection exactly as often as in the table when
      its flag is 1, and not at all otherwise. */
  lemma {:induction false} RowsWithFlagCount(df: seq<Row>, k: WaveKind, r: Row)
    ensures multiset(RowsWithFlag(df, k))[r] == if Flag(k, r) == 1.0 then multiset(df)[r] else 0
  {
    if df != [] {
      RowsWithFlagCount(df[1..], k, r);
      assert df == [df[0]] + df[1..];
      assert multiset(df) == multiset([df[0]]) + multiset(df[1..]);
    }
  }

  /** The count of every row at once, as `update_current_table` promises it. */
  lemma RowsWithFlagCountAll(df: seq<Row>, k: WaveKind)
    ensures forall r :: multiset(RowsWithFlag(df, k))[r] ==
                        if Flag(k, r) == 1.0 then multiset(df)[r] else 0
  {
    forall r {
      RowsWithFlagCount(df, k, r);
    }
  }

  /** Looking a name up in the selected rows finds the first row with that
      name whose flag for `k` is 1; earlier rows of that name without the
      flag are skipped. */
  lemma {:induction false} LookupInSelection(df: seq<Row>, k: WaveKind, name: string, i: int)
    requires 0 <= i < |df| && df[i].parameter == name && Flag(k, df[i]) == 1.0
    requires forall j :: 0 <= j < i && df[j].parameter == name ==> Flag(k, df[j]) != 1.0
    ensures FilterDataframe(RowsWithFlag(df, k), name) == Some(df[i].value)
  {
    var rest := RowsWithFlag(df[1..], k);
    if i == 0 {
      assert RowsWithFlag(df, k) == [df[0]] + rest;
      assert IsFirstMatch([df[0]] + rest, name, 0);
    } else {
      LookupInSelection(df[1..], k, name, i - 1);
      if Flag(k, df[0]) == 1.0 {
        assert df[0].parameter != name;
        FilterIgnoresOtherRows([], df[0], rest, name);
        assert [] + [df[0]] + rest == RowsWithFlag(df, k);
        assert [] + rest == rest;
      }
    }
  }

  /** The lookup in the selected rows gives `None` exactly when no row with
      the name carries the flag of `k`: then the `PreventUpdate` gate of
      `update_output` stops the callback. */
  lemma LookupInSelectionNone(df: seq<Row>, k: WaveKind, name: string)
    ensures FilterDataframe(RowsWithFlag(df, k), name).None? <==>
            forall j :: 0 <= j < |df| && df[j].parameter == name ==> Flag(k, df[j]) != 1.0
  {
    var rs := RowsWithFlag(df, k);
    FilterNoneIffAbsent(rs, name);
    if forall j :: 0 <= j < |df| && df[j].parameter == name ==> Flag(k, df[j]) != 1.0 {
      forall i | 0 <= i < |rs|
        ensures rs[i].parameter != name
      {
        assert rs[i] in rs;
        var j :| 0 <= j < |df| && df[j] == rs[i];
      }
    } else {
      var j :| 0 <= j < |df| && df[j].parameter == name && Flag(k, df[j]) == 1.0;
      assert df[j] in rs;
      var i :| 0 <= i < |rs| && rs[i] == df[j];
    }
  }

  /** `update_current_table(value)`: the rows of the current table that belong
      to the selected kind, in their original order. */
  function UpdateCurrentTable(dfCurrent: seq<Row>, value: int): (rs: seq<Row>)
    ensures value == 1 ==> forall r :: r in rs <==> r in dfCurrent && r.step == 1.0
    ensures value == 2 ==> forall r :: r in rs <==> r in dfCurrent && r.ramp == 1.0
    ensures value != 1 && value != 2 ==> forall r :: r in rs <==> r in dfCurrent && r.sin == 1.0
    ensures IsSubsequence(rs, dfCurrent)
    ensures forall r :: multiset(rs)[r] ==
                        if Flag(KindOf(value), r) == 1.0 then multiset(dfCurrent)[r] else 0
  {
    RowsWithFlagCountAll(dfCurrent, KindOf(value));
    if value == 1 then RowsWithFlag(dfCurrent, Step)
    else if value == 2 then RowsWithFlag(dfCurrent, Ramp)
    else RowsWithFlag(dfCurrent, Sinusoid)
  }

  /** Python's `int()` applied to a number: truncation toward zero. */
  function PyInt(x: real): (n: int)
    ensures x >= 0.0 ==> 0 <= n && n as real <= x < n as real + 1.0
    ensures x < 0.0 ==> n <= 0 && n as real - 1.0 < x <= n as real
  {
    if x >= 0.0 then x.Floor else -((-x).Floor)
  }

  /** The arguments handed to the unseen current generators
      `get_step_current`, `get_ramp_current` and `get_sinusoidal_current`
      (times in ms, amplitudes in uA, frequency in Hz). */
  datatype Waveform =
    | StepCurrent(tStart: int, tEnd: int, amplitude: real)
    | RampCurrent(tStart: int, tEnd: int, amplitudeStart: real, amplitudeEnd: real)
    | SinusoidalCurrent(tStart: int, tEnd: int, amplitude: real, frequency: real,
                        directCurrent: real, phaseOffset: real)

  /** The current-table names each kind needs, in the order `list_par` holds
      them. */
  function RequiredCurrentParameters(k: WaveKind): seq<string>
  {
    match k
    case Step => ["amplitude"]
    case Ramp => ["amplitude start", "amplitude end"]
    case Sinusoid => ["frequency", "direct current", "phase offset", "amplitude"]
  }

  /** The lookup of each of `names`, in order. */
  function Lookups(df: seq<Row>, names: seq<string>): (vs: seq<Option<real>>)
    ensures |vs| == |names|
    ensures forall j :: 0 <= j < |names| ==> vs[j] == FilterDataframe(df, names[j])
  {
    if names == [] then [] else [FilterDataframe(df, names[0])] + Lookups(df, names[1..])
  }

  /** Every current parameter that kind `k` needs is in the table. */
  predicate CurrentParametersPresent(tableCurrent: seq<Row>, k: WaveKind)
  {
    None !in Lookups(tableCurrent, RequiredCurrentParameters(k))
  }

  /** The three times looked up before any branch, and converted with `int()`
      without a check for `None`. */
  predicate TimingsPresent(tablePar: seq<Row>, tableCurrent: seq<Row>)
  {
    FilterDataframe(tableCurrent, "end time").Some? &&
    FilterDataframe(tableCurrent, "start time").Some? &&
    FilterDataframe(tablePar, "simulation time").Some?
  }

  /** `w` is the generator call for kind `k`, with its amplitudes, frequency
      and phase taken from the table. */
  predicate WaveformFromTable(w: Waveform, k: WaveKind, tableCurrent: seq<Row>)
  {
    match k
    case Step =>
      w.StepCurrent? && FilterDataframe(tableCurrent, "amplitude") == Some(w.amplitude)
    case Ramp =>
      w.RampCurrent? && FilterDataframe(tableCurrent, "amplitude start") == Some(w.amplitudeStart) &&
      FilterDataframe(tableCurrent, "amplitude end") == Some(w.amplitudeEnd)
    case Sinusoid =>
      w.SinusoidalCurrent? && FilterDataframe(tableCurrent, "frequency") == Some(w.frequency) &&
      FilterDataframe(tableCurrent, "direct current") == Some(w.directCurrent) &&
      FilterDataframe(tableCurrent, "phase offset") == Some(w.phaseOffset) &&
      FilterDataframe(tableCurrent, "amplitude") == Some(w.amplitude)
  }

  /** What one run of the display callback ends in. `Raised(n)`: a lookup of
      `n` gave `None` and the following `int()` or multiplication by a unit
      raised. `Blocked`: `PreventUpdate`, the chart is left as it was.
      `Simulated`: the simulator was started with these parameters, this
      current and this duration in ms. */
  datatype Outcome =
    | Raised(missing: string)
    | Blocked
    | Simulated(parameters: ParameterSet, current: Waveform, simulationTime: int)

  /** The step branch of `update_output`: `list_par` gets the amplitude, and
      `get_step_current` is called only when it is not `None`. */
  method CollectStepParameters(tableCurrent: seq<Row>, tStart: int, tEnd: int)
    returns (listPar: seq<Option<real>>, current: Option<Waveform>)
    ensures listPar == Lookups(tableCurrent, RequiredCurrentParameters(Step))
    ensures current.Some? <==> None !in listPar
    ensures current.Some? ==>
              current.value.tStart == tStart && current.value.tEnd == tEnd &&
              WaveformFromTable(current.value, Step, tableCurrent)
  {
    listPar := [];
    current := None;
    var amplitude := FilterDataframe(tableCurrent, "amplitude");
    listPar := listPar + [amplitude];
    if None !in listPar {
      current := Some(StepCurrent(tStart, tEnd, amplitude.value));
    }
  }

  /** The ramp branch: `list_par` is extended with the start and end
      amplitudes, and `get_ramp_current` is called only when neither is
      `None`. */
  method CollectRampParameters(tableCurrent: seq<Row>, tStart: int, tEnd: int)
    returns (listPar: seq<Option<real>>, current: Option<Waveform>)
    ensures listPar == Lookups(tableCurrent, RequiredCurrentParameters(Ramp))
    ensures current.Some? <==> None !in listPar
    ensures current.Some? ==>
              current.value.tStart == tStart && current.value.tEnd == tEnd &&
              WaveformFromTable(current.value, Ramp, tableCurrent)
  {
    listPar := [];
    current := None;
    var amplitudeStart := FilterDataframe(tableCurrent, "amplitude start");
    var amplitudeEnd := FilterDataframe(tableCurrent, "amplitude end");
    listPar := listPar + [amplitudeStart, amplitudeEnd];
    if None !in listPar {
      current := Some(RampCurrent(tStart, tEnd, amplitudeStart.value, amplitudeEnd.value));
    }
  }

  /** The sinusoid branch: `list_par` is extended with the frequency, the
      direct current, the phase offset and the amplitude, and
      `get_sinusoidal_current` is called only when none of them is `None`. */
  method CollectSinusoidParameters(tableCurrent: seq<Row>, tStart: int, tEnd: int)
    returns (listPar: seq<Option<real>>, current: Option<Waveform>)
    ensures listPar == Lookups(tableCurrent, RequiredCurrentParameters(Sinusoid))
    ensures current.Some? <==> None !in listPar
    ensures current.Some? ==>
              current.value.tStart == tStart && current.value.tEnd == tEnd &&
              WaveformFromTable(current.value, Sinusoid, tableCurrent)
  {
    listPar := [];
    current := None;
    var frequency := FilterDataframe(tableCurrent, "frequency");
    var directCurrent := FilterDataframe(tableCurrent, "direct current");
    var phaseOffset := FilterDataframe(tableCurrent, "phase offset");
    var amplitude := FilterDataframe(tableCurrent, "amplitude");
    listPar := listPar + [frequency, directCurrent, phaseOffset, amplitude];
    if None !in listPar {
      current := Some(SinusoidalCurrent(tStart, tEnd, amplitude.value, frequency.value,
                                        directCurrent.value, phaseOffset.value));
    }
  }

  /** `update_output(table_par, table_current, value)` up to the start of the
      simulation: the timing lookups, the per-kind `list_par`, the
      `PreventUpdate` gate and the parameter reading of `simulate_HH_neuron`.
      The gate covers the stimulus parameters only: a missing time raises
      before it, and a missing model parameter such as `C` raises after it. */
  method UpdateOutput(tablePar: seq<Row>, tableCurrent: seq<Row>, value: int) returns (out: Outcome)
    ensures FilterDataframe(tableCurrent, "end time").None? ==> out == Raised("end time")
    ensures (FilterDataframe(tableCurrent, "end time").Some? &&
             FilterDataframe(tableCurrent, "start time").None?) ==> out == Raised("start time")
    ensures (FilterDataframe(tableCurrent, "end time").Some? &&
             FilterDataframe(tableCurrent, "start time").Some? &&
             FilterDataframe(tablePar, "simulation time").None?) ==> out == Raised("simulation time")
    ensures out.Blocked? <==>
            TimingsPresent(tablePar, tableCurrent) && !CurrentParametersPresent(tableCurrent, KindOf(value))
    ensures (TimingsPresent(tablePar, tableCurrent) && CurrentParametersPresent(tableCurrent, KindOf(value)) &&
             ReadParameters(tablePar).Err?) ==> out == Raised(ReadParameters(tablePar).error)
    ensures out.Simulated? <==>
            TimingsPresent(tablePar, tableCurrent) && CurrentParametersPresent(tableCurrent, KindOf(value)) &&
            ReadParameters(tablePar).Ok?
    ensures out.Simulated? ==>
            out.parameters == ReadParameters(tablePar).value &&
            out.simulationTime == PyInt(FilterDataframe(tablePar, "simulation time").value) &&
            out.current.tStart == PyInt(FilterDataframe(tableCurrent, "start time").value) &&
            out.current.tEnd == PyInt(FilterDataframe(tableCurrent, "end time").value) &&
            WaveformFromTable(out.current, KindOf(value), tableCurrent)
  {
    var endTime := FilterDataframe(tableCurrent, "end time");
    if endTime.None? {
      return Raised("end time");
    }
    var tEnd := PyInt(endTime.value);
    var startTime := FilterDataframe(tableCurrent, "start time");
    if startTime.None? {
      return Raised("start time");
    }
    var tStart := PyInt(startTime.value);
    var simulationTime := FilterDataframe(tablePar, "simulation time");
    if simulationTime.None? {
      return Raised("simulation time");
    }
    var tSimulation := PyInt(simulationTime.value);

    var listPar: seq<Option<real>>, current: Option<Waveform>;
    if value == 1 {
      listPar, current := CollectStepParameters(tableCurrent, tStart, tEnd);
    } else if value == 2 {
      listPar, current := CollectRampParameters(tableCurrent, tStart, tEnd);
    } else {
      listPar, current := CollectSinusoidParameters(tableCurrent, tStart, tEnd);
    }

    if None in listPar {
      out := Blocked;
    } else {
      var parameters := ReadParameters(tablePar);
      if parameters.Err? {
        out := Raised(parameters.error);
      } else {
        out := Simulated(parameters.value, current.value, tSimulation);
      }
    }
  }
}
