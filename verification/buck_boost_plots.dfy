/**
 * Waveform breakpoints of the buck-boost converter calculator: the x and y
 * lists each `__plot_*` method hands to the charting library over two
 * switching periods, and the `plot_graphs` dispatch on a two-letter code.
 * A jump is drawn as a segment of width `Nudge`.
 */
module BuckBoostPlots {
  import opened Common
  import opened BuckBoostCalc

  /** The 1e-9 s width of a drawn jump. */
  const Nudge: real := 0.000000001

  /** The waveforms read the DCM fall duration tx, which only DCM has. */
  predicate Plottable(b: BuckBoost) {
    b.mode == Dcm ==> b.tx.Some?
  }

  /** Two periods with the on-time marked: [0, DT, t, t + DT, 2t]. */
  function OnOffGrid(b: BuckBoost): seq<real> {
    [0.0, b.dt, b.t, b.t + b.dt, 2.0 * b.t]
  }

  /** CCM grid with a jump right after 0, DT, t and t + DT. */
  function CcmTurnOnGrid(b: BuckBoost): seq<real> {
    var k := Nudge;
    [0.0, k, b.dt, b.dt + k, b.t, b.t + k, b.t + b.dt, b.t + b.dt + k, 2.0 * b.t]
  }

  /** CCM grid with a jump right after DT, t, t + DT and 2t. */
  function CcmTurnOffGrid(b: BuckBoost): seq<real> {
    var k := Nudge;
    [0.0, b.dt, b.dt + k, b.t, b.t + k, b.t + b.dt, b.t + b.dt + k, 2.0 * b.t, 2.0 * b.t + k]
  }

  /** DCM inductor-current grid: on-time, fall end, period. */
  function DcmInductorGrid(b: BuckBoost): seq<real>
    requires b.tx.Some?
  {
    var e := FallEnd(b);
    [0.0, b.dt, e, b.t, b.t + b.dt, b.t + e, 2.0 * b.t]
  }

  /** DCM grid of the switch, diode and capacitor currents: a jump after
      each turn-off. */
  function DcmCurrentGrid(b: BuckBoost): seq<real>
    requires b.tx.Some?
  {
    var k := Nudge;
    var e := FallEnd(b);
    [0.0, b.dt, b.dt + k, e, b.t, b.t + b.dt, b.t + b.dt + k, b.t + e, 2.0 * b.t]
  }

  /** DCM grid of the switch and diode voltages: a jump after turn-off,
      after the fall end and after turn-on. */
  function DcmVoltageGrid(b: BuckBoost): seq<real>
    requires b.tx.Some?
  {
    var k := Nudge;
    var e := FallEnd(b);
    [0.0, b.dt, b.dt + k, e, e + k, b.t, b.t + k, b.t + b.dt, b.t + b.dt + k,
     b.t + e, b.t + e + k, 2.0 * b.t, 2.0 * b.t + k]
  }

  /** DCM grid of the inductor voltage: a jump after turn-on, turn-off and
      the fall end. */
  function DcmInductorVoltageGrid(b: BuckBoost): seq<real>
    requires b.tx.Some?
  {
    var k := Nudge;
    var e := FallEnd(b);
    [0.0, k, b.dt, b.dt + k, e, e + k, b.t, b.t + k, b.t + b.dt, b.t + b.dt + k,
     b.t + e, b.t + e + k, 2.0 * b.t]
  }

  /** `__plot_is`: switch current, which conducts the inductor current during
      the on-time. */
  function SwitchCurrent(b: BuckBoost): (w: Wave)
    requires Plottable(b)
    ensures |w.x| == |w.y| == 9
    ensures forall i :: 0 <= i < |w.y| ==> w.y[i] == 0.0 || w.y[i] == b.ilMin || w.y[i] == b.ilMax
    ensures RepeatsAfter(w.y, 4) && ShiftsAfter(w.x, 4, b.t, 0)
    ensures w.y[if b.mode == Dcm then 1 else 2] == b.ilMax
    ensures w.x[0] == 0.0 && w.y[0] == 0.0
    ensures b.mode == Dcm ==> w.x[1] == b.dt && w.y[2] == w.y[3] == w.y[4] == 0.0
    ensures b.mode == Ccm ==>
              w.x[1] == Nudge && w.x[2] == b.dt && w.y[1] == b.ilMin && w.y[3] == w.y[4] == 0.0
  {
    match b.mode
    case Dcm =>
      var m := b.ilMax;
      Wave(DcmCurrentGrid(b), [0.0, m, 0.0, 0.0, 0.0, m, 0.0, 0.0, 0.0])
    case Ccm =>
      var lo, hi := b.ilMin, b.ilMax;
      Wave(CcmTurnOnGrid(b), [0.0, lo, hi, 0.0, 0.0, lo, hi, 0.0, 0.0])
  }

  /** `__plot_vd`: diode voltage, reverse-biased by vi + vo during the
      on-time, zero while it conducts, -vo once the DCM current is zero. */
  function DiodeVoltage(b: BuckBoost): (w: Wave)
    requires Plottable(b)
    ensures |w.x| == |w.y| == (if b.mode == Ccm then 9 else 13)
    ensures forall i :: 0 <= i < |w.y| ==>
              w.y[i] == -(b.vi + b.vo) || w.y[i] == 0.0 || w.y[i] == -b.vo
    ensures w.y[0] == w.y[1] == -(b.vi + b.vo) && w.y[2] == w.y[3] == 0.0
    ensures b.mode == Dcm ==> w.y[4] == w.y[5] == -b.vo
    ensures w.x[0] == 0.0 && w.x[1] == b.dt && w.x[2] == b.dt + Nudge
    ensures w.x[3] == (if b.mode == Ccm then b.t else FallEnd(b))
    ensures b.mode == Dcm ==> w.x[4] == FallEnd(b) + Nudge && w.x[5] == b.t
    ensures w.x[if b.mode == Ccm then 4 else 6] == b.t + Nudge
    ensures b.mode == Ccm ==> RepeatsAfter(w.y, 4) && ShiftsAfter(w.x, 4, b.t, 1)
    ensures b.mode == Dcm ==> RepeatsAfter(w.y, 6) && ShiftsAfter(w.x, 6, b.t, 1)
  {
    match b.mode
    case Dcm => DcmDiodeVoltage(b)
    case Ccm => CcmDiodeVoltage(b)
  }

  function DcmDiodeVoltage(b: BuckBoost): (w: Wave)
    requires b.tx.Some?
    ensures |w.x| == |w.y| == 13
    ensures forall i :: 0 <= i < |w.y| ==>
              w.y[i] == -(b.vi + b.vo) || w.y[i] == 0.0 || w.y[i] == -b.vo
    ensures w.y[0] == w.y[1] == -(b.vi + b.vo) && w.y[2] == w.y[3] == 0.0
    ensures w.y[4] == w.y[5] == -b.vo
    ensures w.x[0] == 0.0 && w.x[1] == b.dt && w.x[2] == b.dt + Nudge
    ensures w.x[3] == FallEnd(b) && w.x[4] == FallEnd(b) + Nudge && w.x[5] == b.t
    ensures w.x[6] == b.t + Nudge
    ensures RepeatsAfter(w.y, 6) && ShiftsAfter(w.x, 6, b.t, 1)
  {
    var s := -b.vi - b.vo;
    var o := -b.vo;
    Wave(DcmVoltageGrid(b), [s, s, 0.0, 0.0, o, o, s, s, 0.0, 0.0, o, o, s])
  }

  function CcmDiodeVoltage(b: BuckBoost): (w: Wave)
    ensures |w.x| == |w.y| == 9
    ensures forall i :: 0 <= i < |w.y| ==> w.y[i] == -(b.vi + b.vo) || w.y[i] == 0.0
    ensures w.y[0] == w.y[1] == -(b.vi + b.vo) && w.y[2] == w.y[3] == 0.0
    ensures w.x[0] == 0.0 && w.x[1] == b.dt && w.x[2] == b.dt + Nudge
    ensures w.x[3] == b.t && w.x[4] == b.t + Nudge
    ensures RepeatsAfter(w.y, 4) && ShiftsAfter(w.x, 4, b.t, 1)
  {
    var s := -b.vi - b.vo;
    Wave(CcmTurnOffGrid(b), [s, s, 0.0, 0.0, s, s, 0.0, 0.0, s])
  }

  /** `__plot_vs`: switch voltage. On the diode's grid the switch voltage
      minus the diode voltage is vi + vo at every breakpoint. */
  function SwitchVoltage(b: BuckBoost): (w: Wave)
    requires Plottable(b)
    ensures w.x == DiodeVoltage(b).x && |w.y| == |w.x|
    ensures forall i :: 0 <= i < |w.y| ==> w.y[i] - DiodeVoltage(b).y[i] == b.vi + b.vo
  {
    var s := b.vi + b.vo;
    var vi := b.vi;
    match b.mode
    case Dcm =>
      Wave(DcmVoltageGrid(b), [0.0, 0.0, s, s, vi, vi, 0.0, 0.0, s, s, vi, vi, 0.0])
    case Ccm =>
      Wave(CcmTurnOffGrid(b), [0.0, 0.0, s, s, 0.0, 0.0, s, s, 0.0])
  }

  /** `__plot_il`: inductor current. The first period starts at the valley
      (zero in DCM), peaks at the end of the on-time and, in DCM, is back at
      zero at the fall end; one period later (two entries in CCM, three in
      DCM) time advances by t and the value repeats. The DCM times use the
      corrected fall end DT + tx. */
  function InductorCurrent(b: BuckBoost): (w: Wave)
    requires Plottable(b)
    ensures |w.x| == |w.y| == (if b.mode == Ccm then 5 else 7)
    ensures forall i :: 0 <= i < |w.y| ==>
              w.y[i] == (if b.mode == Ccm then b.ilMin else 0.0) || w.y[i] == b.ilMax
    ensures w.y[0] == (if b.mode == Ccm then b.ilMin else 0.0) && w.y[1] == b.ilMax
    ensures w.x[0] == 0.0 && w.x[1] == b.dt
    ensures b.mode == Dcm ==> w.y[2] == 0.0 && w.x[2] == FallEnd(b)
    ensures b.mode == Ccm ==> RepeatsAfter(w.y, 2) && ShiftsAfter(w.x, 2, b.t, 0)
    ensures b.mode == Dcm ==> RepeatsAfter(w.y, 3) && ShiftsAfter(w.x, 3, b.t, 0)
  {
    match b.mode
    case Dcm =>
      var m := b.ilMax;
      Wave(DcmInductorGrid(b), [0.0, m, 0.0, 0.0, m, 0.0, 0.0])
    case Ccm =>
      var lo, hi := b.ilMin, b.ilMax;
      Wave(OnOffGrid(b), [lo, hi, lo, hi, lo])
  }

  /** `__plot_il` in DCM as written: the fall-end breakpoints sit at tx and
      t + tx, the fall duration read as an instant. */
  function InductorCurrentDcmAsWritten(b: BuckBoost): (w: Wave)
    requires b.mode == Dcm && b.tx.Some?
    ensures w.y == InductorCurrent(b).y && |w.x| == 7
    ensures w.x[2] == FallEndAsWritten(b) && w.x[5] == b.t + FallEndAsWritten(b)
    ensures forall i :: 0 <= i < 7 && i != 2 && i != 5 ==> w.x[i] == InductorCurrent(b).x[i]
  {
    var x := FallEndAsWritten(b);
    var m := b.ilMax;
    Wave([0.0, b.dt, x, b.t, b.t + b.dt, b.t + x, 2.0 * b.t], [0.0, m, 0.0, 0.0, m, 0.0, 0.0])
  }

  /** The evidently intended `__plot_vl`: inductor voltage vi while the switch
      conducts, -vo while the diode conducts, 0 while the DCM current is
      zero. Every level is drawn as a step over a `Nudge`-wide jump, so each
      level fills two consecutive breakpoints; the CCM list opens on the
      off-time level -vo of the period before. */
  function InductorVoltage(b: BuckBoost): (w: Wave)
    requires Plottable(b)
    ensures |w.x| == |w.y| == (if b.mode == Ccm then 9 else 13)
    ensures forall i :: 0 <= i < |w.y| ==> w.y[i] == b.vi || w.y[i] == -b.vo || w.y[i] == 0.0
    ensures w.y[1] == w.y[2] == b.vi && w.y[3] == w.y[4] == -b.vo
    ensures b.mode == Dcm ==> w.y[0] == w.y[5] == 0.0
    ensures b.mode == Ccm ==> w.y[0] == -b.vo
    ensures b.mode == Ccm ==>
              RepeatsAfter(w.y, 4) && ShiftsAfter(w.x, 4, b.t, 0) && w.x == SwitchCurrent(b).x
    ensures b.mode == Dcm ==> RepeatsAfter(w.y, 6) && ShiftsAfter(w.x, 6, b.t, 0)
    ensures w.x[0] == 0.0 && w.x[1] == Nudge && w.x[2] == b.dt && w.x[3] == b.dt + Nudge
    ensures b.mode == Ccm ==> w.x[4] == b.t
    ensures b.mode == Dcm ==> w.x[4] == FallEnd(b) && w.x[5] == FallEnd(b) + Nudge
    ensures b.mode == Ccm ==> forall i :: 0 <= i < |w.y| ==> w.y[i] == b.vi || w.y[i] == -b.vo
  {
    match b.mode
    case Dcm => DcmInductorVoltage(b)
    case Ccm => CcmInductorVoltage(b)
  }

  function DcmInductorVoltage(b: BuckBoost): (w: Wave)
    requires b.tx.Some?
    ensures |w.x| == |w.y| == 13
    ensures forall i :: 0 <= i < |w.y| ==> w.y[i] == b.vi || w.y[i] == -b.vo || w.y[i] == 0.0
    ensures w.y[1] == w.y[2] == b.vi && w.y[3] == w.y[4] == -b.vo && w.y[0] == w.y[5] == 0.0
    ensures w.x[0] == 0.0 && w.x[1] == Nudge && w.x[2] == b.dt && w.x[3] == b.dt + Nudge
    ensures w.x[4] == FallEnd(b) && w.x[5] == FallEnd(b) + Nudge
    ensures RepeatsAfter(w.y, 6) && ShiftsAfter(w.x, 6, b.t, 0)
  {
    var vi := b.vi;
    var o := -b.vo;
    Wave(DcmInductorVoltageGrid(b), [0.0, vi, vi, o, o, 0.0, 0.0, vi, vi, o, o, 0.0, 0.0])
  }

  function CcmInductorVoltage(b: BuckBoost): (w: Wave)
    ensures |w.x| == |w.y| == 9
    ensures forall i :: 0 <= i < |w.y| ==> w.y[i] == b.vi || w.y[i] == -b.vo
    ensures w.y[0] == -b.vo && w.y[1] == w.y[2] == b.vi && w.y[3] == w.y[4] == -b.vo
    ensures RepeatsAfter(w.y, 4) && ShiftsAfter(w.x, 4, b.t, 0)
    ensures w.x == CcmTurnOnGrid(b)
  {
    var vi := b.vi;
    var o := -b.vo;
    Wave(CcmTurnOnGrid(b), [o, vi, vi, o, o, vi, vi, o, o])
  }

  /** `__plot_vl` in CCM as written: the off-time level is 0 instead of -vo. */
  function InductorVoltageCcmAsWritten(b: BuckBoost): (w: Wave)
    requires b.mode == Ccm
    ensures w.x == CcmInductorVoltage(b).x && |w.y| == |w.x| == 9
    ensures forall i :: 0 <= i < |w.y| ==> w.y[i] == b.vi || w.y[i] == 0.0
  {
    var vi := b.vi;
    Wave(CcmTurnOnGrid(b), [0.0, vi, vi, 0.0, 0.0, vi, vi, 0.0, 0.0])
  }

  /** `__plot_id`: diode current, which conducts the inductor current after
      turn-off. */
  function DiodeCurrent(b: BuckBoost): (w: Wave)
    requires Plottable(b)
    ensures |w.x| == |w.y| == 9
    ensures forall i :: 0 <= i < |w.y| ==> w.y[i] == 0.0 || w.y[i] == b.ilMin || w.y[i] == b.ilMax
    ensures RepeatsAfter(w.y, 4)
    ensures w.y[0] == w.y[1] == 0.0 && w.y[2] == b.ilMax
    ensures w.y[3] == (if b.mode == Ccm then b.ilMin else 0.0)
    ensures w.x[0] == 0.0 && w.x[1] == b.dt && w.x[2] == b.dt + Nudge
    ensures w.x[3] == (if b.mode == Ccm then b.t else FallEnd(b))
    ensures b.mode == Ccm ==> w.x[4] == b.t + Nudge && ShiftsAfter(w.x, 4, b.t, 1)
    ensures b.mode == Dcm ==> ShiftsAfter(w.x, 4, b.t, 0) && w.x == SwitchCurrent(b).x
  {
    match b.mode
    case Dcm =>
      var m := b.ilMax;
      Wave(DcmCurrentGrid(b), [0.0, 0.0, m, 0.0, 0.0, 0.0, m, 0.0, 0.0])
    case Ccm =>
      var lo, hi := b.ilMin, b.ilMax;
      Wave(CcmTurnOffGrid(b), [0.0, 0.0, hi, lo, 0.0, 0.0, hi, lo, 0.0])
  }

  /** The evidently intended `__plot_ic`: capacitor current, the diode current
      minus the load current at every breakpoint of the diode's grid. */
  function CapacitorCurrent(b: BuckBoost): (w: Wave)
    requires Plottable(b)
    ensures w.x == DiodeCurrent(b).x && |w.y| == |w.x|
    ensures forall i :: 0 <= i < |w.y| ==> w.y[i] == DiodeCurrent(b).y[i] - b.io
  {
    var o := -b.io;
    var hi := b.ilMax - b.io;
    match b.mode
    case Dcm =>
      Wave(DcmCurrentGrid(b), [o, o, hi, o, o, o, hi, o, o])
    case Ccm =>
      var lo := b.ilMin - b.io;
      Wave(CcmTurnOffGrid(b), [o, o, hi, lo, o, o, hi, lo, o])
  }

  /** `__plot_ic` in CCM as written: the last breakpoint reads 0. */
  function CapacitorCurrentCcmAsWritten(b: BuckBoost): (w: Wave)
    requires b.mode == Ccm
    ensures w.x == DiodeCurrent(b).x && |w.y| == |w.x| == 9
    ensures forall i :: 0 <= i < 8 ==> w.y[i] == DiodeCurrent(b).y[i] - b.io
    ensures w.y[8] == 0.0
  {
    var o := -b.io;
    var hi := b.ilMax - b.io;
    var lo := b.ilMin - b.io;
    Wave(CcmTurnOffGrid(b), [o, o, hi, lo, o, o, hi, lo, 0.0])
  }

  /** `__plot_vc`: capacitor voltage, the same in both modes: falling from
      vo + deltVo / 2 to vo - deltVo / 2 during each on-time. */
  function CapacitorVoltage(b: BuckBoost): (w: Wave)
    ensures w.x == OnOffGrid(b) && |w.y| == 5
    ensures forall i :: 0 <= i < |w.y| ==>
              w.y[i] - b.vo == 0.5 * b.deltVo || b.vo - w.y[i] == 0.5 * b.deltVo
    ensures w.y[0] == b.vo + 0.5 * b.deltVo && w.y[1] == b.vo - 0.5 * b.deltVo
    ensures RepeatsAfter(w.y, 2)
  {
    var lo := b.vo - 0.5 * b.deltVo;
    var hi := b.vo + 0.5 * b.deltVo;
    Wave(OnOffGrid(b), [hi, lo, hi, lo, hi])
  }

  /** `__plot_ir`: resistor current, io over two periods. */
  function ResistorCurrent(b: BuckBoost): (w: Wave)
    ensures |w.x| == |w.y| == 3
    ensures forall i :: 0 <= i < 3 ==> w.y[i] == b.io && w.x[i] == (i as real) * b.t
  {
    Wave([0.0, b.t, 2.0 * b.t], [b.io, b.io, b.io])
  }

  /** `__plot_vr`: resistor voltage; the resistor is in parallel with the
      capacitor and the list is the capacitor's. */
  function ResistorVoltage(b: BuckBoost): (w: Wave)
    ensures w.x == CapacitorVoltage(b).x && w.y == CapacitorVoltage(b).y
  {
    var lo := b.vo - 0.5 * b.deltVo;
    var hi := b.vo + 0.5 * b.deltVo;
    Wave(OnOffGrid(b), [hi, lo, hi, lo, hi])
  }

  /** The codes `plot_graphs` answers to. */
  const PlotCodes: seq<string> := ["is", "vs", "il", "vl", "id", "vd", "ic", "vc", "ir", "vr"]

  /** `plot_graphs`: the waveform a code names; no waveform for any other
      string. */
  function PlotGraphs(b: BuckBoost, q: string): (r: Option<Wave>)
    requires Plottable(b)
    ensures r.Some? <==> q in PlotCodes
    ensures q == "is" ==> r == Some(SwitchCurrent(b))
    ensures q == "vs" ==> r == Some(SwitchVoltage(b))
    ensures q == "il" ==> r == Some(InductorCurrent(b))
    ensures q == "vl" ==> r == Some(InductorVoltage(b))
    ensures q == "id" ==> r == Some(DiodeCurrent(b))
    ensures q == "vd" ==> r == Some(DiodeVoltage(b))
    ensures q == "ic" ==> r == Some(CapacitorCurrent(b))
    ensures q == "vc" ==> r == Some(CapacitorVoltage(b))
    ensures q == "ir" ==> r == Some(ResistorCurrent(b))
    ensures q == "vr" ==> r == Some(ResistorVoltage(b))
  {
    if q == "is" then Some(SwitchCurrent(b))
    else if q == "vs" then Some(SwitchVoltage(b))
    else if q == "il" then Some(InductorCurrent(b))
    else if q == "vl" then Some(InductorVoltage(b))
    else if q == "id" then Some(DiodeCurrent(b))
    else if q == "vd" then Some(DiodeVoltage(b))
    else if q == "ic" then Some(CapacitorCurrent(b))
    else if q == "vc" then Some(CapacitorVoltage(b))
    else if q == "ir" then Some(ResistorCurrent(b))
    else if q == "vr" then Some(ResistorVoltage(b))
    else None
  }

  /** Every diode-voltage breakpoint is at most zero and the most negative is
      -(vi + vo); every switch-voltage breakpoint is 0, vi or vi + vo, and the
      largest is vi + vo. */
  lemma SwitchNodeVoltages(b: BuckBoost)
    requires Derived(b)
    ensures forall i :: 0 <= i < |DiodeVoltage(b).y| ==> DiodeVoltage(b).y[i] <= 0.0
    ensures IsMin(-(b.vi + b.vo), DiodeVoltage(b).y)
    ensures forall i :: 0 <= i < |SwitchVoltage(b).y| ==>
              SwitchVoltage(b).y[i] in {0.0, b.vi, b.vi + b.vo}
    ensures IsMax(b.vi + b.vo, SwitchVoltage(b).y)
  {
    var vd := DiodeVoltage(b).y;
    var vs := SwitchVoltage(b).y;
    assert vd[0] == -(b.vi + b.vo);
    assert vs[2] == b.vi + b.vo;
  }

  /** Volt-second balance of the evidently intended inductor voltage: vi over
      the on-time, -vo over the fall, 0 over the DCM idle time, summing to
      zero over a period. */
  lemma VoltSecondBalance(b: BuckBoost)
    requires Designed(b)
    ensures var v := InductorVoltage(b).y;
            b.mode == Ccm ==> v[1] * b.dt + v[3] * (b.t - b.dt) == 0.0
    ensures var v := InductorVoltage(b).y;
            b.mode == Dcm ==>
              v[1] * b.dt + v[3] * (FallEnd(b) - b.dt) + v[5] * (b.t - FallEnd(b)) == 0.0
  {
    if b.mode == Ccm {
      CcmOnOffBalance(b);
      CcmVoltSeconds(b);
    } else {
      FallEndInstant(b);
      DcmVoltSeconds(b);
    }
  }

  /** The CCM levels vi and -vo balance over the on- and off-time whenever the
      on-time volt-seconds equal the off-time ones. */
  lemma CcmVoltSeconds(b: BuckBoost)
    requires b.mode == Ccm && b.vi * b.dt == b.vo * (b.t - b.dt)
    ensures var v := InductorVoltage(b).y; v[1] * b.dt + v[3] * (b.t - b.dt) == 0.0
  {
    var v := InductorVoltage(b).y;
    assert v[1] == b.vi && v[3] == -b.vo;
  }

  /** The DCM levels vi, -vo and 0 balance over the on-time, the fall and the
      idle time whenever the on-time volt-seconds equal the fall's. */
  lemma DcmVoltSeconds(b: BuckBoost)
    requires b.mode == Dcm && b.tx.Some? && b.vi * b.dt == b.vo * (FallEnd(b) - b.dt)
    ensures var v := InductorVoltage(b).y;
            v[1] * b.dt + v[3] * (FallEnd(b) - b.dt) + v[5] * (b.t - FallEnd(b)) == 0.0
  {
    var v := InductorVoltage(b).y;
    assert v[1] == b.vi && v[3] == -b.vo && v[5] == 0.0;
  }

  /** CCM: vi DT = vo (t - DT), because d (vi + vo) = vo. */
  lemma CcmOnOffBalance(b: BuckBoost)
    requires Derived(b) && b.mode == Ccm
    ensures b.vi * b.dt == b.vo * (b.t - b.dt)
  {
    assert b.d * (b.vi + b.vo) == b.vo;
    assert b.vi * b.dt - b.vo * (b.t - b.dt) == b.t * (b.d * (b.vi + b.vo) - b.vo);
  }

  /** The CCM inductor-voltage list as written is never balanced: its levels
      leave vi DT volt-seconds per period. */
  lemma VoltSecondAsWrittenUnbalanced(b: BuckBoost)
    requires Designed(b) && b.mode == Ccm
    ensures var v := InductorVoltageCcmAsWritten(b).y;
            v[1] * b.dt + v[3] * (b.t - b.dt) == b.vi * b.dt
    ensures b.vi * b.dt > 0.0
  {
    assert b.dt > 0.0;
  }

  /** The inductor law L di = v dt between consecutive breakpoints of the
      inductor-current list, with v the inductor-voltage level of that
      interval. */
  lemma InductanceLaw(b: BuckBoost)
    requires Designed(b)
    ensures var i := InductorCurrent(b); var v := InductorVoltage(b).y;
            && b.ind * (i.y[1] - i.y[0]) == v[1] * (i.x[1] - i.x[0])
            && b.ind * (i.y[2] - i.y[1]) == v[3] * (i.x[2] - i.x[1])
    ensures var i := InductorCurrent(b); var v := InductorVoltage(b).y;
            b.mode == Dcm ==> b.ind * (i.y[3] - i.y[2]) == v[5] * (i.x[3] - i.x[2])
  {
    if b.mode == Ccm {
      InductanceLawCcm(b);
    } else {
      InductanceLawDcm(b);
    }
  }

  lemma InductanceLawCcm(b: BuckBoost)
    requires Designed(b) && b.mode == Ccm
    ensures var i := InductorCurrent(b); var v := InductorVoltage(b).y;
            && b.ind * (i.y[1] - i.y[0]) == v[1] * (i.x[1] - i.x[0])
            && b.ind * (i.y[2] - i.y[1]) == v[3] * (i.x[2] - i.x[1])
  {
    CcmOnOffBalance(b);
    assert b.ind * (b.ilMax - b.ilMin) == b.vi * b.dt;
    assert b.ind * (b.ilMin - b.ilMax) == -(b.vi * b.dt);
  }

  lemma InductanceLawDcm(b: BuckBoost)
    requires Designed(b) && b.mode == Dcm
    ensures var i := InductorCurrent(b); var v := InductorVoltage(b).y;
            && b.ind * (i.y[1] - i.y[0]) == v[1] * (i.x[1] - i.x[0])
            && b.ind * (i.y[2] - i.y[1]) == v[3] * (i.x[2] - i.x[1])
            && b.ind * (i.y[3] - i.y[2]) == v[5] * (i.x[3] - i.x[2])
  {
    FallEndInstant(b);
    assert b.ind * b.ilMax == b.vi * b.dt;
  }

  /** The inductor-current breakpoints run forward in time, which in DCM
      needs the fall end to lie between DT and t. */
  lemma InductorCurrentAscending(b: BuckBoost)
    requires Designed(b)
    ensures Ascending(InductorCurrent(b).x)
  {
    OnTimeInsidePeriod(b);
    if b.mode == Dcm {
      FallEndInstant(b);
    }
  }

  /** The DCM inductor-current times as written run forward exactly when
      vi > vo: for vi <= vo the fall "ends" at tx <= DT, no later than the
      peak it falls from. */
  lemma InductorCurrentAsWrittenOrder(b: BuckBoost)
    requires Designed(b) && b.mode == Dcm
    ensures Ascending(InductorCurrentDcmAsWritten(b).x) <==> b.vi > b.vo
  {
    FallEndInstant(b);
    var tx := FallEndAsWritten(b);
    assert b.vo * tx == b.vi * b.dt;
    assert InductorCurrentDcmAsWritten(b).x
        == [0.0, b.dt, tx, b.t, b.t + b.dt, b.t + tx, 2.0 * b.t];
    FallOrder(b.dt, tx, b.t, b.vi, b.vo);
  }

  /** With a rise of DT at slope vi and a fall of tx at slope vo, the times
      0, DT, tx, t, t + DT, t + tx, 2t run forward exactly when vi > vo. */
  lemma FallOrder(dt: real, tx: real, t: real, vi: real, vo: real)
    requires 0.0 < dt && 0.0 < tx < t && 0.0 < vo && vo * tx == vi * dt
    ensures Ascending([0.0, dt, tx, t, t + dt, t + tx, 2.0 * t]) <==> vi > vo
  {
    var x := [0.0, dt, tx, t, t + dt, t + tx, 2.0 * t];
    assert vo * (tx - dt) == (vi - vo) * dt;
    if vi > vo {
      assert (vi - vo) * dt > 0.0;
      assert tx > dt;
    } else {
      assert (vi - vo) * dt <= 0.0;
      assert x[2] <= x[1];
    }
  }

  /** The CCM capacitor-current list as written breaks its own period: the
      last breakpoint reads 0 where one period earlier it read -io, while the
      evidently intended list repeats. */
  lemma CapacitorCurrentAsWrittenBreaksPeriod(b: BuckBoost)
    requires Derived(b) && b.mode == Ccm
    ensures CapacitorCurrentCcmAsWritten(b).y[8] != CapacitorCurrentCcmAsWritten(b).y[4]
    ensures RepeatsAfter(CapacitorCurrent(b).y, 4)
    ensures CapacitorCurrent(b).y[8] == -b.io
  {
    var w := CapacitorCurrent(b);
    var d := DiodeCurrent(b);
    assert w.y[8] == d.y[8] - b.io;
  }

  /** Capacitor charge over the on-time: the capacitor alone feeds the load
      (current -io) and its voltage falls by exactly the ripple deltVo,
      C dv = i dt; the voltage list is centred on vo. */
  lemma CapacitorCharge(b: BuckBoost)
    requires Designed(b)
    ensures var v := CapacitorVoltage(b); var i := CapacitorCurrent(b).y;
            && i[0] == i[1] == -b.io
            && StorageLaw(b.cap, v.y[0], v.y[1], i[0], v.x[0], v.x[1])
    ensures var v := CapacitorVoltage(b).y;
            v[0] - v[1] == b.deltVo && (v[0] + v[1]) / 2.0 == b.vo
  {
    var d := DiodeCurrent(b).y;
    assert d[0] == 0.0 && d[1] == 0.0;
    assert CapacitorVoltage(b) == Wave(OnOffGrid(b), [b.vo + 0.5 * b.deltVo, b.vo - 0.5 * b.deltVo,
                                                      b.vo + 0.5 * b.deltVo, b.vo - 0.5 * b.deltVo,
                                                      b.vo + 0.5 * b.deltVo]);
    OnTimeDischarge(b.cap, b.deltVo, b.io, b.dt, b.vo);
  }

  /** Over the on-time the capacitor voltage falls by the ripple while the
      load draws io, which is what the sizing relation says. */
  lemma OnTimeDischarge(c: real, deltVo: real, io: real, dt: real, vo: real)
    requires CapacitorRelation(c, deltVo, io, dt)
    ensures StorageLaw(c, vo + 0.5 * deltVo, vo - 0.5 * deltVo, -io, 0.0, dt)
  {
  }

  /** Ohm's law at the mean: the resistor current times R is the centre of
      the resistor-voltage list. */
  lemma OhmAtMean(b: BuckBoost)
    requires Derived(b) && Loaded(b)
    ensures forall i :: 0 <= i < |ResistorCurrent(b).y| ==>
              b.res * ResistorCurrent(b).y[i] == (ResistorVoltage(b).y[0] + ResistorVoltage(b).y[1]) / 2.0
  {
    OutputLaw(b);
  }
}
