/**
 * Waveform breakpoints of the buck converter calculator: the x and y lists
 * that each `__plot_*_ccm` / `__plot_*_dcm` method hands to the charting
 * library, over two switching periods. Capacitor and resistor waveforms are
 * composed from the inductor-current waveform instead of being read from
 * fields cached by an earlier plot call.
 */
module BuckPlots {
  import opened Common
  import opened BuckCalc

  /** The time offset 1/f^2 placed after a switching edge so that the chart
      draws the jump as a near-vertical segment. */
  function Jump(b: Buck): real
    requires b.freq != 0.0
  {
    1.0 / (b.freq * b.freq)
  }

  /** Edges of the CCM inductor current: on at 0, off at DT, two periods. */
  function CcmGrid(b: Buck): seq<real> {
    [0.0, b.dt, b.t, b.t + b.dt, 2.0 * b.t, 2.0 * b.t + b.dt]
  }

  /** Edges of the DCM inductor current, with the zero-current instant tx. */
  function DcmGrid(b: Buck): seq<real> {
    [0.0, b.dt, b.tx, b.t, b.t + b.dt, b.t + b.tx, 2.0 * b.t, 2.0 * b.t + b.dt]
  }

  /** CCM edges with a jump after each of DT, t, t + DT, 2t, 2t + DT. */
  function CcmJumpGrid(b: Buck): seq<real>
    requires b.freq != 0.0
  {
    var j := Jump(b);
    [0.0, b.dt, b.dt + j, b.t, b.t + j, b.t + b.dt, b.t + b.dt + j,
     2.0 * b.t, 2.0 * b.t + j, 2.0 * b.t + b.dt, 2.0 * b.t + b.dt + j]
  }

  /** DCM edges for the currents: a jump after each turn-off. */
  function DcmJumpGrid(b: Buck): seq<real>
    requires b.freq != 0.0
  {
    var j := Jump(b);
    [0.0, b.dt, b.dt + j, b.tx, b.t, b.t + b.dt, b.t + b.dt + j, b.t + b.tx,
     2.0 * b.t, 2.0 * b.t + b.dt, 2.0 * b.t + b.dt + j]
  }

  /** DCM edges for the voltages: a jump after turn-off, after tx and after
      turn-on. */
  function DcmVoltageGrid(b: Buck): seq<real>
    requires b.freq != 0.0
  {
    var j := Jump(b);
    [0.0, b.dt, b.dt + j, b.tx, b.tx + j, b.t, b.t + j, b.t + b.dt, b.t + b.dt + j,
     b.t + b.tx, b.t + b.tx + j, 2.0 * b.t]
  }

  /** `__plot_il_ccm` / `__plot_il_dcm`: inductor current. The first period
      starts at the valley and rises to the peak, and in DCM falls back to
      the valley before the period ends; one period later (two entries in
      CCM, three in DCM) time advances by t and the value repeats. */
  function InductorCurrent(b: Buck): (w: Wave)
    ensures |w.x| == |w.y| == (if b.mode == Ccm then 6 else 8)
    ensures forall i :: 0 <= i < |w.y| ==> w.y[i] == b.ilMin || w.y[i] == b.ilMax
    ensures w.y[0] == b.ilMin && w.y[1] == b.ilMax
    ensures b.mode == Dcm ==> w.y[2] == b.ilMin
    ensures b.mode == Ccm ==> RepeatsAfter(w.y, 2) && ShiftsAfter(w.x, 2, b.t, 0)
    ensures b.mode == Dcm ==> RepeatsAfter(w.y, 3) && ShiftsAfter(w.x, 3, b.t, 0)
  {
    match b.mode
    case Ccm => Wave(CcmGrid(b), [b.ilMin, b.ilMax, b.ilMin, b.ilMax, b.ilMin, b.ilMax])
    case Dcm =>
      Wave(DcmGrid(b), [b.ilMin, b.ilMax, b.ilMin, b.ilMin, b.ilMax, b.ilMin, b.ilMin, b.ilMax])
  }

  /** `__plot_vd_ccm` / `__plot_vd_dcm`: the voltage the source labels as the
      diode's, which is the switch-node voltage: vi while the switch
      conducts, 0 while the diode conducts, vo once the DCM current is zero. */
  function DiodeVoltage(b: Buck): (w: Wave)
    requires b.freq != 0.0
    ensures |w.x| == |w.y| == (if b.mode == Ccm then 11 else 12)
    ensures forall i :: 0 <= i < |w.y| ==> w.y[i] == b.vi || w.y[i] == 0.0 || w.y[i] == b.vo
    ensures w.y[0] == w.y[1] == b.vi && w.y[2] == w.y[3] == 0.0
    ensures b.mode == Dcm ==> w.y[4] == w.y[5] == b.vo
    ensures w.x[0] == 0.0 && w.x[1] == b.dt && w.x[2] == b.dt + Jump(b)
    ensures w.x[3] == (if b.mode == Ccm then b.t else b.tx)
    ensures b.mode == Dcm ==> w.x[4] == b.tx + Jump(b) && w.x[5] == b.t
    ensures w.x[if b.mode == Ccm then 4 else 6] == b.t + Jump(b)
    ensures b.mode == Ccm ==> RepeatsAfter(w.y, 4) && ShiftsAfter(w.x, 4, b.t, 1)
    ensures b.mode == Dcm ==> RepeatsAfter(w.y, 6) && ShiftsAfter(w.x, 6, b.t, 1)
  {
    match b.mode
    case Ccm => CcmDiodeVoltage(b)
    case Dcm => DcmDiodeVoltage(b)
  }

  function CcmDiodeVoltage(b: Buck): (w: Wave)
    requires b.freq != 0.0
    ensures |w.x| == |w.y| == 11
    ensures forall i :: 0 <= i < |w.y| ==> w.y[i] == b.vi || w.y[i] == 0.0
    ensures w.y[0] == w.y[1] == b.vi && w.y[2] == w.y[3] == 0.0
    ensures w.x[0] == 0.0 && w.x[1] == b.dt && w.x[2] == b.dt + Jump(b) && w.x[3] == b.t
    ensures w.x[4] == b.t + Jump(b)
    ensures RepeatsAfter(w.y, 4) && ShiftsAfter(w.x, 4, b.t, 1)
  {
    Wave(CcmJumpGrid(b), [b.vi, b.vi, 0.0, 0.0, b.vi, b.vi, 0.0, 0.0, b.vi, b.vi, 0.0])
  }

  function DcmDiodeVoltage(b: Buck): (w: Wave)
    requires b.freq != 0.0
    ensures |w.x| == |w.y| == 12
    ensures forall i :: 0 <= i < |w.y| ==> w.y[i] == b.vi || w.y[i] == 0.0 || w.y[i] == b.vo
    ensures w.y[0] == w.y[1] == b.vi && w.y[2] == w.y[3] == 0.0 && w.y[4] == w.y[5] == b.vo
    ensures w.x[0] == 0.0 && w.x[1] == b.dt && w.x[2] == b.dt + Jump(b)
    ensures w.x[3] == b.tx && w.x[4] == b.tx + Jump(b) && w.x[5] == b.t
    ensures w.x[6] == b.t + Jump(b)
    ensures RepeatsAfter(w.y, 6) && ShiftsAfter(w.x, 6, b.t, 1)
  {
    Wave(DcmVoltageGrid(b), [b.vi, b.vi, 0.0, 0.0, b.vo, b.vo, b.vi, b.vi, 0.0, 0.0, b.vo, b.vo])
  }

  /** `__plot_vm_ccm` / `__plot_vm_dcm`: switch voltage. On the diode's grid
      the two voltages add up to vi at every breakpoint. */
  function SwitchVoltage(b: Buck): (w: Wave)
    requires b.freq != 0.0
    ensures w.x == DiodeVoltage(b).x && |w.y| == |w.x|
    ensures forall i :: 0 <= i < |w.y| ==> w.y[i] + DiodeVoltage(b).y[i] == b.vi
  {
    match b.mode
    case Ccm =>
      Wave(CcmJumpGrid(b), [0.0, 0.0, b.vi, b.vi, 0.0, 0.0, b.vi, b.vi, 0.0, 0.0, b.vi])
    case Dcm =>
      var d := b.vi - b.vo;
      Wave(DcmVoltageGrid(b), [0.0, 0.0, b.vi, b.vi, d, d, 0.0, 0.0, b.vi, b.vi, d, d])
  }

  /** `__plot_id_ccm` / `__plot_id_dcm`: diode current. Off during the
      on-time, it takes over the peak just after turn-off and carries the
      current down to the valley at t (CCM) or to zero at tx (DCM). */
  function DiodeCurrent(b: Buck): (w: Wave)
    requires b.freq != 0.0
    ensures |w.x| == |w.y| == 11
    ensures forall i :: 0 <= i < |w.y| ==> w.y[i] == 0.0 || w.y[i] == b.ilMin || w.y[i] == b.ilMax
    ensures w.y[0] == w.y[1] == 0.0 && w.y[2] == b.ilMax
    ensures w.y[3] == (if b.mode == Ccm then b.ilMin else 0.0)
    ensures w.x[0] == 0.0 && w.x[1] == b.dt && w.x[2] == b.dt + Jump(b)
    ensures w.x[3] == (if b.mode == Ccm then b.t else b.tx)
    ensures RepeatsAfter(w.y, 4)
    ensures b.mode == Ccm ==> w.x[4] == b.t + Jump(b) && ShiftsAfter(w.x, 4, b.t, 1)
    ensures b.mode == Dcm ==> ShiftsAfter(w.x, 4, b.t, 0)
  {
    match b.mode
    case Ccm => CcmDiodeCurrent(b)
    case Dcm => DcmDiodeCurrent(b)
  }

  function CcmDiodeCurrent(b: Buck): (w: Wave)
    requires b.freq != 0.0
    ensures |w.x| == |w.y| == 11
    ensures forall i :: 0 <= i < |w.y| ==> w.y[i] == 0.0 || w.y[i] == b.ilMin || w.y[i] == b.ilMax
    ensures w.y[0] == w.y[1] == 0.0 && w.y[2] == b.ilMax && w.y[3] == b.ilMin
    ensures w.x[0] == 0.0 && w.x[1] == b.dt && w.x[2] == b.dt + Jump(b) && w.x[3] == b.t
    ensures w.x[4] == b.t + Jump(b)
    ensures RepeatsAfter(w.y, 4) && ShiftsAfter(w.x, 4, b.t, 1)
  {
    Wave(CcmJumpGrid(b),
         [0.0, 0.0, b.ilMax, b.ilMin, 0.0, 0.0, b.ilMax, b.ilMin, 0.0, 0.0, b.ilMax])
  }

  function DcmDiodeCurrent(b: Buck): (w: Wave)
    requires b.freq != 0.0
    ensures |w.x| == |w.y| == 11
    ensures forall i :: 0 <= i < |w.y| ==> w.y[i] == 0.0 || w.y[i] == b.ilMax
    ensures w.y[0] == w.y[1] == 0.0 && w.y[2] == b.ilMax && w.y[3] == 0.0
    ensures w.x[0] == 0.0 && w.x[1] == b.dt && w.x[2] == b.dt + Jump(b) && w.x[3] == b.tx
    ensures RepeatsAfter(w.y, 4) && ShiftsAfter(w.x, 4, b.t, 0)
  {
    Wave(DcmJumpGrid(b),
         [0.0, 0.0, b.ilMax, 0.0, 0.0, 0.0, b.ilMax, 0.0, 0.0, 0.0, b.ilMax])
  }

  /** `__plot_im_ccm` / `__plot_im_dcm`: switch current. On the diode's grid
      at most one of the two conducts at any breakpoint, and what conducts
      carries an inductor-current bound. */
  function SwitchCurrent(b: Buck): (w: Wave)
    requires b.freq != 0.0
    ensures w.x == DiodeCurrent(b).x && |w.y| == |w.x|
    ensures w.y[0] == (if b.mode == Ccm then b.ilMin else 0.0) && w.y[1] == b.ilMax
    ensures w.y[2] == w.y[3] == 0.0 && RepeatsAfter(w.y, 4)
    ensures forall i :: 0 <= i < |w.y| ==> w.y[i] == 0.0 || DiodeCurrent(b).y[i] == 0.0
    ensures b.mode == Dcm ==> b.ilMin == 0.0 ==>
              forall i :: 0 <= i < |w.y| ==>
                w.y[i] + DiodeCurrent(b).y[i] == b.ilMin || w.y[i] + DiodeCurrent(b).y[i] == b.ilMax
    ensures b.mode == Ccm ==>
              forall i :: 0 <= i < |w.y| ==>
                w.y[i] + DiodeCurrent(b).y[i] == b.ilMin || w.y[i] + DiodeCurrent(b).y[i] == b.ilMax
  {
    match b.mode
    case Ccm => CcmSwitchCurrent(b)
    case Dcm => DcmSwitchCurrent(b)
  }

  function CcmSwitchCurrent(b: Buck): (w: Wave)
    requires b.freq != 0.0 && b.mode == Ccm
    ensures w.x == DiodeCurrent(b).x && |w.y| == |w.x|
    ensures w.y[0] == b.ilMin && w.y[1] == b.ilMax && w.y[2] == w.y[3] == 0.0
    ensures RepeatsAfter(w.y, 4)
    ensures forall i :: 0 <= i < |w.y| ==> w.y[i] == 0.0 || DiodeCurrent(b).y[i] == 0.0
    ensures forall i :: 0 <= i < |w.y| ==>
              w.y[i] + DiodeCurrent(b).y[i] == b.ilMin || w.y[i] + DiodeCurrent(b).y[i] == b.ilMax
  {
    Wave(CcmJumpGrid(b),
         [b.ilMin, b.ilMax, 0.0, 0.0, b.ilMin, b.ilMax, 0.0, 0.0, b.ilMin, b.ilMax, 0.0])
  }

  function DcmSwitchCurrent(b: Buck): (w: Wave)
    requires b.freq != 0.0 && b.mode == Dcm
    ensures w.x == DiodeCurrent(b).x && |w.y| == |w.x|
    ensures w.y[0] == 0.0 && w.y[1] == b.ilMax && w.y[2] == w.y[3] == 0.0
    ensures RepeatsAfter(w.y, 4)
    ensures forall i :: 0 <= i < |w.y| ==> w.y[i] == 0.0 || DiodeCurrent(b).y[i] == 0.0
    ensures b.ilMin == 0.0 ==>
              forall i :: 0 <= i < |w.y| ==>
                w.y[i] + DiodeCurrent(b).y[i] == b.ilMin || w.y[i] + DiodeCurrent(b).y[i] == b.ilMax
  {
    Wave(DcmJumpGrid(b), [0.0, b.ilMax, 0.0, 0.0, 0.0, b.ilMax, 0.0, 0.0, 0.0, b.ilMax, 0.0])
  }

  /** `__plot_vl_ccm` and the evidently intended `__plot_vl_dcm`: inductor
      voltage. It is the switch-node voltage minus vo at every breakpoint,
      on the same grid. */
  function InductorVoltage(b: Buck): (w: Wave)
    requires b.freq != 0.0
    ensures w.x == DiodeVoltage(b).x && |w.y| == |w.x|
    ensures forall i :: 0 <= i < |w.y| ==> w.y[i] == DiodeVoltage(b).y[i] - b.vo
  {
    var on := b.vi - b.vo;
    var off := -b.vo;
    match b.mode
    case Ccm =>
      Wave(CcmJumpGrid(b), [on, on, off, off, on, on, off, off, on, on, off])
    case Dcm =>
      Wave(DcmVoltageGrid(b), [on, on, off, off, 0.0, 0.0, on, on, off, off, 0.0, 0.0])
  }

  /** `__plot_vl_dcm` as written: its y list repeats the inductor-current
      list. */
  function InductorVoltageDcmAsWritten(b: Buck): (w: Wave)
    ensures |w.x| == |w.y| == 8
    ensures w.x == DcmGrid(b)
  {
    Wave(DcmGrid(b),
         [b.ilMin, b.ilMax, b.ilMin, b.ilMin, b.ilMax, b.ilMin, b.ilMin, b.ilMax])
  }

  /** `__plot_ic_ccm` / `__plot_ic_dcm`: capacitor current, the inductor
      current minus the load current on the inductor's own grid. */
  function CapacitorCurrent(b: Buck): (w: Wave)
    ensures w.x == InductorCurrent(b).x && |w.y| == |w.x|
    ensures forall i :: 0 <= i < |w.y| ==> w.y[i] == InductorCurrent(b).y[i] - b.io
  {
    var il := InductorCurrent(b);
    Wave(il.x, Minus(il.y, b.io))
  }

  /** `__plot_ir_ccm` / `__plot_ir_dcm`: resistor current, constantly io on
      the inductor's grid. */
  function ResistorCurrent(b: Buck): (w: Wave)
    ensures w.x == InductorCurrent(b).x && |w.y| == |w.x|
    ensures forall i :: 0 <= i < |w.y| ==> w.y[i] == b.io
  {
    var il := InductorCurrent(b);
    Wave(il.x, Filled(|il.y|, b.io))
  }

  /** `__plot_vc_ccm` / `__plot_vc_dcm`: capacitor voltage, the constant
      io * res on the capacitor-current grid. */
  function CapacitorVoltage(b: Buck): (w: Wave)
    ensures w.x == CapacitorCurrent(b).x && |w.y| == |w.x|
    ensures forall i :: 0 <= i < |w.y| ==> w.y[i] == b.io * b.res
  {
    var ic := CapacitorCurrent(b);
    Wave(ic.x, Filled(|ic.x|, b.io * b.res))
  }

  /** `__plot_vr_ccm` / `__plot_vr_dcm`: resistor voltage. The resistor sits
      in parallel with the capacitor and gets the same list. */
  function ResistorVoltage(b: Buck): (w: Wave)
    ensures w.x == CapacitorCurrent(b).x && |w.y| == |w.x|
    ensures forall i :: 0 <= i < |w.y| ==> w.y[i] == b.io * b.res
  {
    CapacitorVoltage(b)
  }

  /** The output-side waveforms of a constructed calculator sit at vo. */
  lemma OutputVoltageLevel(b: Buck)
    requires Coherent(b)
    ensures forall i :: 0 <= i < |CapacitorVoltage(b).y| ==> CapacitorVoltage(b).y[i] == b.vo
    ensures forall i :: 0 <= i < |ResistorVoltage(b).y| ==> ResistorVoltage(b).y[i] == b.vo
  {
    OutputLaw(b);
  }

  /** In CCM the capacitor current swings symmetrically, +-deltaIl/2 about
      zero; in DCM it dips to -io while the inductor current is zero. */
  lemma CapacitorRipple(b: Buck)
    requires Coherent(b)
    ensures b.mode == Ccm ==>
              forall i :: 0 <= i < |CapacitorCurrent(b).y| ==>
                CapacitorCurrent(b).y[i] == 0.5 * b.deltaIl || CapacitorCurrent(b).y[i] == -0.5 * b.deltaIl
    ensures b.mode == Dcm ==> CapacitorCurrent(b).y[0] == -b.io
  {
  }

  /** Volt-second balance: the inductor-voltage levels, weighted by the
      lengths of the on, freewheeling and idle intervals, sum to zero over a
      period. */
  lemma VoltSecondBalance(b: Buck)
    requires Coherent(b)
    ensures var v := InductorVoltage(b).y;
            b.mode == Ccm ==> v[0] * b.dt + v[2] * (b.t - b.dt) == 0.0
    ensures var v := InductorVoltage(b).y;
            b.mode == Dcm ==> v[0] * b.dt + v[2] * (b.tx - b.dt) + v[4] * (b.t - b.tx) == 0.0
  {
    var v := InductorVoltage(b).y;
    if b.mode == Ccm {
      DecayInstant(b);
      DecayBalance(b);
    } else {
      DecayBalance(b);
    }
  }

  /** The inductor law L di = v dt holds between consecutive breakpoints of
      the inductor-current list, with v the inductor-voltage level of that
      interval: in DCM for the inductance the calculator holds, in CCM once
      SetInd has sized it. */
  lemma InductanceLaw(b: Buck)
    requires Coherent(b)
    requires b.mode == Ccm ==> b.deltaIl * b.ind == (b.vi - b.vo) * b.dt
    ensures var i := InductorCurrent(b); var v := InductorVoltage(b).y;
            && StorageLaw(b.ind, i.y[0], i.y[1], v[0], i.x[0], i.x[1])
            && StorageLaw(b.ind, i.y[1], i.y[2], v[2], i.x[1], i.x[2])
    ensures var i := InductorCurrent(b); var v := InductorVoltage(b).y;
            b.mode == Dcm ==> StorageLaw(b.ind, i.y[2], i.y[3], v[4], i.x[2], i.x[3])
  {
    if b.mode == Ccm {
      InductanceLawCcm(b);
    } else {
      InductanceLawDcm(b);
    }
  }

  lemma InductanceLawCcm(b: Buck)
    requires Coherent(b) && b.mode == Ccm
    requires b.deltaIl * b.ind == (b.vi - b.vo) * b.dt
    ensures var i := InductorCurrent(b); var v := InductorVoltage(b).y;
            && StorageLaw(b.ind, i.y[0], i.y[1], v[0], i.x[0], i.x[1])
            && StorageLaw(b.ind, i.y[1], i.y[2], v[2], i.x[1], i.x[2])
  {
    InductanceLawLevels(b, b.ilMin, b.t, -b.vo);
    DecayBalance(b);
    CurrentBounds(b);
    DecayInstant(b);
    CcmInductorSegments(b.ind, b.ilMax, b.ilMin, b.deltaIl, b.vi, b.vo, b.dt, b.t);
  }

  lemma InductanceLawDcm(b: Buck)
    requires Coherent(b) && b.mode == Dcm
    ensures var i := InductorCurrent(b); var v := InductorVoltage(b).y;
            && StorageLaw(b.ind, i.y[0], i.y[1], v[0], i.x[0], i.x[1])
            && StorageLaw(b.ind, i.y[1], i.y[2], v[2], i.x[1], i.x[2])
            && StorageLaw(b.ind, i.y[2], i.y[3], v[4], i.x[2], i.x[3])
  {
    DcmShape(b);
    DcmSegmentsOf(b);
  }

  /** The facts of a constructed DCM calculator the inductor law needs. */
  lemma DcmShape(b: Buck)
    requires Coherent(b) && b.mode == Dcm
    ensures b.freq != 0.0 && b.ind != 0.0 && b.ilMin == 0.0
    ensures b.ilMax == (b.vi - b.vo) * b.dt / b.ind && b.tx * b.vo == b.vi * b.dt
  {
    DecayBalance(b);
  }

  /** The inductor law on the DCM breakpoints, from the peak and zero-current
      instant alone. */
  lemma DcmSegmentsOf(b: Buck)
    requires b.mode == Dcm && b.freq != 0.0 && b.ind != 0.0 && b.ilMin == 0.0
    requires b.ilMax == (b.vi - b.vo) * b.dt / b.ind && b.tx * b.vo == b.vi * b.dt
    ensures var i := InductorCurrent(b); var v := InductorVoltage(b).y;
            && StorageLaw(b.ind, i.y[0], i.y[1], v[0], i.x[0], i.x[1])
            && StorageLaw(b.ind, i.y[1], i.y[2], v[2], i.x[1], i.x[2])
            && StorageLaw(b.ind, i.y[2], i.y[3], v[4], i.x[2], i.x[3])
  {
    var i := InductorCurrent(b);
    var v := InductorVoltage(b).y;
    InductanceLawLevels(b, b.ilMin, b.tx, -b.vo);
    DcmInductorSegments(b.ind, b.ilMax, b.vi, b.vo, b.dt, b.tx, b.t);
  }

  /** The first three breakpoints of the inductor current and the first
      levels of the inductor voltage, in either mode. */
  lemma InductanceLawLevels(b: Buck, lo: real, fall: real, off: real)
    requires b.freq != 0.0
    requires lo == b.ilMin && off == -b.vo
    requires fall == (if b.mode == Ccm then b.t else b.tx)
    ensures var i := InductorCurrent(b);
            && i.y[0] == lo && i.y[1] == b.ilMax && i.y[2] == lo
            && i.x[0] == 0.0 && i.x[1] == b.dt && i.x[2] == fall
    ensures var v := InductorVoltage(b).y; v[0] == b.vi - b.vo && v[2] == off
    ensures b.mode == Dcm ==> InductorCurrent(b).y[3] == lo && InductorCurrent(b).x[3] == b.t
    ensures b.mode == Dcm ==> InductorVoltage(b).y[4] == 0.0
  {
  }

  /** The rise over the on-interval and the fall over the rest of the period
      for CCM levels, once `vi dt == vo t`. */
  lemma CcmInductorSegments(l: real, hi: real, lo: real, delta: real, vi: real, vo: real,
                            dt: real, t: real)
    requires hi - lo == delta && delta * l == (vi - vo) * dt && t * vo == vi * dt
    ensures StorageLaw(l, lo, hi, vi - vo, 0.0, dt)
    ensures StorageLaw(l, hi, lo, -vo, dt, t)
  {
    assert l * (hi - lo) == delta * l;
    assert l * (lo - hi) == -(delta * l);
  }

  /** The rise to the peak `(vi - vo) dt / l`, the fall to zero at `tx`,
      once `vi dt == vo tx`, and the idle interval up to `t`. */
  lemma DcmInductorSegments(l: real, hi: real, vi: real, vo: real, dt: real, tx: real,
                            t: real)
    requires l != 0.0 && hi == (vi - vo) * dt / l && tx * vo == vi * dt
    ensures StorageLaw(l, 0.0, hi, vi - vo, 0.0, dt)
    ensures StorageLaw(l, hi, 0.0, -vo, dt, tx)
    ensures StorageLaw(l, 0.0, 0.0, 0.0, tx, t)
  {
    DivCancel((vi - vo) * dt, l);
  }

  /** The DCM inductor-voltage list as written shows currents: on the
      on-interval it reads ilMin = 0, while the inductor law and the
      switch-node relation both require vi - vo. */
  lemma DcmInductorVoltageAsWrittenIsCurrent(b: Buck)
    requires Coherent(b) && b.mode == Dcm && b.vi != b.vo && b.percentDuty != 0.0
    ensures InductorVoltageDcmAsWritten(b).y == InductorCurrent(b).y
    ensures InductorVoltageDcmAsWritten(b).y[0] == 0.0
    ensures InductorVoltage(b).y[0] == b.vi - b.vo != 0.0
    ensures var i := InductorCurrent(b);
            !StorageLaw(b.ind, i.y[0], i.y[1], InductorVoltageDcmAsWritten(b).y[0], i.x[0], i.x[1])
  {
    var i := InductorCurrent(b);
    InductanceLaw(b);
    assert b.dt != 0.0;
    assert (b.vi - b.vo) * b.dt != 0.0;
  }

  /** Kirchhoff's current law at the switch node: the inductor current is
      carried by the switch or by the diode. At the inductor-current edges
      of the first period (0, DT, and t in CCM or tx and t in DCM) the
      switch and diode currents add up to the inductor current at that
      instant, and across each drawn jump (turn-off, and turn-on in CCM) the
      sum does not change: the current only moves from one path to the
      other. With the lists' periodicity this covers every breakpoint. */
  lemma CurrentSplit(b: Buck)
    requires Coherent(b)
    ensures var s := SwitchCurrent(b); var d := DiodeCurrent(b); var l := InductorCurrent(b);
            && s.x == d.x
            && l.x[0] == s.x[0] && l.y[0] == s.y[0] + d.y[0]
            && l.x[1] == s.x[1] && l.y[1] == s.y[1] + d.y[1]
            && s.y[2] + d.y[2] == s.y[1] + d.y[1]
            && l.x[2] == s.x[3] && l.y[2] == s.y[3] + d.y[3]
    ensures var s := SwitchCurrent(b); var d := DiodeCurrent(b);
            b.mode == Ccm ==> s.y[4] + d.y[4] == s.y[3] + d.y[3] && s.x[4] == s.x[3] + Jump(b)
    ensures var s := SwitchCurrent(b); var d := DiodeCurrent(b); var l := InductorCurrent(b);
            b.mode == Dcm ==> l.x[3] == s.x[4] && l.y[3] == s.y[4] + d.y[4]
  {
    var s := SwitchCurrent(b);
    var d := DiodeCurrent(b);
    assert b.mode == Dcm ==> b.ilMin == 0.0;
    if b.mode == Ccm {
      assert s.y[4] == b.ilMin && d.y[4] == 0.0;
    } else {
      assert s.y[4] == 0.0 && d.y[4] == 0.0;
    }
  }

  /** Switch and diode voltages of a constructed calculator never exceed vi
      and never go negative, for the physical case vo < vi. */
  lemma SwitchNodeRange(b: Buck)
    requires Coherent(b) && b.vo < b.vi
    ensures forall i :: 0 <= i < |DiodeVoltage(b).y| ==> 0.0 <= DiodeVoltage(b).y[i] <= b.vi
    ensures forall i :: 0 <= i < |SwitchVoltage(b).y| ==> 0.0 <= SwitchVoltage(b).y[i] <= b.vi
  {
  }
}
