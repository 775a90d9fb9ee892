/**
 * The closed-form component stresses of the buck-boost calculator
 * (`calc_vd_max`, `calc_id_avg`, `calc_id_max`, `calc_vds_max`,
 * `calc_ids_max`, `calc_ids_rms`), each tied to the waveform it summarises.
 */
module BuckBoostExtrema {
  import opened Common
  import opened BuckBoostCalc
  import opened BuckBoostPlots

  /** `calc_vd_max`: the largest reverse voltage across the diode, which is
      the most negative breakpoint of the diode-voltage list. */
  function CalcVdMax(b: BuckBoost): (r: real)
    requires Derived(b)
    ensures IsMin(-r, DiodeVoltage(b).y)
  {
    SwitchNodeVoltages(b);
    if b.mode == Dcm then b.vi + b.vo else b.vi + b.vo
  }

  /** `calc_vds_max`: the largest switch voltage, the top breakpoint of the
      switch-voltage list. */
  function CalcVdsMax(b: BuckBoost): (r: real)
    requires Derived(b)
    ensures IsMax(r, SwitchVoltage(b).y)
  {
    SwitchNodeVoltages(b);
    if b.mode == Dcm then b.vi + b.vo else b.vi + b.vo
  }

  /** `calc_id_avg`: the mean diode current. In CCM it is the mean inductor
      current over the off-time, il (t - DT) / t; in DCM the source returns
      io directly. Both are io. */
  function CalcIdAvg(b: BuckBoost): (r: real)
    requires Derived(b)
    ensures r == b.io
  {
    if b.mode == Dcm then b.io
    else
      OffTimeMean(b);
      b.il * (b.t - b.dt) / b.t
  }

  /** The mean inductor current over the off-time, spread over the period,
      is io. */
  lemma OffTimeMean(b: BuckBoost)
    requires Derived(b)
    ensures b.t > 0.0 && b.il * (b.t - b.dt) / b.t == b.io
  {
    MeanInductorCurrent(b);
    OnTimeInsidePeriod(b);
    OffTimeCharge(b.il, b.t, b.dt, b.d, b.io);
    DivByProduct(b.il * (b.t - b.dt), b.t, b.io);
  }

  /** The output capacitor's charge balance: over a period the diode delivers
      io t, in CCM as the mean inductor current over the off-time, in DCM as
      the triangle from the peak down to zero over the fall duration tx. So
      io is the mean of the diode-current waveform in both modes. */
  lemma DiodeChargeBalance(b: BuckBoost)
    requires Designed(b)
    ensures b.mode == Ccm ==> b.il * (b.t - b.dt) == b.io * b.t
    ensures b.mode == Dcm ==> b.tx.Some? && 0.5 * b.ilMax * b.tx.value == b.io * b.t
  {
    if b.mode == Ccm {
      CcmDiodeCharge(b);
    } else {
      DcmDiodeCharge(b);
    }
  }

  lemma CcmDiodeCharge(b: BuckBoost)
    requires Derived(b)
    ensures b.il * (b.t - b.dt) == b.io * b.t
  {
    OffTimeCharge(b.il, b.t, b.dt, b.d, b.io);
  }

  lemma OffTimeCharge(il: real, t: real, dt: real, d: real, io: real)
    requires dt == OnTime(d, t) && il * (1.0 - d) == io
    ensures il * (t - dt) == io * t
  {
    assert il * (t - dt) == t * (il * (1.0 - d));
  }

  lemma DcmDiodeCharge(b: BuckBoost)
    requires Designed(b) && b.mode == Dcm
    ensures b.tx.Some? && 0.5 * b.ilMax * b.tx.value == b.io * b.t
  {
    TriangleCharge(b.mode, b.ind, b.deltIl, b.ilMax, b.ilMin, b.il, b.vi, b.vo, b.d, b.dt, b.t,
                   b.ii, b.io, b.po, b.tx);
  }

  /** The DCM triangle's area: with the peak 2 ii / d, a fall lasting
      vi DT / vo and the power balance, half the peak times the fall is
      io t. */
  lemma TriangleCharge(mode: Mode, l: real, deltIl: real, peak: real, valley: real, il: real,
                       vi: real, vo: real, d: real, dt: real, t: real, ii: real, io: real,
                       po: real, tx: Option<real>)
    requires mode == Dcm && vi > 0.0 && vo > 0.0 && 0.0 < d && t > 0.0
    requires InductorRelation(mode, l, deltIl, vi, d, dt, ii)
    requires BoundRelation(mode, peak, valley, il, deltIl, l, vi, dt, vo, tx)
    requires dt == OnTime(d, t) && ii * vi == po && io * vo == po
    ensures tx.Some? && 0.5 * peak * tx.value == io * t
  {
    var fall := tx.value;
    ProductPositive(d, t);
    PeakFromSizing(peak, l, vi, d, dt, ii);
    calc {
      vo * (0.5 * peak * fall);
    ==
      0.5 * peak * (fall * vo);
    ==
      0.5 * peak * (vi * (d * t));
    ==
      0.5 * (peak * d) * vi * t;
    ==
      (vi * ii) * t;
    ==
      vo * (io * t);
    }
  }

  /** `calc_id_max`: the diode's peak current, vi DT / L in DCM and iL_max in
      CCM; both are iL_max, the top breakpoint of the diode-current list
      whenever the design ripple is positive. */
  function CalcIdMax(b: BuckBoost): (r: real)
    requires Designed(b)
    ensures r == b.ilMax
    ensures b.mode == Dcm || b.deltIlPercent > 0.0 ==> IsMax(r, DiodeCurrent(b).y)
  {
    PeakIsTop(b);
    if b.mode == Dcm then DcmPeak(b) else b.ilMax
  }

  /** `calc_ids_max`: the switch's peak current, the same value as the
      diode's, and the top breakpoint of the switch-current list. */
  function CalcIdsMax(b: BuckBoost): (r: real)
    requires Designed(b)
    ensures r == b.ilMax
    ensures b.mode == Dcm || b.deltIlPercent > 0.0 ==> IsMax(r, SwitchCurrent(b).y)
  {
    PeakIsTop(b);
    if b.mode == Dcm then DcmPeak(b) else b.ilMax
  }

  /** vi DT / L, the DCM peak both peak-current methods return. */
  function DcmPeak(b: BuckBoost): (r: real)
    requires Designed(b) && b.mode == Dcm
    ensures r == b.ilMax
  {
    InductorSizing(b);
    b.vi * b.dt / b.ind
  }

  /** With a positive ripple the peak is positive and above the valley. */
  lemma PeakIsTop(b: BuckBoost)
    requires Designed(b)
    ensures b.mode == Dcm || b.deltIlPercent > 0.0 ==> b.ilMax > 0.0 && b.ilMax >= b.ilMin
    ensures b.mode == Dcm ==> b.ilMin == 0.0
  {
    MeanInductorCurrent(b);
    CurrentBounds(b);
    if b.mode == Dcm {
      assert b.ilMax * b.d == 2.0 * b.ii;
    } else if b.deltIlPercent > 0.0 {
      assert b.deltIl > 0.0;
    }
  }

  /** The square of `calc_ids_rms`, the mean square of the switch current
      over a period. In DCM it is exactly the mean square of the switch
      current list's first segment, the ramp from 0 at time 0 to the peak at
      DT (the rest of the period draws zero, apart from the `Nudge`-wide
      turn-off jump). In CCM it treats the switch current as the flat mean
      il over DT; `SwitchRampExcess` states what the drawn ramp adds. */
  function IdsRmsSquared(b: BuckBoost): (r: real)
    requires Designed(b)
    ensures var w := SwitchCurrent(b);
            b.mode == Dcm ==> r * b.t == SegmentSquare(w.y[0], w.y[1], w.x[0], w.x[1])
    ensures var w := SwitchCurrent(b);
            b.mode == Ccm ==> r * b.t == SegmentSquare(b.il, b.il, w.x[0], w.x[2])
  {
    if b.mode == Dcm then DcmIdsRmsSquared(b) else CcmIdsRmsSquared(b)
  }

  function DcmIdsRmsSquared(b: BuckBoost): (r: real)
    requires Designed(b) && b.mode == Dcm
    ensures var w := SwitchCurrent(b); r * b.t == SegmentSquare(w.y[0], w.y[1], w.x[0], w.x[1])
    ensures 3.0 * r == b.ilMax * b.ilMax * b.d
  {
    var peak := DcmPeak(b);
    TriangleSquare(peak, b.d, b.t, b.dt);
    peak * peak * (b.d / 3.0)
  }

  function CcmIdsRmsSquared(b: BuckBoost): (r: real)
    requires Designed(b) && b.mode == Ccm
    ensures var w := SwitchCurrent(b); r * b.t == SegmentSquare(b.il, b.il, w.x[0], w.x[2])
    ensures r == b.il * b.il * b.d
  {
    OnTimeInsidePeriod(b);
    DivByProduct(b.il * b.il * b.dt, b.t, b.il * b.il * b.d);
    FlatSquare(b.il, b.dt, b.t);
    b.il * b.il * b.dt / b.t
  }

  /** A ramp from 0 to `m` over the on-time dt = d t squares to m^2 d / 3
      per unit time. */
  lemma TriangleSquare(m: real, d: real, t: real, dt: real)
    requires dt == d * t
    ensures m * m * (d / 3.0) * t == SegmentSquare(0.0, m, 0.0, dt)
  {
  }

  /** A level `m` held for dt squares to m^2 dt / t per unit time. */
  lemma FlatSquare(m: real, dt: real, t: real)
    requires t != 0.0
    ensures m * m * dt / t * t == SegmentSquare(m, m, 0.0, dt)
  {
    DivCancel(m * m * dt, t);
  }

  /** In CCM the switch current list ramps from ilMin to ilMax over the
      on-time; that segment squares to (il^2 + deltIl^2 / 12) per unit time,
      above the flat il^2 that `calc_ids_rms` uses, by deltIl^2 / 12. */
  lemma SwitchRampExcess(b: BuckBoost)
    requires Designed(b) && b.mode == Ccm
    ensures var w := SwitchCurrent(b);
            SegmentSquare(w.y[1], w.y[2], w.x[1], w.x[2])
            == SegmentSquare(b.il, b.il, w.x[1], w.x[2])
               + (w.x[2] - w.x[1]) * (b.deltIl * b.deltIl / 12.0)
  {
    var w := SwitchCurrent(b);
    RampSquare(b.ilMin, b.ilMax, b.il, b.deltIl, w.x[1], w.x[2]);
  }
}
