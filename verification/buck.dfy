/**
 * Scalar part of the buck converter calculator (class `Buck`): the mode
 * selector, construction, and the two sizing steps for the inductor and the
 * capacitor, as record-to-record functions over exact reals.
 */
module BuckCalc {
  import opened Common

  /** Calculator state; one field per attribute of the Python object. */
  datatype Buck = Buck(
    mode: Mode,
    percentDuty: real,  // fraction of the ideal CCM duty used as the DCM duty
    vi: real,
    vo: real,
    po: real,
    freq: real,
    t: real,            // switching period
    duty: real,
    dt: real,           // on-time
    io: real,           // output current
    res: real,          // load resistance
    ind: real,          // inductance; the placeholder until SetInd runs
    deltaIl: real,      // absolute inductor-current ripple target
    ilMax: real,
    ilMin: real,
    tx: real,           // instant at which the DCM inductor current reaches zero
    cap: real,          // capacitance; the placeholder until SetCap runs
    deltaVo: real)      // absolute output-voltage ripple target

  /** Construction reads the mode attribute, which neither branch assigns when
      both flags are false: the Python constructor stops with an
      AttributeError. */
  datatype Fault = ModeUnassigned

  datatype Built = Ok(buck: Buck) | Crash(fault: Fault)

  /** Two flags select the mode; `dcm` wins when both are set. */
  function SelectMode(dcm: bool, ccm: bool): (r: Option<Mode>)
    ensures r == Some(Dcm) <==> dcm
    ensures r == Some(Ccm) <==> !dcm && ccm
    ensures r == None <==> !dcm && !ccm
  {
    if dcm then Some(Dcm) else if ccm then Some(Ccm) else None
  }

  /** Ideal CCM duty, scaled by the user's fraction in DCM. */
  function Duty(mode: Mode, vi: real, vo: real, percentDuty: real): (r: real)
    requires vi != 0.0
    ensures mode == Ccm ==> r * vi == vo
    ensures mode == Dcm ==> r * vi == vo * percentDuty
  {
    var ideal := vo / vi;
    if mode == Dcm then ideal * percentDuty else ideal
  }

  /** The on-time DT of a period `t` at duty `duty`. */
  function OnTime(t: real, duty: real): real {
    t * duty
  }

  /** Peak inductor current for the inductance `ind`: ripple-defined in CCM,
      the on-interval rise from zero in DCM. */
  function PeakCurrent(mode: Mode, vi: real, vo: real, dt: real, io: real, deltaIl: real,
                       ind: real): (r: real)
    requires mode == Dcm ==> ind != 0.0
    ensures mode == Ccm ==> r - ValleyCurrent(mode, io, deltaIl) == deltaIl
    ensures mode == Ccm ==> r + ValleyCurrent(mode, io, deltaIl) == 2.0 * io
    ensures mode == Dcm ==> r * ind == (vi - vo) * dt
  {
    if mode == Ccm then io + 0.5 * deltaIl else (vi - vo) * dt / ind
  }

  /** Valley inductor current: ripple-defined in CCM, zero in DCM. */
  function ValleyCurrent(mode: Mode, io: real, deltaIl: real): (r: real)
    ensures mode == Ccm ==> io - r == deltaIl / 2.0
    ensures mode == Dcm ==> r == 0.0
  {
    if mode == Dcm then 0.0 else io - 0.5 * deltaIl
  }

  /** What the constructor derives from the mode, the duty fraction `k`, the
      operating point and the absolute current ripple, stated as relations
      between the values: the period inverts the frequency, the duty is
      vo / vi (times `k` in DCM), the output current carries the power, the
      load dissipates it, and the zero-current instant `tx` balances the
      volt-seconds vi DT = vo tx. Positive inputs determine each quotient, so
      these say the same as t = 1 / f and the rest. */
  predicate Relations(mode: Mode, k: real, vi: real, vo: real, po: real, f: real, t: real,
                      duty: real, dt: real, io: real, res: real, deltaIl: real, ilMin: real,
                      tx: real) {
    && vi > 0.0 && vo > 0.0 && po > 0.0 && f > 0.0
    && t * f == 1.0 && t > 0.0
    && duty * vi == (if mode == Dcm then vo * k else vo)
    && dt == OnTime(t, duty)
    && io * vo == po && io > 0.0
    && res * (io * io) == po
    && ilMin == ValleyCurrent(mode, io, deltaIl)
    && tx * vo == vi * dt
  }

  /** The constructor's quotients satisfy the relations. */
  lemma Establish(mode: Mode, k: real, vi: real, vo: real, po: real, f: real, t: real,
                  duty: real, dt: real, io: real, res: real, deltaIl: real, ilMin: real,
                  tx: real)
    requires vi > 0.0 && vo > 0.0 && po > 0.0 && f > 0.0
    requires t == 1.0 / f && duty == Duty(mode, vi, vo, k) && dt == OnTime(t, duty)
    requires io == po / vo && io > 0.0 && res == po / (io * io)
    requires ilMin == ValleyCurrent(mode, io, deltaIl) && tx == vi * dt / vo
    ensures Relations(mode, k, vi, vo, po, f, t, duty, dt, io, res, deltaIl, ilMin, tx)
  {
    DivPositive(1.0, f);
    DivCancel(1.0, f);
    DivCancel(po, vo);
    DivCancel(po, io * io);
    DivCancel(vi * dt, vo);
    DivCancel(vo, vi);
    assert vo / vi * k * vi == (vo / vi * vi) * k;
  }

  /** The calculator with the fields the sizing steps write (inductance,
      peak current, capacitance, voltage-ripple target) cleared. */
  function Base(b: Buck): Buck {
    b.(ind := 0.0, ilMax := 0.0, cap := 0.0, deltaVo := 0.0)
  }

  /** The fields no sizing step writes hold what the constructor derives. */
  predicate Settled(s: Buck) {
    Relations(s.mode, s.percentDuty, s.vi, s.vo, s.po, s.freq, s.t, s.duty, s.dt, s.io,
              s.res, s.deltaIl, s.ilMin, s.tx)
  }

  /** The peak current is the one `__calc_il_max` gives for the inductance
      held. */
  predicate PeakRelation(mode: Mode, ilMax: real, vi: real, vo: real, dt: real, io: real,
                         deltaIl: real, ind: real) {
    && (mode == Dcm ==> ind != 0.0)
    && ilMax == PeakCurrent(mode, vi, vo, dt, io, deltaIl, ind)
  }

  /** The relations every constructed calculator keeps between its fields,
      whatever the sizing steps have done. */
  predicate Coherent(b: Buck) {
    && Settled(Base(b))
    && PeakRelation(b.mode, b.ilMax, b.vi, b.vo, b.dt, b.io, b.deltaIl, b.ind)
  }

  /** The constructor's arithmetic for an already selected mode. */
  function Assemble(mode: Mode, vi: real, vo: real, po: real, f: real, deltaVo: real,
                    deltaIl: real, percentDuty: real): (b: Buck)
    requires vi > 0.0 && vo > 0.0 && po > 0.0 && f > 0.0
    ensures Coherent(b)
    ensures b.mode == mode && b.ind == Placeholder && b.cap == Placeholder
    ensures b.deltaIl == deltaIl * b.io && b.deltaVo == deltaVo * vo
    ensures && b.vi == vi && b.vo == vo && b.po == po && b.freq == f
            && b.percentDuty == percentDuty
  {
    var t := 1.0 / f;
    var duty := Duty(mode, vi, vo, percentDuty);
    var dt := OnTime(t, duty);
    var io := po / vo;
    var ripple := deltaIl * io;
    DivPositive(po, vo);
    var b := Buck(mode, percentDuty, vi, vo, po, f, t, duty, dt, io, po / (io * io), Placeholder,
                  ripple, PeakCurrent(mode, vi, vo, dt, io, ripple, Placeholder),
                  ValleyCurrent(mode, io, ripple), vi * dt / vo, Placeholder, deltaVo * vo);
    Constructed(b);
    b
  }

  /** A record holding the constructor's quotients and the placeholder
      inductance is coherent. */
  lemma Constructed(b: Buck)
    requires b.vi > 0.0 && b.vo > 0.0 && b.po > 0.0 && b.freq > 0.0
    requires b.t == 1.0 / b.freq && b.duty == Duty(b.mode, b.vi, b.vo, b.percentDuty)
    requires b.dt == OnTime(b.t, b.duty)
    requires b.io == b.po / b.vo && b.io > 0.0 && b.res == b.po / (b.io * b.io)
    requires b.ilMin == ValleyCurrent(b.mode, b.io, b.deltaIl) && b.tx == b.vi * b.dt / b.vo
    requires b.ind == Placeholder
    requires b.ilMax == PeakCurrent(b.mode, b.vi, b.vo, b.dt, b.io, b.deltaIl, Placeholder)
    ensures Coherent(b)
  {
    Establish(b.mode, b.percentDuty, b.vi, b.vo, b.po, b.freq, b.t, b.duty, b.dt, b.io, b.res,
              b.deltaIl, b.ilMin, b.tx);
  }

  /** The constructor. Parameters keep the Python order; `deltaVo` and
      `deltaIl` are ripple fractions of `vo` and of the output current. */
  function NewBuck(vi: real, vo: real, po: real, f: real, deltaVo: real, deltaIl: real,
                   dcm: bool, percentDuty: real, ccm: bool): (r: Built)
    requires vi > 0.0 && vo > 0.0 && po > 0.0 && f > 0.0
    ensures r.Ok? <==> dcm || ccm
    ensures r.Ok? ==> Coherent(r.buck) && r.buck.mode == (if dcm then Dcm else Ccm)
    ensures r.Ok? ==> r.buck.duty * vi == (if dcm then vo * percentDuty else vo)
    ensures r.Ok? ==> r.buck.ind == Placeholder && r.buck.cap == Placeholder
    ensures r.Ok? ==> r.buck.deltaIl == deltaIl * r.buck.io && r.buck.deltaVo == deltaVo * vo
    ensures r.Ok? ==> && r.buck.vi == vi && r.buck.vo == vo && r.buck.po == po
                      && r.buck.freq == f && r.buck.percentDuty == percentDuty
  {
    match SelectMode(dcm, ccm)
    case None => Crash(ModeUnassigned)
    case Some(mode) => Ok(Assemble(mode, vi, vo, po, f, deltaVo, deltaIl, percentDuty))
  }

  /** What `set_ind` achieves: in CCM the on-interval rise (vi - vo) DT / L
      is the ripple target; in DCM the rise from zero, (vi - vo) DT / L, is
      2 io / k, the peak of a triangle whose mean over the fraction `k` of
      the period is io. */
  predicate InductorRelation(mode: Mode, l: real, deltaIl: real, vi: real, vo: real, dt: real,
                             io: real, k: real) {
    && (mode == Ccm ==> deltaIl * l == (vi - vo) * dt)
    && (mode == Dcm ==> l * (2.0 * io) == (vi - vo) * dt * k)
  }

  /** `set_ind`: size the inductor for the ripple target (CCM) or for the
      chosen DCM duty, then recompute the peak current. */
  function SetInd(b: Buck): (r: Buck)
    requires Coherent(b)
    requires b.mode == Ccm ==> b.deltaIl != 0.0
    requires b.mode == Dcm ==> b.vi != b.vo && b.percentDuty != 0.0
    ensures Coherent(r)
    ensures r == b.(ind := r.ind, ilMax := r.ilMax)
    ensures InductorRelation(r.mode, r.ind, r.deltaIl, r.vi, r.vo, r.dt, r.io, r.percentDuty)
    ensures r.mode == Ccm ==> r.ilMax == b.ilMax
    ensures r.mode == Dcm ==> r.ilMax == 2.0 * b.io / b.percentDuty
  {
    var l := Inductance(b.mode, b.vi, b.vo, b.io, b.duty, b.t, b.dt, b.deltaIl, b.percentDuty);
    WithInductance(b, l)
  }

  /** `set_ind`'s two formulas: ((vi - vo) / deltaIl) DT in CCM,
      (vi / vo) ((vi - vo) / io) (D^2 t / 2) in DCM. */
  function Inductance(mode: Mode, vi: real, vo: real, io: real, duty: real, t: real, dt: real,
                      deltaIl: real, k: real): (l: real)
    requires mode == Ccm ==> deltaIl != 0.0
    requires mode == Dcm ==> vi > 0.0 && vo > 0.0 && io > 0.0 && t > 0.0
    requires mode == Dcm ==> vi != vo && k != 0.0
    requires mode == Dcm ==> duty * vi == vo * k && dt == OnTime(t, duty)
    ensures InductorRelation(mode, l, deltaIl, vi, vo, dt, io, k)
    ensures mode == Dcm ==> l != 0.0
    ensures mode == Dcm ==> PeakCurrent(mode, vi, vo, dt, io, deltaIl, l) == 2.0 * io / k
  {
    if mode == Ccm then
      ScaleCancel(vi - vo, deltaIl, dt);
      ((vi - vo) / deltaIl) * dt
    else
      var l := (vi / vo) * ((vi - vo) / io) * (duty * duty * t / 2.0);
      DcmInductanceRelation(vi, vo, io, duty, t, dt, k, l);
      DcmInductanceNonZero(vi, vo, io, duty, t, dt, k, l);
      PeakAfterSizing(l, vi, vo, dt, io, k);
      l
  }

  /** The DCM inductance times 2 io is (vi - vo) DT k: with p = vi / vo the
      duty satisfies p D = k, and with q = (vi - vo) / io the inductance is
      p q D^2 t / 2. */
  lemma DcmInductanceRelation(vi: real, vo: real, io: real, duty: real, t: real, dt: real,
                              k: real, l: real)
    requires vi > 0.0 && vo > 0.0 && io > 0.0
    requires duty * vi == vo * k && dt == OnTime(t, duty)
    requires l == (vi / vo) * ((vi - vo) / io) * (duty * duty * t / 2.0)
    ensures l * (2.0 * io) == (vi - vo) * dt * k
  {
    var p := vi / vo;
    var q := (vi - vo) / io;
    DivCancel(vi, vo);
    DivCancel(vi - vo, io);
    assert p * duty == k by {
      assert (p * duty) * vo == (p * vo) * duty;
    }
    calc {
      l * (2.0 * io);
      (p * duty) * (q * io) * duty * t;
      k * (vi - vo) * duty * t;
      (vi - vo) * (t * duty) * k;
    }
  }

  /** The DCM inductance is non-zero once vi differs from vo and k is
      non-zero. */
  lemma DcmInductanceNonZero(vi: real, vo: real, io: real, duty: real, t: real, dt: real,
                             k: real, l: real)
    requires vi > 0.0 && vo > 0.0 && io > 0.0 && t > 0.0 && vi != vo && k != 0.0
    requires duty * vi == vo * k && dt == OnTime(t, duty)
    requires l * (2.0 * io) == (vi - vo) * dt * k
    ensures l != 0.0
  {
    assert duty != 0.0 by {
      assert vo * k != 0.0;
    }
    assert dt != 0.0;
    assert (vi - vo) * dt != 0.0;
    assert (vi - vo) * dt * k != 0.0;
  }

  /** With the DCM relation, the peak (vi - vo) DT / L is 2 io / k. */
  lemma PeakAfterSizing(l: real, vi: real, vo: real, dt: real, io: real, k: real)
    requires l != 0.0 && k != 0.0
    requires l * (2.0 * io) == (vi - vo) * dt * k
    ensures (vi - vo) * dt / l == 2.0 * io / k
  {
    DivCancel((vi - vo) * dt, l);
    DivCancel(2.0 * io, k);
    var a := (vi - vo) * dt / l;
    assert a * l * k == 2.0 * io * l;
    assert (a * k) * l == (2.0 * io) * l;
    assert a * k == 2.0 * io;
    DivByProduct(2.0 * io, k, a);
  }

  /** Replace the inductance and recompute the peak current from it. */
  function WithInductance(b: Buck, l: real): (r: Buck)
    requires Coherent(b)
    requires b.mode == Dcm ==> l != 0.0
    ensures Coherent(r)
    ensures r == b.(ind := l, ilMax := r.ilMax)
    ensures r.ilMax == PeakCurrent(b.mode, b.vi, b.vo, b.dt, b.io, b.deltaIl, l)
    ensures b.mode == Ccm ==> r.ilMax == b.ilMax
  {
    var r := b.(ind := l, ilMax := PeakCurrent(b.mode, b.vi, b.vo, b.dt, b.io, b.deltaIl, l));
    assert Base(r) == Base(b);
    r
  }

  /** What `set_cap` achieves: in CCM the capacitor absorbs the triangular
      ripple current, C 8 f deltaVo = deltaIl; in DCM, C 4 deltaVo is t times
      the excess of the peak current over io. */
  predicate CapacitorRelation(mode: Mode, c: real, f: real, deltaVo: real, deltaIl: real,
                              t: real, ilMax: real, io: real) {
    && (mode == Ccm ==> c * (8.0 * f * deltaVo) == deltaIl)
    && (mode == Dcm ==> c * (4.0 * deltaVo) == t * (ilMax - io))
  }

  /** `set_cap`: size the output capacitor. In DCM it reads the current
      inductance, so calling it before SetInd uses the placeholder. */
  function SetCap(b: Buck): (r: Buck)
    requires Coherent(b)
    requires b.deltaVo != 0.0
    ensures Coherent(r)
    ensures r == b.(cap := r.cap)
    ensures CapacitorRelation(r.mode, r.cap, r.freq, r.deltaVo, r.deltaIl, r.t, r.ilMax, r.io)
  {
    var c := Capacitance(b.mode, b.vi, b.vo, b.freq, b.t, b.duty, b.dt, b.io, b.deltaIl,
                         b.deltaVo, b.ind, b.ilMax);
    var r := b.(cap := c);
    assert Base(r) == Base(b);
    r
  }

  /** `set_cap`'s two formulas: deltaIl / (deltaVo 8 f) in CCM,
      (t / (4 deltaVo)) ((vi - vo) D t / L - io) in DCM. */
  function Capacitance(mode: Mode, vi: real, vo: real, f: real, t: real, duty: real, dt: real,
                       io: real, deltaIl: real, deltaVo: real, ind: real, ilMax: real): (c: real)
    requires deltaVo != 0.0 && f > 0.0 && dt == OnTime(t, duty)
    requires PeakRelation(mode, ilMax, vi, vo, dt, io, deltaIl, ind)
    ensures CapacitorRelation(mode, c, f, deltaVo, deltaIl, t, ilMax, io)
  {
    if mode == Dcm then
      assert (vi - vo) * duty * t == (vi - vo) * dt;
      ScaleCancel(t, 4.0 * deltaVo, ilMax - io);
      (t / (4.0 * deltaVo)) * (((vi - vo) * duty * t / ind) - io)
    else
      assert deltaVo * 8.0 * f == 8.0 * f * deltaVo;
      DivCancel(deltaIl, deltaVo * 8.0 * f);
      deltaIl / (deltaVo * 8.0 * f)
  }

  /** `io * res == vo`: the load resistance reproduces the output voltage. */
  lemma OutputLaw(b: Buck)
    requires Coherent(b)
    ensures b.io * b.res == b.vo
  {
    Ohm(b.io, b.res, b.vo, b.po);
  }

  lemma Ohm(io: real, res: real, vo: real, po: real)
    requires io > 0.0 && io * vo == po && res * (io * io) == po
    ensures io * res == vo
  {
    assert io * (io * res) == io * vo;
    CancelFactor(io, io * res, vo);
  }

  /** CCM bounds sit symmetrically about `io` with spread `deltaIl`; DCM
      valley current is exactly zero. */
  lemma CurrentBounds(b: Buck)
    requires Coherent(b)
    ensures b.mode == Ccm ==> b.ilMax - b.ilMin == b.deltaIl && (b.ilMax + b.ilMin) / 2.0 == b.io
    ensures b.mode == Dcm ==> b.ilMin == 0.0
  {
  }

  /** The zero-current instant tx balances the volt-seconds: vi over the
      on-time equals vo over tx. */
  lemma DecayBalance(b: Buck)
    requires Coherent(b)
    ensures b.tx * b.vo == b.vi * b.dt
  {
  }

  /** `tx` equals the period in CCM and `percentDuty` of it in DCM. */
  lemma DecayInstant(b: Buck)
    requires Coherent(b)
    ensures b.mode == Ccm ==> b.tx == b.t
    ensures b.mode == Dcm ==> b.tx == b.percentDuty * b.t
  {
    DecayBalance(b);
    if b.mode == Dcm {
      FallInstant(b.vi, b.vo, b.t, b.duty, b.dt, b.tx, b.percentDuty);
    } else {
      FallInstant(b.vi, b.vo, b.t, b.duty, b.dt, b.tx, 1.0);
    }
  }

  /** With D vi = k vo, the instant tx with vo tx = vi DT is k t. */
  lemma FallInstant(vi: real, vo: real, t: real, duty: real, dt: real, tx: real, k: real)
    requires vo > 0.0
    requires duty * vi == vo * k && dt == OnTime(t, duty) && tx * vo == vi * dt
    ensures tx == k * t
  {
    calc {
      tx * vo;
      t * (duty * vi);
      (k * t) * vo;
    }
  }

  /** In DCM with `vi > vo` the breakpoints 0, DT, tx are increasing, and the
      idle interval after tx is non-empty exactly when percentDuty < 1. */
  lemma DcmTimeline(b: Buck)
    requires Coherent(b) && b.mode == Dcm
    requires b.vi > b.vo && b.percentDuty > 0.0
    ensures 0.0 < b.dt < b.tx
    ensures b.tx < b.t <==> b.percentDuty < 1.0
  {
    DecayInstant(b);
    Timeline(b.vi, b.vo, b.t, b.duty, b.dt, b.tx, b.percentDuty);
  }

  /** The DCM timeline over the values: DT = t D with D vi = k vo and
      tx = k t. */
  lemma Timeline(vi: real, vo: real, t: real, duty: real, dt: real, tx: real, k: real)
    requires vi > vo > 0.0 && t > 0.0 && k > 0.0
    requires duty * vi == vo * k && dt == OnTime(t, duty) && tx == k * t
    ensures 0.0 < dt < tx
    ensures tx < t <==> k < 1.0
  {
    assert 0.0 < duty by {
      ProductPositive(vo, k);
    }
    assert duty < k by {
      assert duty * vi < k * vi;
    }
    ProductPositive(t, duty);
    assert t * duty < t * k;
    assert tx < t <==> k * t < 1.0 * t;
  }

  /** Sizing the inductor twice gives the same calculator as sizing it once. */
  lemma SetIndIdempotent(b: Buck)
    requires Coherent(b)
    requires b.mode == Ccm ==> b.deltaIl != 0.0
    requires b.mode == Dcm ==> b.vi != b.vo && b.percentDuty != 0.0
    ensures SetInd(SetInd(b)) == SetInd(b)
  {
    var r := SetInd(b);
    var l := Inductance(b.mode, b.vi, b.vo, b.io, b.duty, b.t, b.dt, b.deltaIl, b.percentDuty);
    assert r == WithInductance(b, l);
    assert SetInd(r) == WithInductance(r, l);
  }

  /** In DCM, SetCap before SetInd sizes the capacitor from the placeholder
      inductance; after SetInd it uses the sized peak 2 io / percentDuty. */
  lemma CapacitorSizingOrder(b: Buck)
    requires Coherent(b) && b.mode == Dcm && b.ind == Placeholder
    requires b.deltaVo != 0.0 && b.vi != b.vo && b.percentDuty != 0.0
    ensures SetCap(b).cap * (4.0 * b.deltaVo) == b.t * ((b.vi - b.vo) * b.dt - b.io)
    ensures SetCap(SetInd(b)).cap * (4.0 * b.deltaVo) == b.t * (2.0 * b.io / b.percentDuty - b.io)
  {
    assert b.ilMax == (b.vi - b.vo) * b.dt / Placeholder;
  }

  /** The CCM design point: any calculator built from 50 V to 10 V, 100 W,
      50 kHz and 10 % ripple fractions. */
  lemma CcmDesignPoint(b: Buck)
    requires Coherent(b) && b.mode == Ccm && b.vi == 50.0 && b.vo == 10.0 && b.po == 100.0
    requires b.freq == 50000.0 && b.deltaIl == 0.1 * b.io && b.deltaVo == 0.1 * b.vo
    ensures b.duty == 0.2 && b.io == 10.0 && b.res == 1.0
    ensures b.ilMax == 10.5 && b.ilMin == 9.5
    ensures SetInd(b).ind == 0.00016
    ensures SetCap(SetInd(b)).cap == 0.0000025
  {
    assert b.io == 10.0;
    assert b.t == 0.00002;
    assert b.dt == 0.000004;
    var s := SetInd(b);
    assert s.deltaIl == 1.0 && s.deltaVo == 1.0 && s.freq == 50000.0;
  }

  /** The DCM design point: any calculator built from 500 V to 10 V, 100 W,
      50 kHz with the default fraction 1. The idle interval after tx is
      empty. */
  lemma DcmDesignPoint(b: Buck)
    requires Coherent(b) && b.mode == Dcm && b.vi == 500.0 && b.vo == 10.0 && b.po == 100.0
    requires b.percentDuty == 1.0
    ensures b.duty == 0.02 && b.ilMin == 0.0 && b.tx == b.t
    ensures SetInd(b).ilMax == 20.0
  {
    assert b.io == 10.0;
    DecayInstant(b);
  }
}
