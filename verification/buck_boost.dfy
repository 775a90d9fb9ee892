/**
 * Scalar part of the buck-boost converter calculator (class `BuckBoost`):
 * construction, the inductor and capacitor sizing the constructor runs, the
 * current bounds computed after the sizing, and the `info` dictionary that
 * mirrors the fields.
 */
module BuckBoostCalc {
  import opened Common

  /** DCM duty as a fraction of the CCM duty `vo / (vi + vo)`. */
  const DcmDerating: real := 0.85

  /** A value of the `info` dictionary: the name and the mode are text, every
      other entry is a number. */
  datatype InfoValue = Text(text: string) | Num(num: real)

  /** Calculator state; one field per attribute of the Python object. */
  datatype BuckBoost = BuckBoost(
    vi: real,
    vo: real,
    po: real,
    io: real,            // output current
    ii: real,            // input current
    mode: Mode,
    d: real,             // duty
    tx: Option<real>,    // DCM only: vi DT / vo, absent in CCM
    f: real,
    t: real,             // switching period
    ilMax: real,         // the placeholder until the bounds are computed
    ilMin: real,
    il: real,            // mean inductor current
    deltIlPercent: real, // inductor ripple as a fraction of il
    deltVo: real,        // absolute output-voltage ripple
    deltIl: real,        // absolute inductor-current ripple
    dt: real,            // on-time
    ind: real,           // inductance; the placeholder until SetInd runs
    cap: real,           // capacitance; the placeholder until SetCap runs
    res: real,           // load resistance
    efi: real,           // efficiency
    info: map<string, InfoValue>)

  function ModeName(m: Mode): (s: string)
    ensures s == "CCM" <==> m == Ccm
    ensures s == "DCM" <==> m == Dcm
  {
    match m
    case Ccm => "CCM"
    case Dcm => "DCM"
  }

  /** Duty: vo / (vi + vo) in CCM, derated by 0.85 in DCM. Always strictly
      between 0 and 1. */
  function Duty(vi: real, vo: real, mode: Mode): (d: real)
    requires vi > 0.0 && vo > 0.0
    ensures 0.0 < d < 1.0
    ensures d * (vi + vo) == (if mode == Dcm then DcmDerating * vo else vo)
  {
    var ccm := vo / (vi + vo);
    DivBelowOne(vo, vi + vo);
    DivCancel(vo, vi + vo);
    if mode == Dcm then ccm * DcmDerating else ccm
  }

  /** The dictionary the calculator keeps beside its fields, built from the
      current field values. */
  function InfoOf(b: BuckBoost): map<string, InfoValue> {
    map[
      "Nome" := Text("BuckBoost"),
      "Modo" := Text(ModeName(b.mode)),
      "Vi" := Num(b.vi),
      "Ii" := Num(b.ii),
      "Vo" := Num(b.vo),
      "Io" := Num(b.io),
      "Po" := Num(b.po),
      "Eficiência" := Num(b.efi),
      "D" := Num(b.d),
      "DT" := Num(b.dt),
      "deltaVo" := Num(b.deltVo),
      "deltaIl" := Num(b.deltIl),
      "iL_min" := Num(b.ilMin),
      "iL_max" := Num(b.ilMax),
      "iL" := Num(b.il),
      "F" := Num(b.f),
      "T" := Num(b.t),
      "L" := Num(b.ind),
      "C" := Num(b.cap),
      "Ro" := Num(b.res)
    ]
  }

  /** The dictionary shows the current value of every field it lists. */
  predicate Mirrored(b: BuckBoost) {
    b.info == InfoOf(b)
  }

  /** The calculator with the fields later steps write (bounds, tx,
      inductance, capacitance, dictionary) cleared. */
  function Unsized(b: BuckBoost): BuckBoost {
    b.(ilMax := 0.0, ilMin := 0.0, tx := None, ind := 0.0, cap := 0.0, info := map[])
  }

  /** `__calc_delt_il`: the inductor ripple, the design fraction of the mean
      current. */
  function CalcDeltIl(il: real, percent: real): real {
    il * percent
  }

  /** The on-time DT of a period t at duty d. */
  function OnTime(d: real, t: real): real {
    d * t
  }

  /** The relations the constructor establishes between its inputs and the
      scalars it derives, each quotient stated as the product it inverts:
      io vo = po, ii vi = po, the duty equation, t f = 1, il (1 - d) = io
      (the mean inductor current carries io through the off-time), the
      ripple il * percent and DT = d t; the currents and the period are
      positive. Positive inputs determine each quotient, so these say the
      same as io = po / vo and the rest. */
  predicate Relations(vi: real, vo: real, po: real, f: real, io: real, ii: real, d: real,
                      t: real, il: real, percent: real, deltIl: real, dt: real, mode: Mode) {
    && vi > 0.0 && vo > 0.0 && po > 0.0 && f > 0.0
    && io * vo == po && ii * vi == po
    && 0.0 < d < 1.0 && d * (vi + vo) == (if mode == Dcm then DcmDerating * vo else vo)
    && t * f == 1.0
    && il * (1.0 - d) == io
    && deltIl == CalcDeltIl(il, percent) && dt == OnTime(d, t)
    && io > 0.0 && ii > 0.0 && t > 0.0 && il > 0.0
  }

  /** The constructor's quotients satisfy the relations. */
  lemma Establish(vi: real, vo: real, po: real, f: real, percent: real, mode: Mode)
    requires vi > 0.0 && vo > 0.0 && po > 0.0 && f > 0.0
    ensures Relations(vi, vo, po, f, po / vo, po / vi, Duty(vi, vo, mode), 1.0 / f,
                      po / vo / (1.0 - Duty(vi, vo, mode)), percent,
                      CalcDeltIl(po / vo / (1.0 - Duty(vi, vo, mode)), percent),
                      OnTime(Duty(vi, vo, mode), 1.0 / f), mode)
  {
    var d := Duty(vi, vo, mode);
    DivPositive(po, vo);
    DivPositive(po, vi);
    DivPositive(1.0, f);
    DivPositive(po / vo, 1.0 - d);
    DivCancel(po, vo);
    DivCancel(po, vi);
    DivCancel(1.0, f);
    DivCancel(po / vo, 1.0 - d);
  }

  predicate Fits(s: BuckBoost) {
    Relations(s.vi, s.vo, s.po, s.f, s.io, s.ii, s.d, s.t, s.il, s.deltIlPercent, s.deltIl,
              s.dt, s.mode)
  }

  /** The derived scalars hold their relations; no later step touches these
      fields, and tx is present exactly in DCM. */
  predicate Derived(b: BuckBoost) {
    Fits(Unsized(b)) && (b.mode == Dcm <==> b.tx.Some?)
  }

  /** The load figures: R = po / io^2 and the efficiency po / (vi ii). */
  predicate LoadRelations(vi: real, po: real, io: real, ii: real, res: real, efi: real) {
    && io * io != 0.0 && vi * ii != 0.0
    && res == po / (io * io)
    && efi == po / (vi * ii)
  }

  predicate LoadFits(s: BuckBoost) {
    LoadRelations(s.vi, s.po, s.io, s.ii, s.res, s.efi)
  }

  /** R and the efficiency are well defined for positive currents. */
  lemma LoadFigures(vi: real, po: real, io: real, ii: real)
    requires vi > 0.0 && io > 0.0 && ii > 0.0
    ensures LoadRelations(vi, po, io, ii, po / (io * io), po / (vi * ii))
  {
    ProductPositive(io, io);
    ProductPositive(vi, ii);
  }

  /** The load figures hold; no later step touches their fields. */
  predicate Loaded(b: BuckBoost) {
    LoadFits(Unsized(b))
  }

  /** The constructor up to its first sizing call: inductance, capacitance
      and both current bounds hold the placeholder, and so does the DCM
      instant tx. */
  function Initial(vi: real, vo: real, po: real, freq: real, percentDeltIl: real,
                   percentDeltVo: real, isDcm: bool): (b: BuckBoost)
    requires vi > 0.0 && vo > 0.0 && po > 0.0 && freq > 0.0
    ensures Derived(b) && Loaded(b) && Mirrored(b)
    ensures b.mode == (if isDcm then Dcm else Ccm)
    ensures b.tx == (if isDcm then Some(Placeholder) else None)
    ensures b.ind == Placeholder && b.cap == Placeholder
    ensures b.ilMax == Placeholder && b.ilMin == Placeholder
    ensures b.vi == vi && b.vo == vo && b.po == po && b.f == freq
    ensures b.deltIlPercent == percentDeltIl && b.deltVo == percentDeltVo * vo
  {
    var s := Scalars(vi, vo, po, freq, percentDeltIl, percentDeltVo, isDcm);
    assert Unsized(s.(info := InfoOf(s))) == Unsized(s);
    s.(info := InfoOf(s))
  }

  /** The fields of `Initial` before the dictionary is built. */
  function Scalars(vi: real, vo: real, po: real, freq: real, percentDeltIl: real,
                   percentDeltVo: real, isDcm: bool): (b: BuckBoost)
    requires vi > 0.0 && vo > 0.0 && po > 0.0 && freq > 0.0
    ensures Derived(b)
    ensures Loaded(b)
    ensures b.mode == (if isDcm then Dcm else Ccm)
    ensures b.tx == (if isDcm then Some(Placeholder) else None)
    ensures b.ind == Placeholder && b.cap == Placeholder
    ensures b.ilMax == Placeholder && b.ilMin == Placeholder
    ensures b.vi == vi && b.vo == vo && b.po == po && b.f == freq
    ensures b.deltIlPercent == percentDeltIl && b.deltVo == percentDeltVo * vo
  {
    var mode := if isDcm then Dcm else Ccm;
    var io := po / vo;
    var ii := po / vi;
    var d := Duty(vi, vo, mode);
    var t := 1.0 / freq;
    var il := io / (1.0 - d);
    Establish(vi, vo, po, freq, percentDeltIl, mode);
    DivPositive(po, vo);
    DivPositive(po, vi);
    LoadFigures(vi, po, io, ii);
    BuckBoost(vi, vo, po, io, ii, mode, d, if isDcm then Some(Placeholder) else None,
              freq, t, Placeholder, Placeholder, il, percentDeltIl, percentDeltVo * vo,
              CalcDeltIl(il, percentDeltIl), OnTime(d, t), Placeholder, Placeholder,
              po / (io * io), po / (vi * ii), map[])
  }

  /** The inductor sizing relation: the inductance gives the design ripple
      (CCM) or the design peak current 2 ii / d (DCM) over the on-time. */
  predicate InductorRelation(mode: Mode, l: real, deltIl: real, vi: real, d: real, dt: real,
                             ii: real) {
    && (mode == Ccm ==> deltIl != 0.0 && l * deltIl == vi * dt)
    && (mode == Dcm ==> l * (2.0 * ii) == vi * d * dt)
  }

  /** The capacitor sizing relation: the capacitance gives the design
      voltage ripple while the load draws io over the on-time. */
  predicate CapacitorRelation(c: real, deltVo: real, io: real, dt: real) {
    deltVo != 0.0 && c * deltVo == io * dt
  }

  /** Both sizing relations hold for the fields. */
  predicate Sized(b: BuckBoost) {
    && InductorRelation(b.mode, b.ind, b.deltIl, b.vi, b.d, b.dt, b.ii)
    && CapacitorRelation(b.cap, b.deltVo, b.io, b.dt)
  }

  /** `set_ind`: replaces the inductance and its dictionary entry, nothing
      else. */
  function SetInd(b: BuckBoost): (r: BuckBoost)
    requires Derived(b) && Mirrored(b)
    requires b.mode == Ccm ==> b.deltIl != 0.0
    ensures Derived(r) && Mirrored(r)
    ensures InductorRelation(r.mode, r.ind, r.deltIl, r.vi, r.d, r.dt, r.ii)
    ensures r == b.(ind := r.ind, info := r.info)
  {
    var l := Inductance(b.mode, b.vi, b.d, b.t, b.dt, b.deltIl, b.ii);
    MirrorsInductance(b, l);
    b.(ind := l, info := b.info["L" := Num(l)])
  }

  lemma MirrorsInductance(b: BuckBoost, l: real)
    requires Derived(b) && Mirrored(b)
    ensures Derived(b.(ind := l, info := b.info["L" := Num(l)]))
    ensures Mirrored(b.(ind := l, info := b.info["L" := Num(l)]))
  {
    assert InfoOf(b.(ind := l)) == InfoOf(b)["L" := Num(l)];
    assert Unsized(b.(ind := l, info := b.info["L" := Num(l)])) == Unsized(b);
  }

  /** The inductance `set_ind` computes: vi d t / deltIl in CCM, so that the
      on-time at vi ramps the current by deltIl, and vi d^2 t / (2 ii) in
      DCM. */
  function Inductance(mode: Mode, vi: real, d: real, t: real, dt: real, deltIl: real,
                      ii: real): (l: real)
    requires mode == Ccm ==> deltIl != 0.0
    requires ii > 0.0 && dt == d * t
    ensures InductorRelation(mode, l, deltIl, vi, d, dt, ii)
  {
    if mode == Dcm then
      DivCancel(vi * (d * d) * t, 2.0 * ii);
      assert vi * (d * d) * t == vi * d * dt;
      vi * (d * d) * t / (2.0 * ii)
    else
      DivCancel(vi * d * t, deltIl);
      vi * d * t / deltIl
  }

  /** `set_cap`: replaces the capacitance and its dictionary entry, nothing
      else. */
  function SetCap(b: BuckBoost): (r: BuckBoost)
    requires Derived(b) && Mirrored(b)
    requires b.deltVo != 0.0
    ensures Derived(r) && Mirrored(r)
    ensures CapacitorRelation(r.cap, r.deltVo, r.io, r.dt)
    ensures r == b.(cap := r.cap, info := r.info)
  {
    var c := Capacitance(b.io, b.d, b.t, b.dt, b.deltVo);
    MirrorsCapacitance(b, c);
    b.(cap := c, info := b.info["C" := Num(c)])
  }

  /** The capacitance `set_cap` computes, io d t / deltVo in both modes. */
  function Capacitance(io: real, d: real, t: real, dt: real, deltVo: real): (c: real)
    requires deltVo != 0.0 && dt == d * t
    ensures CapacitorRelation(c, deltVo, io, dt)
  {
    DivCancel(io * d * t, deltVo);
    io * d * t / deltVo
  }

  lemma MirrorsCapacitance(b: BuckBoost, c: real)
    requires Derived(b) && Mirrored(b)
    ensures Derived(b.(cap := c, info := b.info["C" := Num(c)]))
    ensures Mirrored(b.(cap := c, info := b.info["C" := Num(c)]))
  {
    assert InfoOf(b.(cap := c)) == InfoOf(b)["C" := Num(c)];
    assert Unsized(b.(cap := c, info := b.info["C" := Num(c)])) == Unsized(b);
  }

  /** `__calc_il_min`: in DCM the bound is zero and tx is recomputed; in CCM
      the bound sits half a ripple below the mean. */
  function CalcIlMin(b: BuckBoost): (r: BuckBoost)
    requires Derived(b) && Mirrored(b)
    ensures Derived(r) && Mirrored(r)
    ensures Sized(b) ==> Sized(r)
    ensures r == b.(ilMin := r.ilMin, tx := r.tx, info := r.info)
    ensures b.mode == Ccm ==> r.ilMin + 0.5 * b.deltIl == b.il && r.tx == b.tx
    ensures b.mode == Dcm ==> r.ilMin == 0.0 && r.tx.Some? && r.tx.value * b.vo == b.vi * b.dt
  {
    var lo := if b.mode == Dcm then 0.0 else b.il - 0.5 * b.deltIl;
    var tx := if b.mode == Dcm then Some(FallDuration(b)) else b.tx;
    MirrorsValley(b, lo, tx);
    b.(ilMin := lo, tx := tx, info := b.info["iL_min" := Num(lo)])
  }

  /** `__calc_il_max`: in DCM the peak the on-time reaches through the sized
      inductance, with tx recomputed; in CCM half a ripple above the mean. */
  function CalcIlMax(b: BuckBoost): (r: BuckBoost)
    requires Derived(b) && Mirrored(b)
    requires b.mode == Dcm ==> b.ind != 0.0
    ensures Derived(r) && Mirrored(r)
    ensures Sized(b) ==> Sized(r)
    ensures r == b.(ilMax := r.ilMax, tx := r.tx, info := r.info)
    ensures b.mode == Ccm ==> r.ilMax - 0.5 * b.deltIl == b.il && r.tx == b.tx
    ensures b.mode == Dcm ==> r.ilMax * b.ind == b.vi * b.dt
    ensures b.mode == Dcm ==> r.tx.Some? && r.tx.value * b.vo == b.vi * b.dt
  {
    var hi := if b.mode == Dcm then PeakDcm(b) else b.il + 0.5 * b.deltIl;
    var tx := if b.mode == Dcm then Some(FallDuration(b)) else b.tx;
    MirrorsPeak(b, hi, tx);
    b.(ilMax := hi, tx := tx, info := b.info["iL_max" := Num(hi)])
  }

  /** tx = vi DT / vo: how long the inductor current takes to fall from its
      DCM peak to zero, at slope vo / L after rising at vi / L for DT. */
  function FallDuration(b: BuckBoost): (x: real)
    requires Derived(b)
    ensures x > 0.0 && x * b.vo == b.vi * b.dt
  {
    DivCancel(b.vi * b.dt, b.vo);
    DivPositive(b.vi * b.dt, b.vo);
    b.vi * b.dt / b.vo
  }

  /** DCM peak current vi DT / L. */
  function PeakDcm(b: BuckBoost): (m: real)
    requires Derived(b) && b.ind != 0.0
    ensures m * b.ind == b.vi * b.dt
  {
    DivCancel(b.vi * b.dt, b.ind);
    b.vi * b.dt / b.ind
  }

  lemma MirrorsValley(b: BuckBoost, lo: real, tx: Option<real>)
    requires Derived(b) && Mirrored(b)
    requires tx.Some? <==> b.tx.Some?
    ensures Derived(b.(ilMin := lo, tx := tx, info := b.info["iL_min" := Num(lo)]))
    ensures Mirrored(b.(ilMin := lo, tx := tx, info := b.info["iL_min" := Num(lo)]))
  {
    assert InfoOf(b.(ilMin := lo, tx := tx)) == InfoOf(b)["iL_min" := Num(lo)];
    assert Unsized(b.(ilMin := lo, tx := tx, info := b.info["iL_min" := Num(lo)])) == Unsized(b);
  }

  lemma MirrorsPeak(b: BuckBoost, hi: real, tx: Option<real>)
    requires Derived(b) && Mirrored(b)
    requires tx.Some? <==> b.tx.Some?
    ensures Derived(b.(ilMax := hi, tx := tx, info := b.info["iL_max" := Num(hi)]))
    ensures Mirrored(b.(ilMax := hi, tx := tx, info := b.info["iL_max" := Num(hi)]))
  {
    assert InfoOf(b.(ilMax := hi, tx := tx)) == InfoOf(b)["iL_max" := Num(hi)];
    assert Unsized(b.(ilMax := hi, tx := tx, info := b.info["iL_max" := Num(hi)])) == Unsized(b);
  }

  /** The current bounds once the sizing has run: the CCM bounds are the mean
      plus and minus half the ripple, the DCM bounds are zero and the peak
      through the sized inductance, and tx is the fall duration. */
  predicate BoundRelation(mode: Mode, peak: real, valley: real, il: real, deltIl: real,
                          l: real, vi: real, dt: real, vo: real, tx: Option<real>) {
    && (mode == Ccm ==> peak - valley == deltIl && peak + valley == 2.0 * il)
    && (mode == Dcm ==> && valley == 0.0 && peak * l == vi * dt
                        && tx.Some? && tx.value * vo == vi * dt)
  }

  predicate Bounded(b: BuckBoost) {
    BoundRelation(b.mode, b.ilMax, b.ilMin, b.il, b.deltIl, b.ind, b.vi, b.dt, b.vo, b.tx)
  }

  /** The numeric state the constructor leaves: derived scalars, sized
      components and current bounds. */
  predicate Designed(b: BuckBoost) {
    Derived(b) && Sized(b) && Bounded(b)
  }

  /** A calculator as the constructor leaves it, load figures and
      dictionary included. */
  predicate Steady(b: BuckBoost) {
    Designed(b) && Loaded(b) && Mirrored(b)
  }

  /** `BuckBoost.__init__`: the derived scalars, then `set_ind`, `set_cap`,
      `__calc_il_min` and `__calc_il_max`, in that order. */
  function NewBuckBoost(vi: real, vo: real, po: real, freq: real, percentDeltIl: real,
                        percentDeltVo: real, isDcm: bool): (b: BuckBoost)
    requires vi > 0.0 && vo > 0.0 && po > 0.0 && freq > 0.0
    requires percentDeltVo != 0.0
    requires !isDcm ==> percentDeltIl != 0.0
    ensures Steady(b)
    ensures b.mode == (if isDcm then Dcm else Ccm)
    ensures b.vi == vi && b.vo == vo && b.po == po && b.f == freq
    ensures b.deltIlPercent == percentDeltIl && b.deltVo == percentDeltVo * vo
  {
    var b0 := Initial(vi, vo, po, freq, percentDeltIl, percentDeltVo, isDcm);
    MeanInductorCurrent(b0);
    assert percentDeltIl != 0.0 ==> b0.il * percentDeltIl != 0.0;
    var b1 := Sizing(b0);
    var b2 := Bounds(b1);
    assert Unsized(b1) == Unsized(b0);
    assert Unsized(b2) == Unsized(b1);
    b2
  }

  /** `set_ind` then `set_cap`. */
  function Sizing(b: BuckBoost): (r: BuckBoost)
    requires Derived(b) && Mirrored(b)
    requires b.mode == Ccm ==> b.deltIl != 0.0
    requires b.deltVo != 0.0
    ensures Derived(r) && Mirrored(r) && Sized(r)
    ensures r == b.(ind := r.ind, cap := r.cap, info := r.info)
  {
    SetCap(SetInd(b))
  }

  /** `__calc_il_min` then `__calc_il_max`; the sizing relations survive. */
  function Bounds(b: BuckBoost): (r: BuckBoost)
    requires Derived(b) && Mirrored(b) && Sized(b)
    ensures Designed(r) && Mirrored(r)
    ensures r == b.(ilMin := r.ilMin, ilMax := r.ilMax, tx := r.tx, info := r.info)
  {
    InductanceNonZero(b);
    var lo := CalcIlMin(b);
    var r := CalcIlMax(lo);
    r
  }

  /** A sized DCM inductance is never zero, so `__calc_il_max` can divide by
      it. */
  lemma InductanceNonZero(b: BuckBoost)
    requires Derived(b)
    requires b.mode == Dcm ==> b.ind * (2.0 * b.ii) == b.vi * b.d * b.dt
    ensures b.mode == Dcm ==> b.ind != 0.0
  {
    assert b.dt > 0.0;
    assert b.vi * b.d * b.dt > 0.0;
  }

  /** The duty stays strictly inside (0, 1), and the mean inductor current
      carries the output current through the off-time: il (1 - d) = io. */
  lemma MeanInductorCurrent(b: BuckBoost)
    requires Derived(b)
    ensures 0.0 < b.d < 1.0
    ensures b.il > 0.0 && b.il * (1.0 - b.d) == b.io
  {
  }

  /** The on-time lies strictly inside the period. */
  lemma OnTimeInsidePeriod(b: BuckBoost)
    requires Derived(b)
    ensures 0.0 < b.dt < b.t
  {
    assert b.t - b.dt == (1.0 - b.d) * b.t;
    assert (1.0 - b.d) * b.t > 0.0;
  }

  /** The input current carries the output power: vi ii = po. */
  lemma InputPower(b: BuckBoost)
    requires Derived(b)
    ensures b.vi * b.ii == b.po
  {
  }

  /** The model is lossless: ii = po / vi makes the efficiency exactly 1. */
  lemma EfficiencyIsOne(b: BuckBoost)
    requires Derived(b) && Loaded(b)
    ensures b.efi == 1.0
  {
    InputPower(b);
    assert b.vi * b.ii == b.po;
  }

  /** io = po / vo and R = po / io^2 make io R = vo. */
  lemma OutputLaw(b: BuckBoost)
    requires Derived(b) && Loaded(b)
    ensures b.io * b.res == b.vo
  {
    DivCancel(b.po, b.io * b.io);
    OhmFromPower(b.io, b.res, b.vo, b.po);
  }

  lemma OhmFromPower(io: real, res: real, vo: real, po: real)
    requires io != 0.0 && io * io * res == po && io * vo == po
    ensures io * res == vo
  {
    assert io * (io * res) == io * vo;
  }

  /** CCM bounds straddle the mean inductor current by the ripple
      il * percent; the DCM valley is zero and the DCM peak is 2 ii / d. */
  lemma CurrentBounds(b: BuckBoost)
    requires Designed(b)
    ensures b.mode == Ccm ==> b.ilMax - b.ilMin == b.il * b.deltIlPercent
    ensures b.mode == Ccm ==> (b.ilMax + b.ilMin) / 2.0 == b.il
    ensures b.mode == Dcm ==> b.ilMin == 0.0 && b.ilMax * b.d == 2.0 * b.ii
  {
    if b.mode == Dcm {
      assert b.dt > 0.0;
      PeakFromSizing(b.ilMax, b.ind, b.vi, b.d, b.dt, b.ii);
    }
  }

  /** From L di = vi dt at the peak and the DCM sizing rule,
      peak * d = 2 ii. */
  lemma PeakFromSizing(peak: real, l: real, vi: real, d: real, dt: real, ii: real)
    requires peak * l == vi * dt && l * (2.0 * ii) == vi * d * dt
    requires vi > 0.0 && dt > 0.0
    ensures peak * d == 2.0 * ii
  {
    assert peak * (vi * d * dt) == peak * l * (2.0 * ii);
    assert peak * l * (2.0 * ii) == vi * dt * (2.0 * ii);
    assert (vi * dt) * (peak * d) == (vi * dt) * (2.0 * ii);
  }

  /** The sized inductance, read back: in CCM the on-time at vi ramps the
      current by exactly the design ripple; in DCM the peak equals
      vi DT / L. */
  lemma InductorSizing(b: BuckBoost)
    requires Designed(b)
    ensures b.ind != 0.0
    ensures b.mode == Ccm ==> b.vi * b.dt / b.ind == b.deltIl
    ensures b.mode == Dcm ==> b.ilMax == b.vi * b.dt / b.ind
  {
    SizingReadBack(b.mode, b.ind, b.deltIl, b.ilMax, b.ilMin, b.il, b.vi, b.vo, b.d, b.dt, b.t,
                   b.ii, b.tx);
  }

  /** The sizing and bound relations over plain reals, read back. */
  lemma SizingReadBack(mode: Mode, l: real, deltIl: real, peak: real, valley: real, il: real,
                       vi: real, vo: real, d: real, dt: real, t: real, ii: real,
                       tx: Option<real>)
    requires vi > 0.0 && 0.0 < d && t > 0.0 && dt == OnTime(d, t)
    requires InductorRelation(mode, l, deltIl, vi, d, dt, ii)
    requires BoundRelation(mode, peak, valley, il, deltIl, l, vi, dt, vo, tx)
    ensures l != 0.0
    ensures mode == Ccm ==> vi * dt / l == deltIl
    ensures mode == Dcm ==> peak == vi * dt / l
  {
    ProductPositive(d, t);
    if mode == Ccm {
      ReadBack(l, deltIl, vi, dt);
    } else {
      ReadBack(l, peak, vi, dt);
    }
  }

  /** A volt-second product vi DT > 0 equal to L y leaves L non-zero and
      y = vi DT / L. */
  lemma ReadBack(l: real, y: real, vi: real, dt: real)
    requires vi > 0.0 && dt > 0.0 && l * y == vi * dt
    ensures l != 0.0 && y == vi * dt / l
  {
    assert vi * dt > 0.0;
    DivByProduct(vi * dt, l, y);
  }

  /** The sized capacitance is C = io d t / deltVo in both modes. */
  lemma CapacitorSizing(b: BuckBoost)
    requires Designed(b)
    ensures b.cap == b.io * b.d * b.t / b.deltVo
  {
    CapacitanceReadBack(b.cap, b.deltVo, b.io, b.d, b.t, b.dt);
  }

  lemma CapacitanceReadBack(c: real, deltVo: real, io: real, d: real, t: real, dt: real)
    requires CapacitorRelation(c, deltVo, io, dt) && dt == OnTime(d, t)
    ensures c == io * d * t / deltVo
  {
    DivByProduct(io * d * t, deltVo, c);
  }

  /** Sizing the inductor twice gives what sizing it once gives. */
  lemma SetIndIdempotent(b: BuckBoost)
    requires Derived(b) && Mirrored(b)
    requires b.mode == Ccm ==> b.deltIl != 0.0
    ensures SetInd(SetInd(b)) == SetInd(b)
  {
    var l := SetInd(b);
    var ll := SetInd(l);
    assert l.vi == b.vi && l.d == b.d && l.t == b.t && l.dt == b.dt;
    assert l.deltIl == b.deltIl && l.ii == b.ii && l.mode == b.mode;
    assert ll.ind == l.ind;
    assert ll.info == l.info["L" := Num(ll.ind)];
    assert l.info["L" := Num(l.ind)] == l.info;
  }

  /** Sizing the capacitor twice gives what sizing it once gives. */
  lemma SetCapIdempotent(b: BuckBoost)
    requires Derived(b) && Mirrored(b)
    requires b.deltVo != 0.0
    ensures SetCap(SetCap(b)) == SetCap(b)
  {
    var c := SetCap(b);
    var cc := SetCap(c);
    assert c.io == b.io && c.d == b.d && c.t == b.t && c.deltVo == b.deltVo;
    assert cc.cap == c.cap;
    assert cc.info == c.info["C" := Num(cc.cap)];
    assert c.info["C" := Num(c.cap)] == c.info;
  }

  /** Instant at which the DCM inductor current is back at zero: the fall of
      duration tx starts at the end of the on-time. */
  function FallEnd(b: BuckBoost): real
    requires b.tx.Some?
  {
    b.dt + b.tx.value
  }

  /** The instant the plotting code places at tx: it uses the fall duration
      itself. */
  function FallEndAsWritten(b: BuckBoost): real
    requires b.tx.Some?
  {
    b.tx.value
  }

  /** Read as an instant, the fall end balances the inductor's volt-seconds
      (vi over DT against vo over the fall), lies strictly between DT and t,
      and is exactly 0.85 t: the derating leaves 15% of the period idle. */
  lemma FallEndInstant(b: BuckBoost)
    requires Designed(b) && b.mode == Dcm
    ensures b.vi * b.dt == b.vo * (FallEnd(b) - b.dt)
    ensures FallEnd(b) == DcmDerating * b.t
    ensures 0.0 < b.dt < FallEnd(b) < b.t
  {
    var e := FallEnd(b);
    assert b.t > 0.0;
    assert b.dt > 0.0;
    assert e * b.vo == b.dt * (b.vi + b.vo);
    assert b.dt * (b.vi + b.vo) == b.t * (b.d * (b.vi + b.vo));
    assert e * b.vo == (DcmDerating * b.t) * b.vo;
  }

  /** Read as an instant, tx leaves a volt-second residual of vo DT over the
      period, and for vi < vo it lies before the end of the on-time, so the
      plotted breakpoints go backwards in time (vi = 10, vo = 30, f = 1:
      DT = 0.6375, tx = 0.2125). */
  lemma FallEndAsWrittenMisplaced(b: BuckBoost)
    requires Designed(b) && b.mode == Dcm
    ensures b.vi * b.dt - b.vo * (FallEndAsWritten(b) - b.dt) == b.vo * b.dt
    ensures b.vo * b.dt > 0.0
    ensures b.vi < b.vo ==> FallEndAsWritten(b) < b.dt
  {
    assert b.dt > 0.0;
    var x := FallEndAsWritten(b);
    if b.vi < b.vo {
      ShorterThanOnTime(x, b.vi, b.vo, b.dt);
    }
  }

  /** A fall from the peak at slope vo lasts less than the rise at slope vi
      when vi < vo. */
  lemma ShorterThanOnTime(x: real, vi: real, vo: real, dt: real)
    requires x * vo == vi * dt && 0.0 < vi < vo && dt > 0.0
    ensures x < dt
  {
    assert vo * (dt - x) == (vo - vi) * dt;
    assert (vo - vi) * dt > 0.0;
  }
}
