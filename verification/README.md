# Buck and buck-boost converter calculators

A model of two design calculators for DC-DC power converters.

- `Buck` (buck.py) and `BuckBoost` (buck_boost.py) take the input voltage vi, output voltage vo, output power po, switching frequency f, the ripple fractions and the conduction mode (CCM, continuous; DCM, discontinuous inductor current).
- From these they derive the duty cycle, the on-time DT, the load current and resistance, and the inductor-current bounds.
- They size the inductor (`set_ind`) and the output capacitor (`set_cap`).
- They draw every component's voltage and current over two switching periods as lists of breakpoints.
- The buck-boost calculator also computes closed-form component stresses: peak diode voltage, mean and peak diode current, peak switch voltage, and peak and RMS switch current.

The Dafny project has six modules:

- `Common` (common.dfy): the conduction mode, an option type, a waveform as a pair of breakpoint lists, the list operations borrowed from numpy, and small facts about real division.
- `BuckCalc` (buck.dfy): the buck state, its constructor, `set_ind` and `set_cap`.
- `BuckPlots` (buck_plots.dfy): the breakpoint lists of every buck `__plot_*_ccm` / `__plot_*_dcm`.
- `BuckBoostCalc` (buck_boost.dfy): the buck-boost state, including its `info` dictionary, its constructor, the sizing and the current bounds.
- `BuckBoostPlots` (buck_boost_plots.dfy): the breakpoint lists of every buck-boost `__plot_*` and the `plot_graphs` dispatch. Its DCM lists place the instant the inductor current reaches zero at DT + tx, where the source places it at tx (see Findings); the as-written DCM inductor-current list is modelled beside the corrected one.
- `BuckBoostExtrema` (buck_boost_extrema.dfy): the `calc_*` stress methods.

Each calculator's state is an immutable datatype with one field per attribute of the Python object. Each method that updates the object is a function that returns the updated state.

The relations the constructors establish are collected in one invariant: `BuckCalc.Coherent` and `BuckBoostCalc.Steady`. Examples are io vo = po, t f = 1, DT = d t and the peak current through the present inductance. Each quotient of the source is stated there as the product it inverts (io vo = po rather than io = po / vo). For the positive inputs the calculators are meant for, the two forms say the same thing.

Every sizing step is proved to keep that invariant, and to change only the fields the source writes. Each waveform list is tied to an independent physical partner:

- the inductor law L di = v dt between breakpoints;
- volt-second balance over a period;
- charge balance of the output capacitor;
- periodicity;
- Kirchhoff's current law: at each inductor-current breakpoint of the first period, the buck switch and diode currents add up to the inductor current at the same instant (`BuckPlots.CurrentSplit`).

## Model

| member | source | states |
|---|---|---|
| BuckCalc.SelectMode | buck.py:22-30 | `dcm` takes precedence; CCM is chosen exactly when only `ccm` is set; neither flag leaves the mode unassigned |
| BuckCalc.Duty | buck.py:52-56 | the duty times vi is vo in CCM and vo times the DCM fraction in DCM |
| BuckCalc.PeakCurrent | buck.py:62-67 | CCM: the peak lies the ripple above the valley and the two average to io; DCM: peak times L is (vi - vo) DT, the rise from zero over the on-time |
| BuckCalc.ValleyCurrent | buck.py:69-73 | CCM: the valley lies half the ripple below io; DCM: the valley is 0 |
| BuckCalc.NewBuck | buck.py:9-50 | construction succeeds exactly when a mode flag is set, and yields a coherent calculator: the duty satisfies duty vi = vo (CCM) or vo times the DCM fraction, L and C hold the placeholder 1.0, the ripples are the fractions scaled by io and vo, and the inputs are kept |
| BuckCalc.Assemble | buck.py:31-47 | the constructor's field assignments produce a coherent calculator with L and C at the placeholder and the ripples scaled by io and vo |
| BuckCalc.Establish | buck.py:35-40 | the quotients t = 1/f, the duty, DT = t duty, io = po/vo, R = po/io² and tx = vi DT / vo satisfy their product relations, with io positive |
| BuckCalc.Constructed | buck.py:62-73 | the peak current through the placeholder inductance and the valley current complete a coherent calculator |
| BuckCalc.SetInd | buck.py:75-83 | sizing the inductor keeps the calculator coherent and changes only L and the peak; CCM: ripple times L = (vi - vo) DT and the peak is unchanged; DCM: 2 io L = (vi - vo) DT k and the recomputed peak is 2 io / k |
| BuckCalc.Inductance | buck.py:76-80 | the inductance satisfies the inductor relation of its mode, is non-zero in DCM, and in DCM puts the peak current at 2 io / k |
| BuckCalc.DcmInductanceRelation | buck.py:78 | the DCM formula (vi/vo)((vi - vo)/io)(duty² t / 2) satisfies 2 io L = (vi - vo) DT k |
| BuckCalc.DcmInductanceNonZero | buck.py:78 | the DCM inductance is non-zero whenever vi differs from vo |
| BuckCalc.PeakAfterSizing | buck.py:66-67 | with the DCM inductance, the peak (vi - vo) DT / L equals 2 io / k |
| BuckCalc.WithInductance | buck.py:82-83 | storing an inductance and recomputing the peak keeps the calculator coherent; the peak is the one through the new inductance and does not move in CCM |
| BuckCalc.SetCap | buck.py:85-90 | sizing the capacitor keeps the calculator coherent, changes only C, and gives C 8 f ΔVo = ΔiL (CCM) or 4 ΔVo C = t (iL_max - io) (DCM) |
| BuckCalc.Capacitance | buck.py:86-89 | the capacitance satisfies the capacitor relation of its mode |
| BuckCalc.OutputLaw | buck.py:39-41 | the load current times the load resistance is vo |
| BuckCalc.CurrentBounds | buck.py:62-73 | CCM bounds are io plus and minus half the ripple (their difference is the ripple, their mean io); the DCM valley is 0 |
| BuckCalc.DecayBalance | buck.py:63 | tx vo = vi DT |
| BuckCalc.DecayInstant | buck.py:63 | tx is the instant the DCM current reaches zero, k t, and the full period in CCM |
| BuckCalc.DcmTimeline | buck.py:119-122 | in DCM the on-time ends before tx, and tx falls inside the period exactly when the DCM fraction is below 1 |
| BuckCalc.SetIndIdempotent | buck.py:75-83 | sizing the inductor twice gives the same calculator as sizing it once |
| BuckCalc.CapacitorSizingOrder | buck.py:85-90 | the DCM capacitance depends on whether `set_ind` ran first: before it, C uses the placeholder inductance; after it, C uses the peak 2 io / k |
| BuckCalc.CcmDesignPoint | main.py:18 | for 50 V to 10 V, 100 W, 50 kHz, 10 % ripples in CCM: duty 0.2, io 10 A, R 1 Ω, bounds 10.5 / 9.5 A, L 160 µH, C 2.5 µF |
| BuckCalc.DcmDesignPoint | main.py:19 | for 500 V to 10 V, 100 W, 50 kHz in DCM: duty 0.02, valley 0, tx equals the period, and the peak after sizing is 20 A |
| BuckPlots.InductorCurrent | buck.py:108-130 | the inductor current takes only the two bounds, starts at the valley and rises to the peak (and in DCM falls back to the valley at the third breakpoint), then repeats one period later with the times advanced by t (two entries in CCM, three in DCM) |
| BuckPlots.DiodeVoltage | buck.py:232-273 | the switch-node voltage takes only vi, 0 and (DCM) vo; the first period holds vi over two breakpoints, then 0 over two, then (DCM) vo over two, at times 0, DT, DT + 1/f² (the turn-off step), then t (CCM) or tx, tx + 1/f², t (DCM); the second period opens at t + 1/f², and from the second breakpoint on every value repeats one period later with its time advanced by t |
| BuckPlots.CcmDiodeVoltage | buck.py:232-252 | the CCM switch-node voltage holds vi at the first two breakpoints and 0 at the next two and takes no other value; its times are 0, DT, DT + 1/f², t, then t + 1/f² opening the second period; the values repeat every four entries, and from the second breakpoint on the times advance by t every four entries |
| BuckPlots.DcmDiodeVoltage | buck.py:253-273 | the DCM switch-node voltage holds vi, then 0, then vo, each over two breakpoints, at times 0, DT, DT + 1/f², tx, tx + 1/f², t, then t + 1/f² opening the second period; the values repeat every six entries, and from the second breakpoint on the times advance by t every six entries |
| BuckPlots.SwitchVoltage | buck.py:334-375 | on the diode's grid, switch and diode voltage add up to vi at every breakpoint |
| BuckPlots.CurrentSplit | buck.py:181-324 | switch and diode current share one grid; at times 0, DT, t (CCM) or tx (DCM) the switch plus diode current equals the inductor current of buck.py:108-130 at the matching inductor breakpoint; across the 1/f² turn-off step the sum keeps the peak, and (CCM) across the turn-on step it keeps the valley |
| BuckPlots.DiodeCurrent | buck.py:181-222 | the diode current takes 0 or an inductor-current bound; in the first period it is 0 at times 0 and DT, steps to the peak at DT + 1/f² and falls to the valley at t (CCM) or to 0 at tx (DCM); the values repeat every four entries; CCM opens the second period at t + 1/f² and advances the later times by t from the second breakpoint on, DCM advances every time by t |
| BuckPlots.CcmDiodeCurrent | buck.py:181-201 | the CCM diode current: 0, 0, peak, valley at times 0, DT, DT + 1/f², t, then t + 1/f²; values repeat every four entries and, from the second breakpoint on, times advance by t |
| BuckPlots.DcmDiodeCurrent | buck.py:202-222 | the DCM diode current: 0, 0, peak, 0 at times 0, DT, DT + 1/f², tx, taking only 0 and the peak; values repeat every four entries with every time advanced by t |
| BuckPlots.SwitchCurrent | buck.py:283-324 | on the diode's grid the switch current starts at the valley (CCM) or 0 (DCM), reaches the peak at DT, is 0 at the next two breakpoints and repeats every four entries; at most one of switch and diode conducts at each breakpoint, and their sum is an inductor-current bound |
| BuckPlots.CcmSwitchCurrent | buck.py:283-303 | the CCM switch current is the valley at 0, the peak at DT, then 0 at the next two breakpoints, repeating every four entries; it and the diode current never conduct together, and their sum is a bound |
| BuckPlots.DcmSwitchCurrent | buck.py:304-324 | the DCM switch current is 0 at time 0, the peak at DT, then 0 at the next two breakpoints, repeating every four entries; it and the diode current never conduct together, and their sum is a bound |
| BuckPlots.InductorVoltage | buck.py:140-171 | the inductor voltage is the switch-node voltage minus vo at every breakpoint, on the same grid |
| BuckPlots.InductorVoltageDcmAsWritten | buck.py:162-171 | the DCM inductor-voltage list as written has eight entries on the DCM inductor-current grid |
| BuckPlots.DcmInductorVoltageAsWrittenIsCurrent | buck.py:162-171 | that list is the inductor-current list: it starts at 0 where the inductor sees vi - vo ≠ 0 |
| BuckPlots.CapacitorCurrent | buck.py:385-410 | the capacitor current is the inductor current minus io at every breakpoint of the inductor's grid |
| BuckPlots.ResistorCurrent | buck.py:454-479 | the resistor current is io at every breakpoint of the inductor's grid |
| BuckPlots.CapacitorVoltage | buck.py:420-441 | the capacitor voltage is io R at every breakpoint of the capacitor-current grid |
| BuckPlots.ResistorVoltage | buck.py:489-510 | the resistor voltage is io R at every breakpoint of the capacitor-current grid, as for the capacitor in parallel with it |
| BuckPlots.OutputVoltageLevel | buck.py:420-441 | for a constructed calculator, capacitor and resistor voltage lists sit at vo |
| BuckPlots.CapacitorRipple | buck.py:385-410 | the CCM capacitor current swings by ±ΔiL/2 about zero; the DCM one starts at -io |
| BuckPlots.VoltSecondBalance | buck.py:140-171 | the inductor-voltage levels weighted by their durations sum to zero over a period in both modes |
| BuckPlots.InductanceLaw | buck.py:108-171 | L di = v dt holds between consecutive inductor-current breakpoints of the first period, with the voltage of the inductor-voltage list |
| BuckPlots.InductanceLawCcm | buck.py:108-161 | CCM: the rise over DT under vi - vo and the fall over the rest of the period under -vo |
| BuckPlots.InductanceLawDcm | buck.py:119-130 | DCM: the rise to the peak, the fall to zero at tx under -vo, and the idle interval under 0 |
| BuckPlots.SwitchNodeRange | buck.py:232-273 | with vo below vi, switch and diode voltage stay within [0, vi] |
| BuckBoostCalc.ModeName | buck_boost.py:16-22 | the mode label is "CCM" exactly for CCM and "DCM" exactly for DCM |
| BuckBoostCalc.Duty | buck_boost.py:16-21 | the duty lies in (0, 1) and satisfies d (vi + vo) = vo in CCM and 0.85 vo in DCM |
| BuckBoostCalc.Establish | buck_boost.py:13-36 | the constructor's quotients (io, ii, d, t, iL, ΔiL, DT) satisfy their product relations, with positive currents and period |
| BuckBoostCalc.LoadFigures | buck_boost.py:40-42 | R io² = po and efficiency times vi ii = po |
| BuckBoostCalc.Initial | buck_boost.py:9-63 | the state before sizing: derived scalars, load figures, a dictionary mirroring the fields, placeholders 1.0 for L, C and the bounds, tx present exactly in DCM |
| BuckBoostCalc.Scalars | buck_boost.py:9-42 | the attribute assignments satisfy the derived-scalar and load relations with the placeholders in place |
| BuckBoostCalc.NewBuckBoost | buck_boost.py:9-69 | the constructor leaves a steady calculator (scalars, sizing, bounds, load figures, mirrored dictionary), keeping its inputs and mode |
| BuckBoostCalc.Sizing | buck_boost.py:65-66 | `set_ind` then `set_cap` leaves the components sized and touches only L, C and the dictionary |
| BuckBoostCalc.Bounds | buck_boost.py:68-69 | `__calc_il_min` then `__calc_il_max` leaves the bounds in place and touches only the bounds, tx and the dictionary |
| BuckBoostCalc.SetInd | buck_boost.py:74-82 | sizing the inductor satisfies the inductor relation of the mode, keeps the dictionary mirrored, and changes only L and its entry |
| BuckBoostCalc.Inductance | buck_boost.py:75-81 | CCM: L ΔiL = vi DT; DCM: 2 ii L = vi d DT |
| BuckBoostCalc.MirrorsInductance | buck_boost.py:76-81 | updating L together with its dictionary entry keeps the dictionary mirrored |
| BuckBoostCalc.SetCap | buck_boost.py:84-87 | sizing the capacitor satisfies C ΔVo = io DT, keeps the dictionary mirrored, and changes only C and its entry |
| BuckBoostCalc.Capacitance | buck_boost.py:85 | C ΔVo = io DT |
| BuckBoostCalc.MirrorsCapacitance | buck_boost.py:85-86 | updating C together with its dictionary entry keeps the dictionary mirrored |
| BuckBoostCalc.CalcIlMin | buck_boost.py:89-96 | CCM: the valley is iL minus half the ripple; DCM: the valley is 0 and tx vo = vi DT; nothing else changes |
| BuckBoostCalc.CalcIlMax | buck_boost.py:98-105 | CCM: the peak is iL plus half the ripple; DCM: peak L = vi DT and tx vo = vi DT; sizing survives, nothing else changes |
| BuckBoostCalc.FallDuration | buck_boost.py:91 | tx is positive and tx vo = vi DT |
| BuckBoostCalc.PeakDcm | buck_boost.py:101 | the DCM peak satisfies peak L = vi DT |
| BuckBoostCalc.MeanInductorCurrent | buck_boost.py:29 | the duty lies in (0, 1) and the mean inductor current carries io through the off-time: iL (1 - d) = io |
| BuckBoostCalc.OnTimeInsidePeriod | buck_boost.py:37 | 0 < DT < t |
| BuckBoostCalc.InputPower | buck_boost.py:14 | vi ii = po |
| BuckBoostCalc.EfficiencyIsOne | buck_boost.py:42 | the efficiency figure is always 1 |
| BuckBoostCalc.OutputLaw | buck_boost.py:13-40 | io R = vo |
| BuckBoostCalc.CurrentBounds | buck_boost.py:89-105 | CCM bounds differ by the ripple and average to iL; DCM valley is 0 and the peak times d is 2 ii |
| BuckBoostCalc.InductorSizing | buck_boost.py:74-105 | the sized L is non-zero and reads back: vi DT / L is the ripple (CCM) or the peak (DCM) |
| BuckBoostCalc.CapacitorSizing | buck_boost.py:84-87 | the stored C is io d t / ΔVo |
| BuckBoostCalc.SetIndIdempotent | buck_boost.py:74-82 | sizing the inductor twice gives the same calculator as once |
| BuckBoostCalc.SetCapIdempotent | buck_boost.py:84-87 | sizing the capacitor twice gives the same calculator as once |
| BuckBoostCalc.FallEndInstant | buck_boost.py:158-161 | the corrected DCM fall end DT + tx is the instant the current reaches zero: vi DT = vo (end - DT), it equals 0.85 t, and DT < end < t |
| BuckBoostCalc.FallEndAsWrittenMisplaced | buck_boost.py:158-161 | used as an instant, the source's tx breaks the volt-second balance by vo DT > 0, and it lies before DT whenever vi < vo |
| BuckBoostPlots.SwitchCurrent | buck_boost.py:113-134 | the switch current takes 0 or a bound, starts at 0 at time 0, ramps (CCM: from the valley at the jump to the peak at DT; DCM: from 0 to the peak at DT), is 0 for the rest of the period, and repeats every four entries one period later. DCM times use the corrected fall end DT + tx (Findings). |
| BuckBoostPlots.DiodeVoltage | buck_boost.py:219-240 | the diode voltage takes -(vi + vo), 0 and (DCM) -vo; the first period holds -(vi + vo) over two breakpoints, then 0 over two, then (DCM) -vo over two, at times 0, DT, DT + 1e-9, then t (CCM) or DT + tx, DT + tx + 1e-9, t (DCM); the second period opens at t + 1e-9, and from the second breakpoint on every value repeats one period later with its time advanced by t. DCM times use the corrected fall end DT + tx (Findings). |
| BuckBoostPlots.CcmDiodeVoltage | buck_boost.py:230-234 | the CCM diode voltage holds -(vi + vo) at the first two breakpoints and 0 at the next two and takes no other value; its times are 0, DT, DT + 1e-9, t, then t + 1e-9 opening the second period; the values repeat every four entries, and from the second breakpoint on the times advance by t every four entries |
| BuckBoostPlots.DcmDiodeVoltage | buck_boost.py:221-225 | the DCM diode voltage holds -(vi + vo), then 0, then -vo, each over two breakpoints, at times 0, DT, DT + 1e-9, DT + tx, DT + tx + 1e-9, t, then t + 1e-9 opening the second period; the values repeat every six entries, and from the second breakpoint on the times advance by t every six entries. DCM times use the corrected fall end DT + tx (Findings). |
| BuckBoostPlots.SwitchVoltage | buck_boost.py:136-156 | on the diode's grid, the switch voltage minus the diode voltage is vi + vo at every breakpoint. DCM times use the corrected fall end DT + tx (Findings). |
| BuckBoostPlots.InductorCurrent | buck_boost.py:158-175 | the inductor current takes only the bounds (0 as DCM valley), is at the valley at time 0 and at the peak at DT, in DCM is back at 0 at the fall end, and repeats one period later (two entries in CCM, three in DCM). DCM times use the corrected fall end DT + tx (Findings). |
| BuckBoostPlots.InductorCurrentDcmAsWritten | buck_boost.py:158-163 | the DCM inductor-current list as written: the same values as the corrected one, the same times except that the fall end sits at tx and t + tx |
| BuckBoostPlots.InductorVoltage | buck_boost.py:177-196 | the inductor voltage holds vi over the on-time breakpoints, -vo over the fall, 0 while the DCM current is zero, and repeats every four (CCM) or six (DCM) entries one period later; the first times are 0, 1e-9, DT, DT + 1e-9, then t (CCM) or DT + tx, DT + tx + 1e-9 (DCM); the CCM list opens at -vo, the level of the preceding off-time, where the source writes 0; CCM shares the switch-current grid. DCM times use the corrected fall end DT + tx (Findings). |
| BuckBoostPlots.CcmInductorVoltage | buck_boost.py:186-191 | the corrected CCM list: -vo, then vi over two breakpoints, then -vo over two, repeating every four entries on the switch-current grid |
| BuckBoostPlots.DcmInductorVoltage | buck_boost.py:177-183 | the DCM list: 0, vi over two breakpoints, -vo over two, 0, at times 0, 1e-9, DT, DT + 1e-9, DT + tx, DT + tx + 1e-9, repeating every six entries with the times advanced by t. DCM times use the corrected fall end DT + tx (Findings). |
| BuckBoostPlots.InductorVoltageCcmAsWritten | buck_boost.py:189-191 | the CCM inductor-voltage list as the source writes it takes only vi and 0 |
| BuckBoostPlots.VoltSecondAsWrittenUnbalanced | buck_boost.py:189-191 | that list's volt-seconds over a period are vi DT > 0, so it cannot be a steady-state inductor voltage |
| BuckBoostPlots.DiodeCurrent | buck_boost.py:198-217 | the diode current takes 0 or a bound; in the first period it is 0 at times 0 and DT, steps to the peak at DT + 1e-9 and falls to the valley at t (CCM) or to 0 at DT + tx (DCM); the values repeat every four entries; CCM opens the second period at t + 1e-9 and advances the later times by t from the second breakpoint on; DCM shares the switch-current grid and advances every time by t. DCM times use the corrected fall end DT + tx (Findings). |
| BuckBoostPlots.CapacitorCurrent | buck_boost.py:242-263 | the capacitor current is the diode current minus io at every breakpoint of the diode's grid. DCM times use the corrected fall end DT + tx (Findings). |
| BuckBoostPlots.CapacitorCurrentCcmAsWritten | buck_boost.py:255-258 | the CCM list as written agrees with the diode current minus io except that the last breakpoint reads 0 |
| BuckBoostPlots.CapacitorCurrentAsWrittenBreaksPeriod | buck_boost.py:255-258 | that last breakpoint differs from the one a period earlier, while the corrected list repeats and ends at -io |
| BuckBoostPlots.CapacitorVoltage | buck_boost.py:265-285 | the capacitor voltage is vo + ΔVo/2 at time 0 and vo - ΔVo/2 at DT on the on/off grid, takes no other value, and repeats one period later |
| BuckBoostPlots.ResistorCurrent | buck_boost.py:287-303 | the resistor current is io at 0, t and 2t |
| BuckBoostPlots.ResistorVoltage | buck_boost.py:305-326 | the resistor voltage list equals the capacitor voltage list (parallel connection) |
| BuckBoostPlots.PlotGraphs | buck_boost.py:328-348 | a waveform is answered exactly for the ten known codes, and each of the ten codes answers its own waveform ("is" the switch current, "vs" the switch voltage, and so on through "vr"). DCM times use the corrected fall end DT + tx (Findings). |
| BuckBoostPlots.SwitchNodeVoltages | buck_boost.py:219-240 | every diode-voltage breakpoint is at most 0 with minimum -(vi + vo); every switch-voltage breakpoint is at least 0 with maximum vi + vo |
| BuckBoostPlots.VoltSecondBalance | buck_boost.py:177-196 | the corrected inductor-voltage levels weighted by their durations sum to zero over a period in both modes |
| BuckBoostPlots.InductanceLaw | buck_boost.py:158-196 | L di = v dt holds between consecutive inductor-current breakpoints of the first period |
| BuckBoostPlots.InductanceLawCcm | buck_boost.py:168-191 | CCM: the rise over DT under vi and the fall over the off-time under -vo |
| BuckBoostPlots.InductanceLawDcm | buck_boost.py:158-183 | DCM: the rise to the peak under vi, the fall to zero under -vo, and the idle interval under 0 |
| BuckBoostPlots.InductorCurrentAscending | buck_boost.py:158-161 | with the corrected fall end, the inductor-current breakpoints run forward in time |
| BuckBoostPlots.InductorCurrentAsWrittenOrder | buck_boost.py:158-163 | the DCM inductor-current times as written run forward exactly when vi > vo; for vi <= vo the fall end tx comes no later than the peak at DT |
| BuckBoostPlots.FallOrder | buck_boost.py:160-161 | with vo tx = vi DT and 0 < tx < t, the as-written times 0, DT, tx, t, t + DT, t + tx, 2t ascend exactly when vi > vo |
| BuckBoostPlots.CapacitorCharge | buck_boost.py:242-285 | over the on-time the capacitor alone feeds the load: C times the voltage drop equals io DT |
| BuckBoostPlots.OnTimeDischarge | buck_boost.py:84-87 | the sized capacitor falls by exactly ΔVo over DT under -io |
| BuckBoostPlots.OhmAtMean | buck_boost.py:287-326 | the resistor current times R is the centre vo of the resistor-voltage swing |
| BuckBoostExtrema.CalcVdMax | buck_boost.py:350-359 | the result is minus the most negative diode-voltage breakpoint |
| BuckBoostExtrema.CalcVdsMax | buck_boost.py:396-405 | the result is the largest switch-voltage breakpoint |
| BuckBoostExtrema.CalcIdAvg | buck_boost.py:361-379 | the mean diode current is io in both modes |
| BuckBoostExtrema.OffTimeMean | buck_boost.py:376-379 | the CCM formula iL (t - DT) / t is io |
| BuckBoostExtrema.DiodeChargeBalance | buck_boost.py:361-379 | the diode delivers io t per period: iL (t - DT) in CCM, the triangle ½ peak tx in DCM |
| BuckBoostExtrema.TriangleCharge | buck_boost.py:374-375 | the DCM triangle's area ½ peak tx equals io t |
| BuckBoostExtrema.CalcIdMax | buck_boost.py:381-394 | the diode peak is iL_max in both modes, and the top breakpoint of the diode-current list whenever the ripple is positive or the mode is DCM |
| BuckBoostExtrema.CalcIdsMax | buck_boost.py:429-441 | the switch peak is iL_max in both modes, and the top breakpoint of the switch-current list under the same condition |
| BuckBoostExtrema.DcmPeak | buck_boost.py:392 | vi DT / L is the stored DCM peak |
| BuckBoostExtrema.PeakIsTop | buck_boost.py:89-105 | with a positive ripple, or in DCM, the peak is positive and at least the valley; the DCM valley is 0 |
| BuckBoostExtrema.IdsRmsSquared | buck_boost.py:407-427 | DCM: the squared RMS switch current times t is the square integral of the switch-current list's first segment, the ramp from 0 at time 0 to the peak at DT; CCM: it is the square integral of the flat mean iL held over the switch list's on-interval [0, DT] |
| BuckBoostExtrema.DcmIdsRmsSquared | buck_boost.py:409-417 | DCM: three times the squared RMS switch current is peak² d, the mean square of the ramp from 0 to the peak over the on-time |
| BuckBoostExtrema.CcmIdsRmsSquared | buck_boost.py:418-427 | CCM: the squared RMS switch current is iL² d, the flat iL over the on-time |
| BuckBoostExtrema.SwitchRampExcess | buck_boost.py:113-134 | CCM: the drawn ramp from the valley to the peak squares to (iL² + ΔiL²/12) per unit time, ΔiL²/12 above the flat iL² that `calc_ids_rms` uses |

## Left out

- Drawing: `matplotlib` calls, figure settings, titles and labels. The buck's `plot_i_*` / `plot_v_*` wrappers and `plot_all` only choose the CCM or DCM drawing from the mode and put it on a figure; the waveform functions here dispatch on the mode themselves.
- `show_info` (buck) only prints.
- The buck's `times` and `_ixt` lists are caches for plotting. The buck capacitor-current plots read the inductor-current lists a previous plot call cached, and raise `AttributeError` when called first; the model computes them from the inductor current directly.
- `__il_integral` (buck-boost) integrates symbolically with sympy and nothing reads its result.
- BuckBoostExtrema.IdsRmsSquared: states the square of `calc_ids_rms` rather than its square root, because the model has no real square root.
- BuckBoostExtrema.IdsRmsSquared: in CCM it is tied to the flat mean iL over the on-time, as the source computes it, and not to the mean square of the drawn ramp; `SwitchRampExcess` states the ΔiL²/12 difference. In DCM the `Nudge`-wide turn-off jump of the drawn list is left out of the mean square.
- BuckBoostPlots: the DCM time lists (`SwitchCurrent`, `DiodeVoltage`, `DcmDiodeVoltage`, `SwitchVoltage`, `InductorCurrent`, `InductorVoltage`, `DcmInductorVoltage`, `DiodeCurrent`, `CapacitorCurrent` and so `PlotGraphs`) place the fall end at DT + tx, not at tx as the source does; only the inductor-current list is also modelled as written (`InductorCurrentDcmAsWritten`).
- BuckBoostPlots.PlotGraphs: the source returns None after drawing; the model returns the waveform the drawing would show, and no waveform for an unknown code, where the source silently draws nothing.
- BuckBoostExtrema.CalcIdMax and BuckBoostExtrema.CalcIdsMax: the "top breakpoint" part is stated only for DCM or a positive CCM ripple fraction; with a zero or negative fraction the source's bounds are not ordered.
- BuckCalc.NewBuck and BuckBoostCalc.NewBuckBoost require vi, vo, po and f positive, the physical range the calculators are written for. Inputs that make the source divide by zero, and so raise `ZeroDivisionError`, are excluded in the same way: a zero ripple at `set_ind` (CCM) or `set_cap`, and vi = vo or a zero DCM fraction at the buck DCM `set_ind`. Negative voltages and powers are not modelled.
- The buck with neither flag set: the source fails with `AttributeError` at `__set_duty`; the model returns the `ModeUnassigned` fault instead of a calculator.
- The buck's `type` and `name` attributes and the buck-boost `is_dcm` and `modo` attributes are the `Mode` value; `ModeName` gives the label.
- Floating point: every quantity is an exact real, so rounding and overflow are not modelled.
- The 1e-9 s drawn jump is modelled as the constant `Nudge` (buck-boost) and as 1/f² (buck, as the source computes it). The model does not claim the jumped grids ascend when the jump exceeds an interval.
- BuckBoostExtrema.DiodeChargeBalance: the DCM charge is stated over the fall duration tx, which the source stores; the waveform integral itself is not computed.
- The buck-boost comment calls the DCM duty "90 %" of the CCM duty, but the code multiplies by 0.85; the model follows the code.
- converters.py and main.py are not part of this model, apart from the buck design points in main.py that the two design-point lemmas check.

## Findings

| source | as written | input that shows it | evidently intended | confidence | as-written member | corrected member |
|---|---|---|---|---|---|---|
| buck.py:162-171 | the DCM inductor-voltage plot uses the inductor-current list as its y values | any DCM buck, e.g. vi 500, vo 10, po 100, f 50 kHz: the first value is 0 A, but the inductor sees vi - vo = 490 V | vi - vo during the on-time, -vo during the fall, 0 while the current is zero | high (not executed) | BuckPlots.DcmInductorVoltageAsWrittenIsCurrent | BuckPlots.InductorVoltage |
| buck_boost.py:189-191 | the CCM inductor-voltage list shows 0 during the off-time | any CCM buck-boost, e.g. vi 200, vo 25: volt-seconds per period are vi DT > 0 instead of 0 | -vo during the off-time, which balances vi DT | high (not executed) | BuckBoostPlots.VoltSecondAsWrittenUnbalanced | BuckBoostPlots.VoltSecondBalance |
| buck_boost.py:255-258 | the last breakpoint of the CCM capacitor-current list is 0 | any CCM buck-boost: at 2t + 1e-9 s the diode is off, so the current is -io, as four entries earlier | -io, keeping the period | high (not executed) | BuckBoostPlots.CapacitorCurrentAsWrittenBreaksPeriod | BuckBoostPlots.CapacitorCurrent |
| buck_boost.py:91 | tx = vi DT / vo is the fall duration, yet the DCM plot lists use it as the instant the current reaches zero | DCM, vi 10, vo 30, po 30, f 1 Hz: DT = 0.6375 s, but tx = 0.2125 s, so the inductor-current times go backwards | the instant DT + vi DT / vo (= 0.85 t) | high (not executed) | BuckBoostPlots.InductorCurrentAsWrittenOrder | BuckBoostPlots.InductorCurrentAscending |
