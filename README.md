# nanosquared in Dafny

nanosquared measures the beam quality factor M² of a laser. A GSC-01
controller drives a linear stage. A NanoScan beam profiler reads the beam
width at each stage position. The measurement code then:

- finds the beam waist and the Rayleigh length by searching along the stage;
- lays out scan points as ISO 11146 prescribes;
- records the widths and writes them to a data file;
- fits the Gaussian-beam width law to the data to obtain M².

This project models the core of that program and proves properties of the
model. The modules follow the program's files:

| module | models |
|---|---|
| `Helpers` | `ensureInt`, and Python's `int()` of a float |
| `Rounding` | `np.around` (round half to even), `np.ceil`, `np.sign` |
| `Stats` | `np.average`, `np.std` and `np.sort` on columns of reals |
| `RealMath` | the oracle for `sqrt`, `log2`, `**` and `pi`, and facts about squares and roots |
| `PyStrings` | the `str` methods the scripts use: `strip`, `split`, `find`, `join`, `index`, line iteration |
| `Errors` | the exceptions, and the `Result` and `Option` types that carry them |
| `StageModel` | `Stage`, `GSC01_Stage` and `SGSP26_200` of `src/stage/_stage.py`, as a class with the source's fields |
| `Controller` | the `GSC01` controller, as a class over a serial line made of a command log and a queue of replies |
| `CenterSearch` | `find_center` and `find_center_xy`, the ternary searches for the waist |
| `RayleighSearch` | `find_zR_pps`: a bounding search, then an ITP root search for the point where the width is √2 times the waist |
| `ScanPlan` | the point layout of `take_measurements`: the ISO pattern, its fallbacks and the travel check |
| `Measure` | the `Measurement` class: metadata, the scan loop, writing and reading the data file, the simulated beam, the Rayleigh-length helpers |
| `NanoScanConstants` | the enumerations and flag values of `nanoscan_constants.py` |
| `NanoScan` | the outlier stages of `getAxis_avg_D4Sigma` (top-value trim, spike removal) and the device object |
| `FitFunctions` | `omega_z`, `omega_z_lambda`, `iso_omega_z` and `convertODRtoOCF` |
| `MsqAlgebra` | the closed-form M² value and uncertainty of `_calc_msq` in each mode, and the ISO seed |
| `Fitter` | `MsqFitter` with its ODR and curve_fit back ends |
| `LogReplay` | `tests/outlier/process_fullrun.py`, which rebuilds per-point averages from a measurement log |
| `WrapperGen` | the C# wrapper generator `generate.py` |

Hardware and numerical libraries appear as parameters:

- The camera is a function from stage position and axis to a width.
- The stage controller is a queue of replies.
- The least-squares solvers are a function from model, data and initial
  guesses to a fit output or an error.
- `scipy.signal.find_peaks` is a function from a column to peak indices.
- `ast.literal_eval` is a partial function from text to a pair.
- `sqrt`, `log2`, `**` and `pi` form an `Oracle`. The oracle has only the
  laws the proofs use: a square root is the non-negative root, and `pi`
  lies between 3.14159 and 3.1416.

Python exceptions become `Err` values of a `Result`. A stage position is an
`int`, as the source's `ensureInt` makes it. Widths, millimetres and fit
parameters are `real`. The model does not simulate floating-point rounding,
except for `np.around` and `int()`, which are written out.

Where a loop in the source may not end, the model takes a `fuel` argument,
a bound on its rounds. The lemmas show how much fuel suffices, or that no
amount does.

`find_center_xy` can fail to end as written, and the model proves it.
Each round takes its third points from the bracket of the axis at the front
of the queue, and every queued axis moves its own bracket by comparing its
widths there. An axis whose widths disagree with the front axis's can end up
with an inverted bracket. Once that axis is alone in the queue, its bracket
widens every round and the loop never stops (`XYSearchMayNotEnd`). The
model keeps this behaviour of `find_center_xy`, because no single intended
correction is evident.

The defects listed under Findings below are different: each has an evident
correction. The model states each defect on a twin that follows the source
as written, and the operations built on the defective definition use its
corrected twin. The list of what is left out names every such
operation, with the input on which it differs from the source.

## Model

| member | source | states |
|---|---|---|
| Helpers.Trunc | src/nanosquared/common/helpers.py:69 | `int(f)` truncates toward zero: its magnitude lies within one of the input's, with the same sign |
| Helpers.TruncExact | src/nanosquared/common/helpers.py:69 | `int(f) == f` holds exactly when `f` is integral, and `int(f)` is then the floor |
| Helpers.EnsureInt | src/nanosquared/common/helpers.py:66-76 | `Ok` exactly on integral values, with `int(x)`; `OverflowError` for infinity, which the helper does not catch; `TypeError` for everything else |
| Helpers.EnsureIntIdempotent | src/nanosquared/common/helpers.py:66-71 | feeding the result back in returns it unchanged |
| Helpers.EnsureIntIntegralFloat | src/nanosquared/common/helpers.py:69-71 | an integral float is accepted as the integer it equals |
| Helpers.EnsureIntFraction | src/nanosquared/common/helpers.py:75-76 | a float with a fractional part is refused with `TypeError` |
| Rounding.Sign | src/nanosquared/measurement/measure.py:859 | `np.sign`: -1, 0 or 1, matching the sign of its argument |
| Rounding.Ceil | src/nanosquared/measurement/measure.py:837 | the least integer not below the input |
| Rounding.RoundHalfEven | src/nanosquared/measurement/measure.py:588-589 | `np.around`: within one half of the input, and on a tie the even neighbour |
| Rounding.RoundToNearest | src/nanosquared/measurement/measure.py:588-589 | a value strictly within one half of an integer rounds to that integer |
| Rounding.RoundWithin | src/nanosquared/measurement/measure.py:588-589 | a value between two integers rounds to an integer between them |
| Rounding.ThirdForward | src/nanosquared/measurement/measure.py:588 | a third-step from an integer never ties, so it rounds to `lo + (w + 1) / 3` with floor division |
| Rounding.ThirdBackward | src/nanosquared/measurement/measure.py:589 | the same for a third-step back from `hi` |
| Rounding.MidpointWithin | src/nanosquared/measurement/measure.py:602 | the rounded midpoint of two integers lies between them |
| Stats.MeanBounds | src/nanosquared/cameras/nanoscan.py:244-245 | the mean of a column lies between any bounds of its values |
| Stats.MeanConstant | src/nanosquared/cameras/nanoscan.py:244 | a constant column averages to that constant |
| Stats.PopStdSquare | src/nanosquared/cameras/nanoscan.py:245 | the population deviation is non-negative and squares to the variance |
| Stats.PopStdConstant | src/nanosquared/cameras/nanoscan.py:245 | a constant column has deviation 0 |
| Stats.SortAsc | src/nanosquared/cameras/nanoscan.py:222 | `np.sort` returns an ascending permutation of its input |
| PyStrings.Strip | tests/outlier/process_fullrun.py:15 | a non-empty result neither starts nor ends with whitespace |
| PyStrings.Find | src/cameras/csharp/NanoScanLibrary/generate.py:14 | the first index where the substring occurs, or -1 exactly when it does not occur |
| PyStrings.SplitOn | src/cameras/csharp/NanoScanLibrary/generate.py:14 | `split(sep)` gives at least one piece, and the text itself when the separator does not occur |
| PyStrings.JoinSplit | src/cameras/csharp/NanoScanLibrary/generate.py:14 | joining the pieces of a split with the separator gives back the text |
| PyStrings.SplitChar | src/cameras/csharp/NanoScanLibrary/generate.py:17-18 | `split(c)`: pieces free of `c`, one more than the occurrences of `c` |
| PyStrings.JoinSplitChar | src/cameras/csharp/NanoScanLibrary/generate.py:17-18 | joining the pieces with `c` gives back the text |
| PyStrings.SplitJoinChar | src/cameras/csharp/NanoScanLibrary/generate.py:18 | splitting on `c` undoes a join with `c` when no piece holds `c` |
| PyStrings.SplitWs | src/cameras/csharp/NanoScanLibrary/generate.py:8 | `split()`: non-empty tokens without whitespace |
| PyStrings.SplitWsJoin | src/cameras/csharp/NanoScanLibrary/generate.py:8 | splitting on whitespace undoes a join with single spaces |
| PyStrings.IndexOf | src/cameras/csharp/NanoScanLibrary/generate.py:10 | `list.index`: the first position of the element, `ValueError` exactly when it is absent |
| PyStrings.Lines | src/nanosquared/measurement/measure.py:453 | iterating a file: the lines are non-empty and concatenate back to the text |
| PyStrings.LinesOfUnlines | src/nanosquared/measurement/measure.py:411-456 | reading back a text written line by line gives each line with its newline |
| StageModel.InitialStage | src/stage/_stage.py:17-31 | a fresh stage holds the given position, neither flag set and not ranged |
| StageModel.PositionSet | src/stage/_stage.py:103-124 | the setter stores `ensureInt(x)` when it is within `[LIMIT_LOWER, LIMIT_UPPER]`; otherwise it raises the `ensureInt` error or `PositionOutOfBoundsError` and changes nothing |
| StageModel.NewStage | src/stage/_stage.py:126-154 | `Ok` exactly for an integral position within ±16777215, and then a fresh GSC-01 stage (limits ±16777215, speeds 0) or SGSP26-200 (travel 200, pulse range 100557) |
| StageModel.PositionGet | src/stage/_stage.py:93-97 | the getter returns the position exactly when the stage is not dirty, otherwise `PositionDirtyError` |
| StageModel.DirtySet | src/stage/_stage.py:78-90 | setting `dirty` is free while the stage is not permanently dirty; once it is, `True` raises and `False` changes nothing |
| StageModel.PermDirtySet | src/stage/_stage.py:62-71 | setting `permDirty` makes the stage dirty and permanently dirty; on a stage already permanently dirty it raises `PositionDirtyError` |
| StageModel.FlagsStayCoherent | src/stage/_stage.py:62-90 | no flag transition leaves a permanently dirty stage clean |
| StageModel.PermDirtySticky | src/stage/_stage.py:62-90 | no setter clears `permDirty` or makes such a stage clean |
| StageModel.PositionRoundTrip | src/stage/_stage.py:93-124 | a position stored while clean reads back unchanged |
| StageModel.LimitsSet | src/stage/_stage.py:34-55 | the intended `setLimits`, the corrected half of the Findings row: `ValueError` when upper < lower; otherwise both limits replaced and nothing else |
| StageModel.SetLimitsIgnoresUpper | src/stage/_stage.py:54-55 | as written, re-zeroing a ranged SGSP26-200 leaves its upper limit in place; as intended it shifts |
| StageModel.UmPerPulseRecalculated | src/stage/_stage.py:191-196 | `um_per_pulse = travel * 1000 / pulseRange`, `ZeroDivisionError` for a zero range |
| StageModel.Sgsp26UmPerPulse | src/stage/_stage.py:204-210 | an SGSP26-200 moves just under 2 µm per pulse |
| StageModel.StageReset | src/stage/_stage.py:198-216 | `resetStage` through the corrected `LimitsSet`: ±16777215 for a GSC-01 stage, ±(pulseRange - 1)/2 for an SGSP26-200 |
| StageModel.Sgsp26ResetSymmetric | src/stage/_stage.py:212-216 | the SGSP26-200 reset is symmetric, ±50278 for 100557 pulses |
| StageModel.Stage.constructor | src/stage/_stage.py:126-210 | the object holds `NewStage` of its kind and position |
| StageModel.Stage.SetPosition | src/stage/_stage.py:100-124 | the new state is `PositionSet` of the old one, or unchanged on error |
| StageModel.Stage.GetPosition | src/stage/_stage.py:93-97 | returns `PositionGet`; nothing changes |
| StageModel.Stage.SetDirty | src/stage/_stage.py:78-90 | the new state is `DirtySet` of the old one |
| StageModel.Stage.SetPermDirty | src/stage/_stage.py:62-71 | the new state is `PermDirtySet` of the old one |
| StageModel.Stage.SetLimits | src/stage/_stage.py:34-55 | the new state is the corrected `LimitsSet` of the old one, or unchanged on `ValueError` |
| StageModel.Stage.RecalculateUmPerPulse | src/stage/_stage.py:191-196 | the new state is `UmPerPulseRecalculated` of the old one |
| StageModel.Stage.ResetStage | src/stage/_stage.py:198-216 | the new state is `StageReset` of the old one, both limits set |
| Controller.Swallowed | stage/errors.py:15-33 | a decorated method turns a `ControllerError` into a normal return and passes every other exception through |
| Controller.SafeSendStep | src/nanosquared/stage/controller.py:740-749 | `safesend` writes the command and takes one reply; `NG` raises `ControllerError`; in development mode nothing is sent |
| Controller.IsBusyStep | src/nanosquared/stage/controller.py:692-711 | `!:` answered `R` is not busy, `B` is busy, and anything else, even nothing, is `None` |
| Controller.WaitClearFrom | src/nanosquared/stage/controller.py:801-842 | `waitClear` ends with `True` or with `RuntimeError` (never in development mode), and touches neither the stage nor the power state |
| Controller.WaitClearReady | src/nanosquared/stage/controller.py:823-825 | an `R` reply ends the wait at once with `True`, after one `!:` query |
| Controller.WaitClearBusy | src/nanosquared/stage/controller.py:826-839 | a `B` reply consumes one poll and does not count toward the timeout |
| Controller.PollAdvance | src/nanosquared/stage/controller.py:823-839 | each poll that is not `R` either ends the wait with `RuntimeError` on the fifteenth silent poll or leaves the same outcome to come, with one fewer reply or one more silent poll counted |
| Controller.WaitClearTimesOut | src/nanosquared/stage/controller.py:818-834 | a silent controller is polled 15 times in all, then the wait raises `RuntimeError` |
| Controller.Requested | src/nanosquared/stage/controller.py:404-407 | `combine`: `abs(ensureInt(x))` for each given value, the stored one for `None`; on failure the error of the first value `ensureInt` refuses |
| Controller.SpeedChecked | src/nanosquared/stage/controller.py:411-421 | a speed is floored to a multiple of 100, and reverts to the stored one outside 100..20000 |
| Controller.Adjusted | src/nanosquared/stage/controller.py:411-429 | the adjusted speeds are checked, min ≤ max, and `acdcTime` within 0..1000 or the stored one |
| Controller.SpeedPlan | src/nanosquared/stage/controller.py:404-429 | the values `setSpeed` stores: speeds that are multiples of 100 in 100..20000 or stored ones, min ≤ max, and `acdcTime` in 0..1000 or the stored one |
| Controller.AdjustSpeeds | src/nanosquared/stage/controller.py:410-429 | the loop over `combine`, then the swap and the `acdcTime` check, equals `Adjusted` |
| Controller.SpeedPlanRejectsInverted | src/nanosquared/stage/controller.py:409 | a requested minimum above the requested maximum is refused |
| Controller.SpeedPlanKeeps | src/nanosquared/stage/controller.py:404-433 | valid values are stored as given, and an omitted jog speed keeps a valid stored one |
| Controller.InitSpeedPlan | src/nanosquared/stage/controller.py:294-300 | `initSpeed` (500, 500, 5000, 200) is stored unchanged |
| Controller.SetSpeedStep | src/nanosquared/stage/controller.py:348-440 | a refused plan changes nothing; otherwise only the stage's speeds and `acdcTime` change, with min ≤ max; in development mode nothing is sent |
| Controller.SendSpeeds | src/nanosquared/stage/controller.py:431-440 | the four values become the stage's speeds and `acdcTime`, and nothing else of the stage or power changes; in development mode nothing is sent |
| Controller.ReadOutStep | src/nanosquared/stage/controller.py:661-689 | the readout is the coordinate of the `Q:` reply; 0 in development mode; another reply raises |
| Controller.PoweredStep | src/nanosquared/stage/controller.py:326-343 | releasing a powered motor makes the position permanently dirty; the flag follows an accepted command |
| Controller.ResetKeepsSpan | src/nanosquared/stage/controller.py:470-478 | re-zeroing a clean stage puts it at 0; with the corrected `LimitsSet` a ranged stage's limits keep their span |
| Controller.HomeCleans | src/nanosquared/stage/controller.py:443-468 | homing, once accepted and ready, leaves a clean stage at 0 |
| Controller.Widened | src/nanosquared/stage/controller.py:644-652 | a readout beyond a limit moves that limit onto it, and the pulse range becomes the distance between the limits |
| Controller.SyncStep | src/nanosquared/stage/controller.py:628-658 | `syncPosition` never changes the power state; its effect on the stage is given by `SyncWithinLimits`, `SyncKeepsPermDirty` and `SyncCleans` |
| Controller.SyncFinish | src/nanosquared/stage/controller.py:653-658 | a `ControllerError` is swallowed, and a powered stage is marked clean |
| Controller.SyncWithinLimits | src/nanosquared/stage/controller.py:640-652 | after a successful sync the stored position lies within the limits |
| Controller.SyncKeepsPermDirty | src/nanosquared/stage/controller.py:628-658 | syncing never changes the permanent dirty flag |
| Controller.SyncCleans | src/nanosquared/stage/controller.py:655-656 | a successful sync of a powered stage that is not permanently dirty leaves it clean |
| Controller.SyncDevMode | src/nanosquared/stage/controller.py:641 | in development mode the position becomes 0 and limits around 0 are kept |
| Controller.SweepDevMode | src/nanosquared/stage/controller.py:499-505 | in development mode one half of `findRange` reads 0 and leaves the position dirty |
| Controller.StopEmergency | src/nanosquared/stage/controller.py:720-735 | an emergency stop sends `L:E` and changes nothing else; a clean stop does not sync |
| Controller.JogDirties | src/nanosquared/stage/controller.py:526-561 | a jog the controller accepts leaves the position dirty |
| Controller.MovePrecheck | src/nanosquared/stage/controller.py:564-589 | an out-of-range target raises and sends nothing; an in-range one is stored and sent |
| Controller.RelativeMovePrecheck | src/nanosquared/stage/controller.py:592-617 | a relative move of a dirty stage, or past a limit, raises before anything is sent |
| Controller.StartDevMode | src/nanosquared/stage/controller.py:277-310 | in development mode a new controller is powered, clean, at 0 and at the initial speeds |
| Controller.JogSpeedOnly | src/nanosquared/stage/controller.py:496-497 | changing only the jog speed succeeds whenever the stored min does not exceed the max |
| Controller.JogDevMode | src/nanosquared/stage/controller.py:497-519 | setting the jog speed keeps what the rest of `findRange` relies on |
| Controller.RangeFromEndsDevMode | src/nanosquared/stage/controller.py:507-523 | with the corrected `LimitsSet`, the tail of `findRange` in development mode ends clean at 0 over ±50278 |
| Controller.FindRangeDevMode | src/nanosquared/stage/controller.py:480-523 | in development mode `findRange` returns 100557, sets `um_per_pulse` and, with the corrected `LimitsSet`, limits ±50278, and leaves the stage ranged and clean at 0 |
| Controller.Gsc01.constructor | src/nanosquared/stage/controller.py:267-290 | not powered and nothing sent, over the given stage and replies |
| Controller.Gsc01.SafeSend | src/nanosquared/stage/controller.py:740-749 | the new state and the result are `SafeSendStep` of the old state |
| Controller.Gsc01.IsBusy | src/nanosquared/stage/controller.py:692-711 | the new state and the result are `IsBusyStep` |
| Controller.Gsc01.WaitClear | src/nanosquared/stage/controller.py:801-842 | the polling loop's state and result are `WaitClearFrom(…, 0)` |
| Controller.Gsc01.PollOnce | src/nanosquared/stage/controller.py:822-839 | one pass of the loop keeps what is left of the wait, and the counters progress |
| Controller.Gsc01.SetSpeed | src/nanosquared/stage/controller.py:348-440 | the new state and the result are `SetSpeedStep` |
| Controller.Gsc01.StoreAndSend | src/nanosquared/stage/controller.py:431-440 | the new state and the result are `SendSpeeds` |
| Controller.Gsc01.GetPositionReadOut | src/nanosquared/stage/controller.py:661-689 | the new state and the result are `ReadOutStep` |
| Controller.Gsc01.SetPowered | src/nanosquared/stage/controller.py:326-343 | the new state and the result are `PoweredStep` |
| Controller.Gsc01.ReleaseMotor | src/nanosquared/stage/controller.py:619-621 | `PoweredStep(false)` with a `ControllerError` swallowed |
| Controller.Gsc01.PowerMotor | src/nanosquared/stage/controller.py:623-625 | `PoweredStep(true)` with a `ControllerError` swallowed |
| Controller.Gsc01.ResetPositionToZero | src/nanosquared/stage/controller.py:470-478 | the new state and the result are `ResetToZeroStep`, which shifts both limits |
| Controller.Gsc01.HomeStage | src/nanosquared/stage/controller.py:442-468 | the new state and the result are `HomeStep` |
| Controller.Gsc01.SyncPosition | src/nanosquared/stage/controller.py:627-658 | the new state and the result are `SyncStep` |
| Controller.Gsc01.WidenTo | src/nanosquared/stage/controller.py:644-652 | the stage becomes `Widened` of the old one |
| Controller.Gsc01.Stop | src/nanosquared/stage/controller.py:719-735 | the new state and the result are `StopStep` |
| Controller.Gsc01.Jog | src/nanosquared/stage/controller.py:525-561 | the new state and the result are `JogStep` |
| Controller.Gsc01.Move | src/nanosquared/stage/controller.py:563-589 | the new state and the result are `MoveStep` |
| Controller.Gsc01.RelativeMove | src/nanosquared/stage/controller.py:591-617 | the new state and the result are `RelativeMoveStep` |
| Controller.Gsc01.Sweep | src/nanosquared/stage/controller.py:499-505 | one half of `findRange` equals `SweepStep` |
| Controller.Gsc01.FindRange | src/nanosquared/stage/controller.py:480-523 | the new state and the result are `FindRangeStep`, which stores both limits |
| Controller.Gsc01.FinishRange | src/nanosquared/stage/controller.py:507-523 | the rest of `findRange` once both ends are read equals `RangeFromEnds`, which stores both limits |
| Controller.Gsc01.ApplyRange | src/nanosquared/stage/controller.py:512-523 | storing both limits and restoring the jog speed equals `RangeLimits` |
| Controller.Gsc01.Start | src/nanosquared/stage/controller.py:281-310 | the constructor body from `waitClear` to `checkDirtiness` equals `StartStep` |
| CenterSearch.ThirdsRound | src/nanosquared/measurement/measure.py:588-589 | `np.around(left + w / 3)` and `np.around(right - w / 3)`, with `w = right - left`, are `left + (w + 1) / 3` and `right - (w + 1) / 3` in floor division |
| CenterSearch.MidpointRounds | src/nanosquared/measurement/measure.py:602 | `np.around((left + right) / 2)` is the integer midpoint, a half going to the even neighbour, and lies between the ends |
| CenterSearch.TernaryRoundNarrows | src/nanosquared/measurement/measure.py:587-599 | a bracket at least two pulses wide shrinks strictly, stays ordered and is nested in the old one |
| CenterSearch.Ternary | src/nanosquared/measurement/measure.py:584-604 | as written, the search returns a position or runs out of rounds (`Diverges`), and nothing else |
| CenterSearch.TernaryFinishes | src/nanosquared/measurement/measure.py:584-604 | with a precision of at least 2 the search ends within `right - left` rounds, inside the starting bracket |
| CenterSearch.TernaryStalls | src/nanosquared/measurement/measure.py:587-599 | with a precision of 1 or less a one-pulse bracket never changes, so the search never ends |
| CenterSearch.ClampedPrecision | src/nanosquared/measurement/measure.py:650-652 | the precision raised to at least 2, as `find_center_xy` does |
| CenterSearch.ClampedSearchFinishes | src/nanosquared/measurement/measure.py:584-604 | the clamped search always ends, inside the starting bracket |
| CenterSearch.TernaryStep | src/nanosquared/measurement/measure.py:587-599 | a bracket still as wide as the precision runs one round and the search goes on from the narrower bracket |
| CenterSearch.TernaryRoundKeepsWaist | src/nanosquared/measurement/measure.py:596-599 | on a beam narrowing strictly to a waist and widening after it, a round keeps the waist in the bracket (`l > r` means the waist is right of `left_third`, otherwise left of `right_third`); only a two-pulse bracket, whose third points coincide, may leave it one pulse outside |
| CenterSearch.TernaryNearWaist | src/nanosquared/measurement/measure.py:584-604 | on such a beam, from a bracket holding the waist and with a precision of at least 2, the search ends at most `precision / 2 + 1` pulses from the waist |
| CenterSearch.ClampedSearchNearWaist | src/nanosquared/measurement/measure.py:584-604 | the clamped search ends within `precision / 2 + 1` pulses (clamped precision) of the waist of such a beam: "the approximate beam-waist position" |
| CenterSearch.SearchCenter | src/nanosquared/measurement/measure.py:584-604 | the loop equals the clamped search function |
| CenterSearch.XYRound | src/nanosquared/measurement/measure.py:669-697 | one round keeps the state well formed, pops at most the front axis, and leaves the brackets of popped axes unchanged |
| CenterSearch.XYThirds | src/nanosquared/measurement/measure.py:672-674 | the round's third points are `LeftThird`/`RightThird` of the absolute width |
| CenterSearch.XYSearch | src/nanosquared/measurement/measure.py:665-706 | the two-axis search returns a pair of centres or runs out of rounds, and nothing else |
| CenterSearch.XYPoppedAxisFrozen | src/nanosquared/measurement/measure.py:684-697 | once X has left the queue its reported centre is the midpoint of the bracket it left with |
| CenterSearch.CenterXY | src/nanosquared/measurement/measure.py:637-652 | a bound list holding a value that is not an `int` makes `find_center_xy` return (0, 0); the stage limits are passed as `int`s |
| CenterSearch.XYStep | src/nanosquared/measurement/measure.py:669-697 | one pass of `for i in queue` and the pop equals `XYRound` |
| CenterSearch.SearchCenterXY | src/nanosquared/measurement/measure.py:654-706 | the loop over list brackets and a queue index equals `XYSearch` |
| CenterSearch.InvertedBracketGrows | src/nanosquared/measurement/measure.py:684-697 | with only Y queued and its bracket inverted, no round ends the search |
| CenterSearch.XYSearchMayNotEnd | src/nanosquared/measurement/measure.py:646-706 | there is a beam on which `find_center_xy` does not end, however many rounds it is given |
| CenterSearch.CenterOf | src/nanosquared/measurement/measure.py:561-582 | `find_center` with the clamped search: an unknown axis gives no centre; `BOTH` with single-axis bounds raises `TypeError`; a single axis in development mode gives `um_to_pulse(0)`: 0, `AttributeError` while the stage has no `um_per_pulse`, `ZeroDivisionError` when it is 0 |
| CenterSearch.CenterWithinBounds | src/nanosquared/measurement/measure.py:575-604 | off development mode a single-axis centre lies within the bounds searched |
| CenterSearch.CenterNearWaist | src/nanosquared/measurement/measure.py:575-604 | off development mode, on a beam narrowing strictly to a waist within the bounds searched and widening after it, the single-axis centre lies within `precision / 2 + 1` pulses (clamped precision) of the waist |
| RayleighSearch.ExcessAtCenter | src/nanosquared/measurement/measure.py:762-769 | the width excess over √2 times the waist is negative at the centre |
| RayleighSearch.Probe | src/nanosquared/measurement/measure.py:794 | the probe lies between origin and bound |
| RayleighSearch.ProbeCloser | src/nanosquared/measurement/measure.py:789-804 | a probe moves the origin closer to the bound unless it is within one pulse already |
| RayleighSearch.BoundingSearch | src/nanosquared/measurement/measure.py:785-820 | a probe above the crossing has a positive sampled excess, an exact hit has excess 0, and failure is `StageOutOfRangeError` or running out of rounds |
| RayleighSearch.BoundingEnds | src/nanosquared/measurement/measure.py:785-820 | with a precision of at least one pulse and enough rounds the bounding search does not run out of rounds |
| RayleighSearch.BoundingOutOfRange | src/nanosquared/measurement/measure.py:806-820 | a beam narrower than √2 times the waist everywhere makes both directions fail |
| RayleighSearch.ItpLoop | src/nanosquared/measurement/measure.py:842-888 | the ITP loop fails only on a non-finite step or by running out of rounds |
| RayleighSearch.ItpSearch | src/nanosquared/measurement/measure.py:837-888 | with `n_max = ceil(log2(width / 2 precision))` the phase fails only on a non-finite step or by running out of rounds |
| RayleighSearch.FalsiBetween | src/nanosquared/measurement/measure.py:852 | the regula falsi point lies within a sign-changing bracket |
| RayleighSearch.TruncatedBetween | src/nanosquared/measurement/measure.py:858-860 | truncation keeps the point in the bracket |
| RayleighSearch.ProjectedWithin | src/nanosquared/measurement/measure.py:869-870 | the projection keeps the point within the bracket `[a, b]` |
| RayleighSearch.RadiusAbove | src/nanosquared/measurement/measure.py:846 | with a positive precision the minmax radius is never below minus half the bracket |
| RayleighSearch.DeltaNonnegative | src/nanosquared/measurement/measure.py:847 | the truncation step is non-negative |
| RayleighSearch.ProbeInBracket | src/nanosquared/measurement/measure.py:845-876 | each ITP probe lies in the bracket when `kappa1 >= 0` and the precision is positive |
| RayleighSearch.ItpRoundKeeps | src/nanosquared/measurement/measure.py:842-888 | a round keeps a sign-changing bracket nested in the old one, its values sampled from `f` |
| RayleighSearch.ItpLoopBrackets | src/nanosquared/measurement/measure.py:842-888 | at exit the bracket is at most twice the precision wide, nested, and still brackets a root |
| RayleighSearch.ItpSearchBrackets | src/nanosquared/measurement/measure.py:837-888 | the same for the whole ITP phase from the initial bracket |
| RayleighSearch.MidpointNear | src/nanosquared/measurement/measure.py:890 | the rounded midpoint of such a bracket is within the precision of both ends |
| RayleighSearch.Located | src/nanosquared/measurement/measure.py:822-890 | locating the crossing fails only on a non-finite step or by running out of rounds |
| RayleighSearch.ZRSearch | src/nanosquared/measurement/measure.py:780-890 | the single-axis search fails only with `StageOutOfRangeError`, a non-finite step or by running out of rounds |
| RayleighSearch.ZRAsWritten | src/nanosquared/measurement/measure.py:780-911 | the as-written `find_zR_pps` fails only with `StageOutOfRangeError`, a non-finite step or by running out of rounds |
| RayleighSearch.ZR | src/nanosquared/measurement/measure.py:780-911 | the corrected `find_zR_pps` fails in the same ways, and with a known `um_per_pulse` returns a non-negative length |
| RayleighSearch.LocatedNearCrossing | src/nanosquared/measurement/measure.py:822-890 | the position found is within the precision of two sampled positions where the excess changes sign |
| RayleighSearch.ZRLocatesCrossing | src/nanosquared/measurement/measure.py:780-911 | `center ± z` lies within precision of sampled positions between which the width crosses √2 times the waist |
| RayleighSearch.ZRAsWrittenLocatesCrossing | src/nanosquared/measurement/measure.py:780-911 | what the as-written `find_zR_pps` returns: unless the bounding search stops on an exact zero, it equals the corrected `ZR`, a non-negative length with `center ± z` within precision of sampled positions between which the width crosses √2 times the waist; on an exact zero it is that root's position |
| RayleighSearch.ExactHitAsWritten | src/nanosquared/measurement/measure.py:801-802 | a probe that hits the crossing exactly is returned as a position, not a length, unlike `ZR` |
| RayleighSearch.ZROutOfRange | src/nanosquared/measurement/measure.py:806-820 | a beam whose excess is negative everywhere makes the search raise `StageOutOfRangeError` |
| RayleighSearch.ZRBoth | src/nanosquared/measurement/measure.py:892-899 | `BOTH` with the corrected `ZR`: the pair of single-axis results, each searched at its own axis's centre, failing only as they do |
| RayleighSearch.BoundingLoop | src/nanosquared/measurement/measure.py:785-820 | the bounding loop with its single retry equals `BoundingSearch` |
| RayleighSearch.ItpIterate | src/nanosquared/measurement/measure.py:842-888 | the ITP loop equals `ItpLoop` |
| RayleighSearch.ItpPhase | src/nanosquared/measurement/measure.py:837-888 | `n_max`, then the ITP loop, equals `ItpSearch` |
| RayleighSearch.LocateRoot | src/nanosquared/measurement/measure.py:822-890 | equals `Located` |
| RayleighSearch.FindZR | src/nanosquared/measurement/measure.py:780-911 | the two loops as written equal `ZRAsWritten`: an exact zero of the bounding search returns that position, otherwise the midpoint's distance from the centre, which `ZRAsWrittenLocatesCrossing` shows is the Rayleigh length near a sampled √2 crossing |
| ScanPlan.Linspace | src/nanosquared/measurement/measure.py:238-239 | integer `linspace`: `n` values, the first `a` and the last `b` |
| ScanPlan.LinspaceIncreasing | src/nanosquared/measurement/measure.py:238-239 | steps of at least one unit keep it strictly increasing |
| ScanPlan.LinspaceBetween | src/nanosquared/measurement/measure.py:238-239 | every value lies between the two ends |
| ScanPlan.Unique | src/nanosquared/measurement/measure.py:247-248 | `np.sort(np.unique(s))`: strictly increasing, with exactly the elements of `s` |
| ScanPlan.UniqueLength | src/nanosquared/measurement/measure.py:247-248 | the result has as many values as `s` has distinct elements |
| ScanPlan.Mirror | src/nanosquared/measurement/measure.py:267 | `np.flip(-points)` keeps the number of points |
| ScanPlan.MirrorIncreasing | src/nanosquared/measurement/measure.py:267 | mirroring keeps a strictly increasing plan strictly increasing |
| ScanPlan.PointsNonempty | src/nanosquared/measurement/measure.py:243-248 | every axis contributes at least its centre |
| ScanPlan.LadderAsWritten | src/nanosquared/measurement/measure.py:252-271 | as written, the ladder returns a non-empty plan, or `ConfigurationError`, or `IndexError` when no axis is given |
| ScanPlan.Ladder | src/nanosquared/measurement/measure.py:252-271 | the corrected ladder fails in the same ways and otherwise returns a non-empty plan |
| ScanPlan.LadderWithinTravel | src/nanosquared/measurement/measure.py:252-271 | an accepted plan is strictly ascending and 10 pulses inside both limits |
| ScanPlan.LadderPrefersSymmetric | src/nanosquared/measurement/measure.py:252-253 | the ISO plan is kept whenever it fits |
| ScanPlan.LadderAsWrittenWithinTravel | src/nanosquared/measurement/measure.py:264-271 | the as-written ladder's accepted plans also keep the travel |
| ScanPlan.WithinShape | src/nanosquared/measurement/measure.py:238 | the ten near offsets are increasing, within `R` and never 0 |
| ScanPlan.WithinEntry | src/nanosquared/measurement/measure.py:238 | no near offset lands on the waist itself |
| ScanPlan.OuterShape | src/nanosquared/measurement/measure.py:239 | the five far offsets are increasing and lie in `[2R, 3R]` |
| ScanPlan.Distribution | src/nanosquared/measurement/measure.py:238-248 | the ISO pattern has 21 distinct offsets: eleven within `R` and ten at least `2R` away |
| ScanPlan.UniqueKeepsSets | src/nanosquared/measurement/measure.py:247-248 | deduplication keeps the set of values |
| ScanPlan.SymmetricDistribution | src/nanosquared/measurement/measure.py:238-248 | for `R >= 9` a single-axis ISO plan has the ISO 11146 split of points near and far from the waist |
| ScanPlan.UniqueShifted | src/nanosquared/measurement/measure.py:244-248 | shifting commutes with deduplication and sorting |
| ScanPlan.SingleAxisPlan | src/nanosquared/measurement/measure.py:243-248 | a single-axis plan is the offset pattern moved to the centre |
| ScanPlan.MirrorLeavesTravel | src/nanosquared/measurement/measure.py:264-271 | as written, a waist near the upper limit can get no plan, while the offsets turned about the waist fit |
| ScanPlan.MirrorAboutZero | src/nanosquared/measurement/measure.py:264-271 | a waist at 900 on a 0..1000 stage with `R = 40`: no plan as written, a plan with the correction |
| ScanPlan.OffsetsExtent | src/nanosquared/measurement/measure.py:238-243 | the least and greatest offset of each pattern |
| ScanPlan.PlanExtent | src/nanosquared/measurement/measure.py:243-248 | a single-axis plan runs from the centre plus the least offset to the centre plus the greatest |
| ScanPlan.RayleighPulses | src/nanosquared/measurement/measure.py:225-233 | one `R` per axis: a given Rayleigh length becomes the pulse count nearest to `rl * 1000 / um_per_pulse` on every axis, `AttributeError` while the stage has no `um_per_pulse`; a search's `StageOutOfRangeError` becomes `ConfigurationError`, its other outcomes pass through |
| Measure.BeamWaistRadius | src/nanosquared/measurement/measure.py:1051-1077 | the focused waist `2 M2 λ f / (π d)` / 1000, `ZeroDivisionError` for a zero diameter |
| Measure.RayleighLengthAsWritten | src/nanosquared/measurement/measure.py:1027-1049 | as written, `π w0² / λ`, whatever M² is |
| Measure.RayleighLength | src/nanosquared/measurement/measure.py:1027-1049 | the corrected length of the Findings row, `π w0² / (M2 λ)`, with an error for a zero denominator; as written the source returns `π w0² / λ` (`RayleighLengthAsWritten`) |
| Measure.RayleighLengthDoubles | src/nanosquared/measurement/measure.py:1027-1049 | one Rayleigh length from the waist the radius is √2 times the waist |
| Measure.RayleighLengthIgnoresM2 | src/nanosquared/measurement/measure.py:1027-1049 | for M² = 2 the as-written length puts the squared radius at five times the waist's, not twice |
| Measure.SimulationRayleighLength | src/nanosquared/measurement/measure.py:977-982 | the simulated beam's Rayleigh length is the `z_R` of the simulation parameters |
| Measure.GetW0ZR | src/nanosquared/measurement/measure.py:1002-1025 | `get_w0_zR` with the corrected `RayleighLength`: `ZeroDivisionError` exactly for a zero diameter, wavelength or M2; otherwise the focused waist and a length `4 M2 λ f² / (π d²)` up to the unit factor |
| Measure.FocusedRayleigh | src/nanosquared/measurement/measure.py:1002-1025 | with the corrected Rayleigh length `π w0² / (M2 λ)`, the focused length is `4 M2 λ f² / (π d²)` up to the unit factor |
| Measure.SimulateBeam | src/nanosquared/measurement/measure.py:983-1000 | the simulated reading fails with `AttributeError` exactly while the stage has no `um_per_pulse`, and reports a deviation of 10 |
| Measure.SimulatedWaist | src/nanosquared/measurement/measure.py:983-1000 | the simulated diameter is smallest, 200, at 0 and the same at `pos` and `-pos` |
| Measure.SimulatedRayleigh | src/nanosquared/measurement/measure.py:977-1000 | one simulated Rayleigh length from 0 the squared diameter doubles |
| Measure.Assign | src/nanosquared/measurement/measure.py:307-316 | `d[k] = v`: an existing key keeps its place, a new one goes last, and lookups follow |
| Measure.Merged | src/nanosquared/measurement/measure.py:307 | `{**a, **b}` keeps every key of `a`, in the same order, at the front |
| Measure.MergedLookup | src/nanosquared/measurement/measure.py:303-307 | in the merged dictionary a key of `b` has `b`'s value and any other key `a`'s |
| Measure.RunMetadata | src/nanosquared/measurement/measure.py:303-316 | the metadata `take_measurements` writes starts with the Rayleigh length |
| Measure.MetadataRayleigh | src/nanosquared/measurement/measure.py:303-307 | the caller's Rayleigh length, if given, replaces the measured one |
| Measure.MetadataRawFile | src/nanosquared/measurement/measure.py:309-310 | the raw log's path is recorded when a raw log was kept |
| Measure.MetadataPostProcessing | src/nanosquared/measurement/measure.py:312-316 | a NanoScan run records its post-processing mode, and in mode 2 its threshold |
| Measure.MetadataNoThreshold | src/nanosquared/measurement/measure.py:303-316 | other runs record a threshold only if the caller gave one |
| Measure.Stacked | src/nanosquared/measurement/measure.py:289-290 | `np.vstack` appends the row, or starts the data with it |
| Measure.Shape | src/nanosquared/measurement/measure.py:423 | a single row is flat `(3,)`; more rows are `(n, 3)` |
| Measure.Scanned | src/nanosquared/measurement/measure.py:279-290 | one row per point, in order |
| Measure.ScannedPositions | src/nanosquared/measurement/measure.py:283-290 | both axes' rows are taken at the same positions, in the order of the points |
| Measure.ScannedIncreasing | src/nanosquared/measurement/measure.py:247-290 | rows taken along ascending points ascend, within the millimetre image of the points' range |
| Measure.ScannedAscending | src/nanosquared/measurement/measure.py:252-290 | a plan the ladder accepts gives strictly ascending rows within the travel less its margins |
| Measure.WriteData | src/nanosquared/measurement/measure.py:363-434 | no path writes nothing; a file that does not open gives `AttributeError`; text exists exactly when the file opens; an error then means an axis has no data or one row each |
| Measure.Floats | src/nanosquared/measurement/measure.py:456 | `[float(x) for x in fields]`, `None` if any field fails |
| Measure.ReadLine | src/nanosquared/measurement/measure.py:453-456 | one line: an empty line fails at `l[0]`, a `#` line is skipped, others need five floats |
| Measure.Absorb | src/nanosquared/measurement/measure.py:453-466 | the read loop gives both axes equally many new rows and keeps the rows they had, in front |
| Measure.ReadRowLine | src/nanosquared/measurement/measure.py:424-466 | a written data line reads back as the two rows it came from |
| Measure.ReadComment | src/nanosquared/measurement/measure.py:455 | a line starting with `#` is skipped |
| Measure.AbsorbComments | src/nanosquared/measurement/measure.py:453-455 | comment lines before the data change nothing |
| Measure.AbsorbValues | src/nanosquared/measurement/measure.py:461-466 | lines of values append their rows, and nothing stops the loop |
| Measure.HeaderComments | src/nanosquared/measurement/measure.py:411-424 | every header line starts with `#` and holds no newline |
| Measure.ReadWritten | src/nanosquared/measurement/measure.py:411-466 | `read_from_file` undoes `write_to_file` for two or more rows that share positions and print exactly |
| Measure.MismatchReadsNothing | src/nanosquared/measurement/measure.py:423-428 | axes of different lengths are written without rows, so nothing reads back |
| Measure.Plan | src/nanosquared/measurement/measure.py:220-271 | the centre search's error propagates; a Rayleigh search's `StageOutOfRangeError` becomes `ConfigurationError` and never escapes; a plan found with the corrected `Ladder` is non-empty, ascending and at least 10 pulses inside the limits |
| Measure.Measurement.constructor | src/nanosquared/measurement/measure.py:91-94 | no data, no outlier removal, threshold 0.2, no open log |
| Measure.Measurement.Append | src/nanosquared/measurement/measure.py:289-290 | one row stacked onto each axis; nothing else changes |
| Measure.Measurement.TakeMeasurements | src/nanosquared/measurement/measure.py:187-320 | the run's settings (the intended `OutlierMode` and `SpikeThreshold`), data, data file and result follow `Plan` (corrected `Ladder`), `Scanned`, `RunMetadata` and `WriteData`; a plan error, or `AttributeError` for a stage without `um_per_pulse`, ends the run with no data |
| Measure.Measurement.Scan | src/nanosquared/measurement/measure.py:279-290 | the measuring loop leaves each axis holding `Scanned` of the plan |
| Measure.Measurement.ReadFromFile | src/nanosquared/measurement/measure.py:436-468 | a file that does not open warns or raises `OSError`; otherwise the data become `Absorb` of the file's lines |
| Measure.ScanReadsBack | src/nanosquared/measurement/measure.py:279-466 | a scan of two or more points, written and read back, gives both axes' rows |
| NanoScanConstants.AxisValue | src/nanosquared/cameras/nanoscan_constants.py:16-20 | `NsAxes` are 0, 1 and 2, one value per member |
| NanoScanConstants.AxisOf | src/nanosquared/cameras/nanoscan_constants.py:16-20 | `NsAxes(v)` accepts exactly 0..2 and gives the member of that value, `ValueError` otherwise |
| NanoScanConstants.AxisRoundTrip | src/nanosquared/cameras/nanoscan_constants.py:16-20 | value and member convert into each other both ways |
| NanoScanConstants.OrdinalIndexes | src/nanosquared/cameras/nanoscan_constants.py:30-51 | `SelectParameters` has 20 members, and each member sits at its declaration position |
| NanoScanConstants.FlagValue | src/nanosquared/cameras/nanoscan_constants.py:30-51 | `IntFlag` with `auto()` numbers the members 1, 2, 4, … in declaration order |
| NanoScanConstants.FlagsMatchVendor | src/cameras/archive/nanoscan/nanoscan_genpy.py:81-101 | every flag has the vendor library's value, `BEAM_WIDTH_D4SIGMA = 16` among them |
| NanoScanConstants.FlagsDistinct | src/nanosquared/cameras/nanoscan_constants.py:30-51 | distinct members are distinct single bits |
| NanoScanConstants.Flag | src/nanosquared/cameras/nanoscan_constants.py:30-51 | the mask bit of each member is the vendor library's value |
| NanoScanConstants.SelectKeeps | src/nanosquared/cameras/nanoscan.py:208 | the bitwise or of the mask and the flag selects the flag and keeps every flag already selected |
| NanoScanConstants.BasisOffByOne | src/nanosquared/cameras/nanoscan_constants.py:22-28 | as written every beam width basis is one more than the vendor's: D4SIGMA is 3, not 2 |
| NanoScanConstants.BasisValue | src/nanosquared/cameras/nanoscan_constants.py:22-28 | the intended numbering equals the vendor's |
| NanoScanConstants.BasisValuesDistinct | src/nanosquared/cameras/nanoscan_constants.py:22-28 | distinct bases have distinct values |
| NanoScan.Delete | src/nanosquared/cameras/nanoscan.py:115-119 | `a[mask]` removes exactly the indices in `s`, keeping the order of the rest |
| NanoScan.DeleteInterior | src/nanosquared/cameras/nanoscan.py:108-121 | removing interior indices keeps both endpoints and strictly shortens a non-empty deletion |
| NanoScan.SpikeFreeSettled | src/nanosquared/cameras/nanoscan.py:108-121 | the loop ends with no peak left |
| NanoScan.SpikeFreeSubsequence | src/nanosquared/cameras/nanoscan.py:105-121 | the loop only deletes, so its result is an order-preserving subsequence |
| NanoScan.SpikeFreeEnds | src/nanosquared/cameras/nanoscan.py:108-121 | both endpoints survive the loop |
| NanoScan.TrimStart | src/nanosquared/cameras/nanoscan.py:127-129 | the first point is dropped exactly when it differs from the second by more than the threshold |
| NanoScan.TrimEnd | src/nanosquared/cameras/nanoscan.py:131-133 | the same for the last point |
| NanoScan.RemoveSpikesProperties | src/nanosquared/cameras/nanoscan.py:105-137 | `remove_spikes` fails exactly on fewer than two points; otherwise it returns a subsequence that loses at most the two ends of the spike-free data |
| NanoScan.RemoveSpikesEndpoints | src/nanosquared/cameras/nanoscan.py:124-137 | an endpoint is dropped exactly when it differs from its neighbour by more than the threshold |
| NanoScan.RemoveSpikes | src/nanosquared/cameras/nanoscan.py:105-137 | the deletion loop equals the `remove_spikes` specification |
| NanoScan.Zip | src/nanosquared/cameras/nanoscan.py:224 | `np.column_stack` pairs the two columns element by element |
| NanoScan.SettingsAsWritten | src/nanosquared/cameras/nanoscan.py:185-193 | as written, a mode outside 0..2, or in mode 2 a threshold that is not a positive number, raises `TypeError` from the log call at level `logging.warn`; valid settings pass unchanged |
| NanoScan.SettingsAsWrittenRaise | src/nanosquared/cameras/nanoscan.py:185-193 | mode 3 and a mode-2 threshold of 0 raise as written, where the intended checks replace them |
| NanoScan.OutlierMode | src/nanosquared/cameras/nanoscan.py:185-187 | the corrected half of the logging-level claim: a mode outside 0..2 becomes 0, as the warning says |
| NanoScan.SpikeThreshold | src/nanosquared/cameras/nanoscan.py:189-193 | the corrected half: a threshold that is not a positive number becomes 0.2 |
| NanoScan.SettingsIntended | src/nanosquared/cameras/nanoscan.py:185-193 | the intended replacements keep every setting the written checks accept and change one the written checks raise on |
| NanoScan.Throwout | src/nanosquared/cameras/nanoscan.py:219 | `int(np.around(0.1 n))` is never negative |
| NanoScan.ThrowoutOfFewSamples | src/nanosquared/cameras/nanoscan.py:219 | five samples or fewer drop nothing, because 0.5 rounds to 0 |
| NanoScan.ThrowoutOfTwenty | src/nanosquared/cameras/nanoscan.py:219 | twenty samples drop two |
| NanoScan.KeptCount | src/nanosquared/cameras/nanoscan.py:222 | dropping the top `k` keeps `n - k` values, and all of them when `k` is 0 |
| NanoScan.TrimOfFewSamplesAsWritten | src/nanosquared/cameras/nanoscan.py:219-222 | with five samples the trim as written keeps nothing, where all five should stay |
| NanoScan.KeptAgreesWhenTrimming | src/nanosquared/cameras/nanoscan.py:222 | the two counts agree whenever something is thrown out |
| NanoScan.DropTop | src/nanosquared/cameras/nanoscan.py:222 | the sorted column less its top `k` values: sorted, and `KeptCount` long |
| NanoScan.DropTopKeepsSmallest | src/nanosquared/cameras/nanoscan.py:220-224 | what is kept is part of the data, and no kept value exceeds a dropped one |
| NanoScan.SortRow | src/nanosquared/cameras/nanoscan.py:226 | `np.sort` of a two-column reading gives (min, max) |
| NanoScan.SortRows | src/nanosquared/cameras/nanoscan.py:226 | every row sorted, the row order kept |
| NanoScan.TopTrimmed | src/nanosquared/cameras/nanoscan.py:217-226 | the corrected mode-1 trim keeps `KeptCount` readings, all of them when `throwout` is 0 |
| NanoScan.SingleAxisTrimSortsRows | src/nanosquared/cameras/nanoscan.py:225-226 | on one axis the trim keeps the earliest rows and ranks nothing by size |
| NanoScan.Despiked | src/nanosquared/cameras/nanoscan.py:228-242 | the mode-2 stage fails with `ValueError` on a single axis |
| NanoScan.Summary | src/nanosquared/cameras/nanoscan.py:244-252 | `NonFinite`, standing for numpy's `nan` mean and deviation, exactly when no readings are left; `BOTH` reports both axes, any other axis one |
| NanoScan.WarmUpDiscarded | src/nanosquared/cameras/nanoscan.py:211-214 | only the last `numsamples` of the `numsamples + 10` readings matter |
| NanoScan.PlainAverage | src/nanosquared/cameras/nanoscan.py:211-252 | without outlier removal each axis reports the mean of its last `numsamples` readings |
| NanoScan.SingleAxisDespikeFails | src/nanosquared/cameras/nanoscan.py:238-242 | on one axis spike removal always fails |
| NanoScan.Acquire | src/nanosquared/cameras/nanoscan.py:211 | `n` readings, one revolution each, under the mask |
| NanoScan.DespikeColumns | src/nanosquared/cameras/nanoscan.py:228-237 | the column-by-column loop equals `Despiked` |
| NanoScan.ProcessReadings | src/nanosquared/cameras/nanoscan.py:216-252 | the outlier stages and the summary equal `Processed`, whose mode-1 stage is the corrected trim; `NonFinite` when no readings are left |
| NanoScan.NanoScanDevice.Dev | src/nanosquared/cameras/nanoscan.py:53-58 | the development-mode device runs at 10 Hz out of 1.25, 2.5, 5, 10 and 20 Hz, with the given mask |
| NanoScan.NanoScanDevice.Live | src/nanosquared/cameras/nanoscan.py:53-55 | a connected device with the frequency, scan rates and mask it reports |
| NanoScan.NanoScanDevice.SetRotationFrequency | src/nanosquared/cameras/nanoscan.py:66-87 | a frequency the head offers is set; any other is ignored |
| NanoScan.NanoScanDevice.GetAxisAvgD4Sigma | src/nanosquared/cameras/nanoscan.py:139-256 | the result is `AxisAverage`, with the corrected trim and the intended settings replacements; the mask is restored on success or non-finite statistics, and stays widened when a later stage raises |
| NanoScan.NanoScanDevice.AcquireMasked | src/nanosquared/cameras/nanoscan.py:207-254 | widen the mask, read, process with the corrected trim, and restore the mask unless processing raised (`nan` statistics do not raise) |
| FitFunctions.ConvertODRtoOCF | src/nanosquared/fitting/fit_functions.py:9-30 | the converted model takes its two arguments swapped |
| FitFunctions.OmegaZSquared | src/nanosquared/fitting/fit_functions.py:32-61 | `w(z)² = w0² (1 + (z - z0)² (p / π w0²)²)` |
| FitFunctions.OmegaZAtWaist | src/nanosquared/fitting/fit_functions.py:55-61 | the radius at the waist position is the waist |
| FitFunctions.OmegaZEven | src/nanosquared/fitting/fit_functions.py:55-61 | the radius is symmetric about the waist |
| FitFunctions.OmegaZMonotone | src/nanosquared/fitting/fit_functions.py:55-61 | moving farther from the waist never shrinks the radius |
| FitFunctions.OmegaZAtLeastWaist | src/nanosquared/fitting/fit_functions.py:55-61 | the radius is never below the waist |
| FitFunctions.GrowthAtRayleigh | src/nanosquared/fitting/fit_functions.py:55-61 | at one Rayleigh length `π w0² / abs(p)` the growth term is exactly one |
| FitFunctions.OmegaZRayleigh | src/nanosquared/fitting/fit_functions.py:55-61 | at one Rayleigh length the squared radius doubles |
| FitFunctions.OmegaZLambda | src/nanosquared/fitting/fit_functions.py:63-90 | `omega_z_lambda(λ)` equals `omega_z` with `p = M λ` |
| FitFunctions.IsoDiameterSquared | src/nanosquared/fitting/fit_functions.py:92-134 | `iso_omega_z` is non-negative and `(2 iso_omega_z)² = a + b z + c z²` wherever the quadratic is non-negative |
| FitFunctions.IsoQuadratic | src/nanosquared/fitting/fit_functions.py:103 | the ISO coefficients of a Gaussian beam give `(2 w(z))²` |
| FitFunctions.IsoMatchesOmegaZ | src/nanosquared/fitting/fit_functions.py:92-134 | the ISO model with those coefficients is the same beam as `omega_z` |
| FitFunctions.IsoWaistPosition | src/nanosquared/fitting/fit_functions.py:104 | `z0 = -b / 2c` whenever the beam diverges |
| FitFunctions.IsoWaistDiameter | src/nanosquared/fitting/fit_functions.py:105-106 | `(4ac - b²) / 4c = 4 w0²` |
| FitFunctions.IsoRayleighFromRoot | src/nanosquared/fitting/fit_functions.py:107 | `sqrt(4ac - b²) / 2c = π w0² / abs(p)` |
| FitFunctions.IsoQualityFromRoot | src/nanosquared/fitting/fit_functions.py:108 | `π / (8 λ) sqrt(4ac - b²) = abs(p) / λ` |
| FitFunctions.IsoCoefficientSquares | src/nanosquared/fitting/fit_functions.py:104-108 | the discriminant and waist term without square roots |
| FitFunctions.IsoRoots | src/nanosquared/fitting/fit_functions.py:105-108 | the square roots in the ISO relations evaluate to `8 w0² abs(k)` and `abs(w0)` |
| FitFunctions.IsoDocumentedRelations | src/nanosquared/fitting/fit_functions.py:103-108 | the documented relations recover `z0`, `w0`, `zR` and `M²` from the coefficients |
| MsqAlgebra.Mode0Msq | src/nanosquared/fitting/fitter.py:484-494 | mode 0 gives a value exactly when `λ` and `b2` are non-zero, and then `M² λ = b2` |
| MsqAlgebra.Mode0RecoversQuality | src/nanosquared/fitting/fitter.py:484-494 | fitting `p = M² λ` and reading mode 0 gives back `M²` |
| MsqAlgebra.Mode0ErrorWithExactWavelength | src/nanosquared/fitting/fitter.py:486-489 | with no wavelength error, the mode-0 error is `abs(sd(b2)) / λ` with the sign of `b2` |
| MsqAlgebra.Mode2Msq | src/nanosquared/fitting/fitter.py:502-520 | mode 2 gives a value exactly when `λ` is non-zero and `sqrt(4ac - b²)` exists and is non-zero, and then `M² = π / (8 λ) sqrt(4ac - b²)` |
| MsqAlgebra.Mode2ErrorNonnegative | src/nanosquared/fitting/fitter.py:514-515 | the ISO uncertainty is non-negative, and its square is the sum of the squared partial errors |
| MsqAlgebra.IsoParamsDisc | src/nanosquared/fitting/fitter.py:506-508 | the ISO discriminant of a diverging beam is the square of a positive root |
| MsqAlgebra.Mode2RecoversQuality | src/nanosquared/fitting/fitter.py:502-520 | fitting the ISO coefficients of a beam with `p = M² λ` reads back `abs(M²)` |
| MsqAlgebra.PartialA | src/nanosquared/fitting/fitter.py:509 | the difference quotient of `M²` in `a` tends to the code's `dM_da` |
| MsqAlgebra.PartialB | src/nanosquared/fitting/fitter.py:510 | the same in `b`, for `dM_db` |
| MsqAlgebra.PartialC | src/nanosquared/fitting/fitter.py:511 | the same in `c`, for `dM_dc` |
| MsqAlgebra.PartialWavelength | src/nanosquared/fitting/fitter.py:512 | the same in the wavelength, for `dM_dwv` |
| MsqAlgebra.IsoSeedAsWrittenDiscriminant | src/nanosquared/fitting/fitter.py:442-444 | the written seed has `4ac - b² = 4 c w0²` and `-b / 2c = z0` |
| MsqAlgebra.IsoSeedAsWrittenHalfRadius | src/nanosquared/fitting/fitter.py:442-446 | `iso_omega_z` on the written seed gives half the fitted radius |
| MsqAlgebra.SeedQuadratics | src/nanosquared/fitting/fitter.py:442-446 | the written seed's quadratic is a quarter of the intended one, and the intended one equals `IsoCoefficients` |
| MsqAlgebra.IsoSeedAsWrittenQuality | src/nanosquared/fitting/fitter.py:442-446 | the written seed's own M² is a quarter of the fitted `abs(M²)` |
| MsqAlgebra.IsoSeed | src/nanosquared/fitting/fitter.py:442-446 | the intended seed is the ISO coefficients of the fitted beam with `p = M² λ` |
| MsqAlgebra.IsoSeedMatchesFit | src/nanosquared/fitting/fitter.py:434-446 | the intended seed is the fitted beam itself and reads back `abs(M²)` |
| Fitter.CheckMode | src/nanosquared/fitting/fitter.py:375-379 | the mode must be an `int` in 0..2 (a `bool` counts), otherwise `RuntimeError` |
| Fitter.DefaultGuesses | src/nanosquared/fitting/fitter.py:387-397 | `[1, 1, λ]` in mode 0 and `[1, 1, 1]` otherwise |
| Fitter.ArgMin | src/nanosquared/fitting/fitter.py:425 | `np.argmin`: the first index of a minimum |
| Fitter.EstimatedGuesses | src/nanosquared/fitting/fitter.py:424-430 | the smallest radius, its first position and 1; `ValueError` for no data, `IndexError` when `x` is shorter |
| Fitter.EstimateSucceeds | src/nanosquared/fitting/fitter.py:424-430 | the estimate succeeds on non-empty data with an `x` for every `y` |
| Fitter.Estimate | src/nanosquared/fitting/fitter.py:419-449 | the outcome of `estimateInitialGuesses`: in modes 0 and 1 the data's guesses; in every mode a failure of those guesses is its error |
| Fitter.EstimateOfNoData | src/nanosquared/fitting/fitter.py:424-426 | with no data the estimate raises `ValueError` in every mode, so `estimateAndFit` fails before fitting |
| Fitter.CalcMsq | src/nanosquared/fitting/fitter.py:456-524 | `_calc_msq` by mode: the fitted value itself in mode 1, `Mode0Msq` in mode 0, `Mode2Msq` in mode 2 |
| Fitter.ModelUsed | src/nanosquared/fitting/fitter.py:434-449 | the corrected fit uses the model `estimateInitialGuesses` last selected, whatever the back end |
| Fitter.OdrSeedingFitsIsoModel | src/nanosquared/fitting/fitter.py:262-263 | as written, an ODR fitter built for the ISO mode fits the ISO model while seeding, although the mode-1 model was selected |
| Fitter.EnsureNP | src/nanosquared/fitting/fitter.py:42-49 | a number becomes an array shaped like `ref`; a list becomes `np.array(list)`, the array of the `list` type; arrays and anything else pass through |
| Fitter.EnsureNPIdempotent | src/nanosquared/fitting/fitter.py:42-49 | applying `ensureNP` twice changes nothing more |
| Fitter.EnsureNPLosesList | src/nanosquared/fitting/fitter.py:44-45 | a list of errors does not become the array of its values, and every list gives the same result |
| Fitter.EnsureNPIntended | src/nanosquared/fitting/fitter.py:42-49 | the intended `ensureNP`: a list becomes the array of its values, a number an array shaped like `ref`; only what is neither passes through unchanged |
| Fitter.EnsureNPIntendedKeepsLists | src/nanosquared/fitting/fitter.py:42-49 | the intended `ensureNP` is idempotent, keeps a list's values and agrees with the written one on everything else |
| Fitter.MsqFitter.constructor | src/nanosquared/fitting/fitter.py:375-400 | a new fitter keeps its mode as the model and the function, starts from `DefaultGuesses`, with no output and no cached M² |
| Fitter.MsqFitter.SetInitialGuesses | src/nanosquared/fitting/fitter.py:402-417 | the guesses are set in modes 0 and 1 only; nothing else changes |
| Fitter.MsqFitter.Fit | src/nanosquared/fitting/fitter.py:602-613 | forgets the cached M², runs the solver on `ModelUsed` (the corrected model selection) from the current guesses, and keeps the output it returns |
| Fitter.MsqFitter.MSquared | src/nanosquared/fitting/fitter.py:452-524 | `RuntimeWarning` before any fit; otherwise `CalcMsq`, computed once per fit and then cached |
| Fitter.MsqFitter.OdrMSquared | src/nanosquared/fitting/fitter.py:589-600 | `AttributeError` before any fit; a warning for stop code 4 or more; then as `MSquared` |
| Fitter.MsqFitter.EstimateFromData | src/nanosquared/fitting/fitter.py:424-430 | the result is `EstimatedGuesses`, and the guesses are set from it in modes 0 and 1 |
| Fitter.MsqFitter.EstimateInitialGuesses | src/nanosquared/fitting/fitter.py:419-449 | returns `Estimate`; modes 0 and 1 estimate from the data; the ISO mode fits mode 1 and seeds with the corrected `IsoSeed`, staying in mode 1 if a step fails |
| Fitter.MsqFitter.EstimateAndFit | src/nanosquared/fitting/fitter.py:615-625 | an error of the estimate (`Estimate`) propagates and no fit follows; otherwise the fit runs from the estimated guesses with the model the estimate selected, the cache cleared and the output kept |
| LogReplay.KindsExclusive | tests/outlier/process_fullrun.py:17-24 | a line passes at most one of the script's three tests |
| LogReplay.Unpacked | tests/outlier/process_fullrun.py:21 | `x, y = ast.literal_eval(xy)` succeeds exactly on a pair; unparsable text raises `SyntaxError`, a non-iterable literal `TypeError`, others `ValueError` |
| LogReplay.Pair | tests/outlier/process_fullrun.py:20-21 | reading the pair fails only with `IndexError`, `SyntaxError`, `ValueError` or `TypeError`, and with `IndexError` exactly when the line lacks `(x, y): ` |
| LogReplay.Classify | tests/outlier/process_fullrun.py:15-24 | a stripped line is a Point, Reading or average line exactly when it passes that test |
| LogReplay.LoggedReading | tests/outlier/process_fullrun.py:19-23 | the replay reads back exactly the pair the camera logged |
| LogReplay.LoggedPair | tests/outlier/process_fullrun.py:20 | a camera debug line reads back, through `literal_eval`, as the pair it logged |
| LogReplay.MarkerFirstAt | tests/outlier/process_fullrun.py:20 | in the camera's debug line the marker `(x, y): ` first occurs right after the 24-character prefix |
| LogReplay.Averaged | tests/outlier/process_fullrun.py:25-26 | a statistic is reported exactly for a non-empty column |
| LogReplay.Run | tests/outlier/process_fullrun.py:14-33 | the loop only appends rows |
| LogReplay.ReplayLog | tests/outlier/process_fullrun.py:9-33 | the loop's rows and exception equal `Replay` |
| LogReplay.ProcessLine | tests/outlier/process_fullrun.py:15-33 | one pass of the loop equals `Step` on the classified line |
| LogReplay.RowsFollowPositions | tests/outlier/process_fullrun.py:24-33 | row `k` carries `positions[k]`, and without an exception there is one row per average line |
| LogReplay.ReplayRows | tests/outlier/process_fullrun.py:5-33 | the same for a whole log |
| LogReplay.NoPointFails | tests/outlier/process_fullrun.py:13-24 | a reading or average before any Point line raises |
| LogReplay.ReadingBeforePoint | tests/outlier/process_fullrun.py:13-24 | the same for a whole log |
| LogReplay.ReadingsAppended | tests/outlier/process_fullrun.py:19-23 | every reading of a point is appended, and none is dropped |
| LogReplay.RunAppend | tests/outlier/process_fullrun.py:14-33 | running two pieces of a log one after the other |
| LogReplay.PointBlock | tests/outlier/process_fullrun.py:17-33 | a Point line, its readings and an average line write one row with the next position and the per-axis statistics |
| LogReplay.WarmUpIncluded | tests/outlier/process_fullrun.py:17-33 | the row averages all `numsamples + 10` logged readings, including the ten warm-up readings the camera discards |
| LogReplay.WarmUpShiftsMean | tests/outlier/process_fullrun.py:25 | the warm-up readings can change the mean: ten zeros before ones give a mean below 1, where the camera reports 1 |
| WrapperGen.WrapperName | src/cameras/csharp/NanoScanLibrary/generate.py:13-15 | `IndexError` exactly when the name lacks `NsInterop` |
| WrapperGen.ArgOf | src/cameras/csharp/NanoScanLibrary/generate.py:18 | the argument passed is a single word |
| WrapperGen.ParamsOf | src/cameras/csharp/NanoScanLibrary/generate.py:17 | `IndexError` exactly when the line has no `(` |
| WrapperGen.Parse | src/cameras/csharp/NanoScanLibrary/generate.py:8-18 | a parse fails only with `ValueError` or `IndexError` |
| WrapperGen.Assemble | src/cameras/csharp/NanoScanLibrary/generate.py:12-18 | the wrapper keeps the return type and calls the declared function |
| WrapperGen.Filter | src/cameras/csharp/NanoScanLibrary/generate.py:6-7 | only non-empty `static extern` lines are kept, and never more lines than given |
| WrapperGen.Emit | src/cameras/csharp/NanoScanLibrary/generate.py:5-21 | a line contributes exactly when it is selected |
| WrapperGen.Collect | src/cameras/csharp/NanoScanLibrary/generate.py:4-21 | at most one output per line, and an error reported is one that a line raised |
| WrapperGen.Generate | src/cameras/csharp/NanoScanLibrary/generate.py:4-21 | the script fails only with `ValueError` or `IndexError` |
| WrapperGen.GenerateAll | src/cameras/csharp/NanoScanLibrary/generate.py:4-21 | the loop prints what `Generate` says |
| WrapperGen.EmitLine | src/cameras/csharp/NanoScanLibrary/generate.py:6-21 | one pass of the loop equals `Emit` |
| WrapperGen.OnePerSelectedLine | src/cameras/csharp/NanoScanLibrary/generate.py:5-21 | without an error there is one printed method per selected line, in order |
| WrapperGen.NameAfterPrefix | src/cameras/csharp/NanoScanLibrary/generate.py:14-15 | `NsInteropX` is wrapped as `X` |
| WrapperGen.NameBeforeSuffix | src/cameras/csharp/NanoScanLibrary/generate.py:14-15 | `XNsInterop` is wrapped as `X` |
| WrapperGen.ArgIsLastWord | src/cameras/csharp/NanoScanLibrary/generate.py:18 | the argument of `ref float x` is `x` |
| WrapperGen.ArgsPassNames | src/cameras/csharp/NanoScanLibrary/generate.py:18 | declarations `type name` joined by `,` pass exactly the names, joined by `, ` |
| WrapperGen.NoParamsNoArgs | src/cameras/csharp/NanoScanLibrary/generate.py:18 | an empty parameter list passes no arguments |
| WrapperGen.LineEndingAtOpen | src/cameras/csharp/NanoScanLibrary/generate.py:17-18 | a line ending at its only `(` has empty parameters and passes nothing |
| WrapperGen.ParamsBetween | src/cameras/csharp/NanoScanLibrary/generate.py:17 | the parameters begin right after the first `(` and run to the next parenthesis or the end, holding neither |
| WrapperGen.ReturnUnlessVoid | src/cameras/csharp/NanoScanLibrary/generate.py:20-21 | the body starts with `return ` exactly when the return type is not `void` |
| WrapperGen.TargetIsOneWord | src/cameras/csharp/NanoScanLibrary/generate.py:13 | the called name holds no space |
| WrapperGen.ParseTarget | src/cameras/csharp/NanoScanLibrary/generate.py:10-13 | the called name is the word two after `extern`, up to its `(` |

## Left out

- The serial port, its timing (`time.sleep`, the 0.05 s read delay) and the
  NanoScan's .NET or COM bridge. Hardware replies and readings are inputs.
- Logging, `warnings.warn`, plotting and console output: the `print(params)`
  of the fit functions (fit_functions.py 132 and 242) and the printouts of
  the curve_fit and ODR fits (fitter.py 192-193 and 209-210). The ODR warning
  of `m_squared` is an output flag. A log call that raises is not left out: the `TypeError`
  of logging at level `logging.warn` is `SettingsAsWritten` (see Findings).
- The signal handlers, `abort`, `closeDevice` and the context managers of
  `Controller`.
- The numerical solvers: `scipy.odr`, `curve_fit` and `find_peaks` are
  parameters. Floating-point rounding outside `np.around` and `int()` is not
  modelled.
- `uncertainties`' `umath` twins of the fit functions (fit_functions.py
  136-244). They compute the same values, so the same definitions stand for
  them.
- numpy broadcasting in the scan plan (measure.py 235-236): the axes are
  given as `(center, R)` pairs.
- The `devMode` log lines of `find_zR_pps` (measure.py 748-751) and the
  camera-only `wincamd` paths.
- CenterSearch.Ternary: `fuel` bounds the rounds. `TernaryFinishes` says how
  much suffices, and `TernaryStalls` shows that none suffices for precision 1.
  What the centre approximates is stated for beams that narrow strictly to
  one waist and widen strictly after it (`Unimodal`); a flat stretch of
  equal widths is not covered.
- PyStrings.Lines: splits after `"\n"` only. `read_from_file` opens the file in
  text mode, whose universal newlines also end a line at `"\r"` and turn
  `"\r\n"` into `"\n"`; the model reads such a file differently.
- CenterSearch.XYSearch: `fuel` bounds the rounds. `XYSearchMayNotEnd`
  shows that some searches never end.
- RayleighSearch.BoundingSearch: `fuel` bounds the rounds. `BoundingEnds`
  gives a bound that suffices.
- RayleighSearch.ItpSearch: `fuel` bounds the rounds, and a non-positive
  precision, for which numpy makes `n_max` `inf` or `nan`, stops the model
  there.
- Controller.WaitClearFrom: the wait is counted in silent polls. A busy
  reply consumes one reply from the queue, so the queue's length bounds
  those.
- Measure.WriteData: Python's float formatting is the parameter `show`.
  `ReadWritten` assumes `float` reads each printed value back exactly.
- NanoScan.RemoveSpikes: the oracle for `find_peaks` is assumed to report
  only interior indices (`InteriorPeaks`), as a peak needs neighbours on
  both sides.
- StageModel.StageReset: uses the corrected `LimitsSet`. As written
  `resetStage` changes only `LIMIT_LOWER` (_stage.py 54-55), so an SGSP26-200
  keeps its old upper limit. The source's lower limit `(pulseRange - 1) / 2`
  is also a Python float, which the model does not tell from an `int`.
- StageModel.Sgsp26ResetSymmetric: states the reset with the corrected
  `LimitsSet`. As written an SGSP26-200 `resetStage` moves `LIMIT_LOWER` to
  `-(pulseRange - 1) / 2` and keeps the old `LIMIT_UPPER`, so the result is
  symmetric only when the upper limit already was `(pulseRange - 1) / 2`.
- StageModel.Stage.SetLimits: applies the corrected `LimitsSet`. As written
  `setLimits` leaves `LIMIT_UPPER` unchanged (`SetLimitsIgnoresUpper`).
- StageModel.Stage.ResetStage: `StageReset` with the corrected `LimitsSet`;
  as written the upper limit keeps its value.
- Controller.ResetKeepsSpan: the span is kept only with the corrected
  `LimitsSet`. As written re-zeroing a stage ranged 0..100557 at 100 moves
  the lower limit to -100 and leaves the upper at 100557.
- Controller.RangeFromEndsDevMode: ±50278 holds with the corrected
  `LimitsSet`; as written only the lower limit becomes -50278.
- Controller.FindRangeDevMode: the limits ±50278 hold with the corrected
  `LimitsSet`; as written `LIMIT_UPPER` keeps its old value.
- Controller.Gsc01.ResetPositionToZero: `ResetToZeroStep` shifts both limits
  through the corrected `LimitsSet`; as written only the lower one moves.
- Controller.Gsc01.HomeStage: equals `HomeStep`, which re-zeroes through
  `ResetToZeroStep` and so the corrected `LimitsSet`. As written homing a
  stage ranged 0..100557 at position 100 leaves `LIMIT_UPPER` at 100557,
  where the model moves it to 100457; the lower limit, the position 0 and
  the clean flags (`HomeCleans`) agree with the source.
- Controller.Gsc01.FindRange: `FindRangeStep` stores both limits through the
  corrected `LimitsSet`; as written only the lower one is stored.
- Controller.Gsc01.FinishRange: `RangeFromEnds` stores both limits; as
  written `setLimits` stores only the lower one.
- Controller.Gsc01.ApplyRange: `RangeLimits` stores both limits; as written
  only the lower one.
- CenterSearch.CenterOf: runs the clamped search (`ClampedPrecision`). As
  written `find_center` never ends for precision 1 or less on a bracket one
  pulse wide (`TernaryStalls`).
- CenterSearch.CenterXY: the bounds are `int`s. A stage whose limits are
  floats, as after an SGSP26-200 `resetStage`, fails the source's
  `isinstance(item, int)` test, so `find_center_xy` returns (0, 0) there.
- RayleighSearch.ZRBoth: searches each axis with the corrected `ZR`. As
  written an exact zero of the bounding search returns the probe position,
  not the distance from the centre (`ExactHitAsWritten`).
- Measure.Plan: uses the corrected `ScanPlan.Ladder`. As written a waist at
  900 on a 0..1000 stage with `R = 40` raises `ConfigurationError`, while
  the model returns a plan. The centre and the searched Rayleigh lengths are
  inputs; the requires states that the search returns one length per axis
  of the centre.
- Measure.Measurement.TakeMeasurements: plans with `Plan`, so it inherits
  the corrected ladder and its inputs. The searches themselves are
  `CenterOf`, `ZR` and `ZRBoth`, whose outcomes are the `center` and
  `searched` arguments.
- Measure.Measurement.TakeMeasurements: applies the intended `OutlierMode`
  and `SpikeThreshold`. As written (measure.py 187-195) a mode outside
  0..2, or in mode 2 a threshold that is not a positive number, raises
  `TypeError` from the log call before any field is set
  (`SettingsAsWritten`); the model stores the replacements and runs on.
- Measure.Measurement.TakeMeasurements: outside development mode a dirty
  stage is homed first (measure.py 200-201). The measurement holds no
  controller, so that step is not modelled; `Controller.Gsc01.HomeStage` is.
  Moving the stage to each point in `measure_at` is not modelled either, so
  when a searched plan meets a stage without `um_per_pulse` the model stops
  before the first point, where the source has already moved to it and read
  the camera once.
- Measure.GetW0ZR: uses the corrected `RayleighLength`. As written
  `get_w0_zR` returns `π w0² / λ` whatever the M2, and (0, 0) for `M2 = 0`,
  where the model raises `ZeroDivisionError`.
- Measure.FocusedRayleigh: states `4 M2 λ f² / (π d²)` for the corrected
  length; the source's `get_w0_zR` yields `4 M2² λ f² / (π d²)`
  (`RayleighLengthIgnoresM2`).
- NanoScan.TopTrimmed: the corrected trim keeps every reading when
  `throwout` is 0. As written `[:-0]` keeps none for `numsamples` of 5 or
  fewer, and the average is `nan` (`TrimOfFewSamplesAsWritten`).
- NanoScan.ProcessReadings: `Processed` uses the corrected trim; as written
  mode 1 with `numsamples` of 5 or fewer gives `nan`.
- NanoScan.NanoScanDevice.GetAxisAvgD4Sigma: `AxisAverage` uses the
  corrected trim; as written mode 1 with `numsamples` of 5 or fewer reports
  `nan`.
- NanoScan.NanoScanDevice.GetAxisAvgD4Sigma: applies the intended
  `OutlierMode` and `SpikeThreshold`. As written a mode outside 0..2, or in
  mode 2 a threshold that is not a positive number, raises `TypeError`
  (`SettingsAsWritten`), in development mode too, since the check comes
  first; the model replaces them and returns the readings' statistics.
- NanoScan.NanoScanDevice.GetAxisAvgD4Sigma: with `numsamples` 0 the source
  returns `nan` statistics after a `RuntimeWarning`; the model returns
  `NonFinite` and, as the source does, restores the mask.
- NanoScan.Summary: no readings give `NonFinite`, standing for the `nan`
  mean and deviation numpy returns with a warning; reals have no `nan`.
- NanoScan.ProcessReadings: `numsamples` 0 gives `NonFinite` (from `Summary`)
  where the source returns `nan` statistics without raising.
- NanoScan.NanoScanDevice.AcquireMasked: processes with the corrected
  `KeptCount`; as written mode 1 with `numsamples` of 5 or fewer keeps
  nothing.
- NanoScan.NanoScanDevice.AcquireMasked: `numsamples` 0 gives `NonFinite`
  for the source's `nan` statistics; the mask is restored, as in the source.
- Fitter.MsqFitter.Fit: fits `ModelUsed`, the model the estimate selected.
  As written the ODR fitter fits the model of its construction mode
  (`OdrSeedingFitsIsoModel`).
- Fitter.MsqFitter.EstimateInitialGuesses: seeds with the corrected
  `IsoSeed` and fits the corrected `ModelUsed`. As written the seed is a
  quarter of it (`IsoSeedAsWrittenQuality`). When the fitted waist is 0,
  numpy stores infinite or `nan` coefficients and goes on; the model
  returns `NonFinite` and keeps the old guesses.
- Fitter.Estimate: in the ISO mode returns the corrected `IsoSeed` of the
  mode-1 fit. As written (fitter.py 442-446) the seed holds the radius-form
  coefficients, a quarter of it: for a fitted `w0 = 1`, `z0 = 0`, `M2 = 1`
  the source seeds `a = 1` where the model seeds `a = 4`
  (`IsoSeedAsWrittenQuality`, `SeedQuadratics`).
- Fitter.MsqFitter.EstimateAndFit: with a fitted waist of 0 in the ISO mode
  the source fits from non-finite guesses; the model stops with `NonFinite`.
- FitFunctions.OmegaZ: requires a non-zero waist. With `w0 = 0` numpy
  divides by zero and returns `inf` or `nan`, which the model does not
  represent.
- LogReplay.Pair: the `eval` parameter yields pairs of numbers. A literal
  pair of non-numbers unpacks, and the source fails only later in
  `np.average`; the model does not represent it.

## Findings

| source | as written | input that shows it | evidently intended | confidence | as-written member | corrected member |
|---|---|---|---|---|---|---|
| src/nanosquared/fitting/fitter.py:442-446 | the ISO seed uses the radius form: `a = w0² + c z0²`, `c = M⁴ (λ / π w0)²` | any mode-1 fit: the seed describes a beam of half the fitted width, with a quarter of its M² | coefficients of the diameter form, four times the written ones | not executed | MsqAlgebra.IsoSeedAsWrittenQuality | MsqAlgebra.IsoSeedMatchesFit |
| src/nanosquared/fitting/fitter.py:262-263 | the ODR fitter fixes its model as `funcs[mode]` at construction | an ISO-mode ODR fitter while seeding: the mode-1 guesses are fitted with the ISO model | the fit uses the model `estimateInitialGuesses` selects, as curve_fit's `self.func` does | not executed | Fitter.OdrSeedingFitsIsoModel | Fitter.ModelUsed |
| src/stage/_stage.py:54-55 | `setLimits` assigns `self.LIMIT_upper`, so `LIMIT_UPPER` never changes | re-zeroing a ranged SGSP26-200 (limits 0..100557) at position 100: the upper limit stays at 100557 | `LIMIT_UPPER = upper` | not executed | StageModel.SetLimitsIgnoresUpper | StageModel.LimitsSet |
| src/nanosquared/cameras/nanoscan_constants.py:22-28 | `IntEnum` with `auto()` numbers the beam width bases from 1 | `BeamWidthBasis.W_D4SIGMA` is 3, where the vendor library has 2 | the vendor's numbering from 0 | not executed | NanoScanConstants.BasisOffByOne | NanoScanConstants.BasisValue |
| src/nanosquared/cameras/nanoscan.py:219-222 | `np.sort(col)[:-throwout]` with `throwout = round(0.1 n)` | `numsamples = 5`: `throwout` is 0 and `[:-0]` keeps nothing, so the average is `nan` | drop the top `throwout` values, keeping all when it is 0 | not executed | NanoScan.TrimOfFewSamplesAsWritten | NanoScan.DropTopKeepsSmallest |
| src/nanosquared/measurement/measure.py:584-604 | `find_center` loops while `abs(right - left) >= precision` with any precision | `precision = 1` and a bracket one pulse wide: the third points are its ends and the loop never ends | the precision clamped to at least 2, as `find_center_xy` does | not executed | CenterSearch.TernaryStalls | CenterSearch.ClampedSearchFinishes |
| src/nanosquared/measurement/measure.py:801-802 | an exact zero of the bounding search returns the position itself | a beam whose crossing is at pulse 200 with centre 100: the result is 200, not the length 100 | the distance from the centre, as the normal path returns | not executed | RayleighSearch.ExactHitAsWritten | RayleighSearch.ZRLocatesCrossing |
| src/nanosquared/measurement/measure.py:264-271 | the last fallback mirrors the one-sided plan about stage position 0 | a waist at 900 on a 0..1000 stage with `R = 40`: the mirror lies below the lower limit, and no plan is found | the one-sided offsets turned about the waist | not executed | ScanPlan.MirrorLeavesTravel | ScanPlan.LadderWithinTravel |
| src/nanosquared/measurement/measure.py:1027-1049 | `rayleigh_length` returns `π w0² / λ` and ignores its `M2` argument | `M2 = 2`: one returned length from the waist the squared radius is five times the waist's | `π w0² / (M2 λ)` | not executed | Measure.RayleighLengthIgnoresM2 | Measure.RayleighLengthDoubles |
| src/nanosquared/cameras/nanoscan.py:185-193 | the replacement of an invalid mode or threshold is preceded by `self.log(..., loglevel = logging.warn)`, and `logging.log` refuses a function as its level | `removeOutliers = 3`: `TypeError("level must be an integer")` instead of mode 0 | log at `logging.WARN`, then use mode 0 or threshold 0.2 | not executed | NanoScan.SettingsAsWrittenRaise | NanoScan.SettingsIntended |
| src/nanosquared/measurement/measure.py:187-195 | the same checks in `take_measurements` log at level `logging.warn` | `removeOutliers = 2, threshold = 0`: `TypeError` before the run starts | log at `logging.WARN`, then use threshold 0.2 | not executed | NanoScan.SettingsAsWritten | NanoScan.SettingsIntended |
| src/nanosquared/fitting/fitter.py:44-45 | a list argument becomes `np.array(list)`, the array of the builtin `list` type | `xerror = [0.1, 0.2]`: the values are lost and the solver gets an object array holding `list` | `np.array(varb)` | not executed | Fitter.EnsureNPLosesList | Fitter.EnsureNPIntendedKeepsLists |
