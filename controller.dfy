/**
 * The GSC-01 stage controller (src/nanosquared/stage/controller.py).
 *
 * The serial line is a command log and a queue of replies: each command the
 * controller writes takes the next reply, and an empty queue stands for a
 * read that returned nothing. In development mode nothing is sent.
 *
 * `FailWithWarning` and `FailSilently` (stage/errors.py) turn a
 * `ControllerError` raised inside the decorated method into a normal return;
 * every other exception passes through.
 *
 * Each operation is a function from one `Ctl` to an `Outcome`; the `Gsc01`
 * class performs it on its fields and on its `Stage`.
 */
module Controller {
  import opened Errors
  import opened Helpers
  import opened Rounding
  import opened StageModel

  datatype Command =
    | CheckCmd                                     // M:1+P1
    | PowerCmd(on: bool)                           // C:1<on>
    | SpeedCmd(min: int, max: int, acdc: int)      // D:1S<min>F<max>R<acdc>
    | JogSpeedCmd(jog: int)                        // S:J<jog>
    | HomeCmd                                      // H:1
    | ZeroCmd                                      // R:1
    | JogCmd(positive: bool)                       // J:1+ or J:1-
    | GoCmd                                        // G:
    | AbsoluteMoveCmd(positive: bool, pulses: nat) // A:1<sign>P<pulses>
    | RelativeMoveCmd(positive: bool, pulses: nat) // M:1<sign>P<pulses>
    | StatusQuery                                  // Q:
    | BusyQuery                                    // !:
    | StopCmd                                      // L:1
    | EmergencyStopCmd                             // L:E

  datatype Reply =
    | Acknowledged        // OK
    | Refused             // NG
    | ReadyReply          // R
    | BusyReply           // B
    | Coordinate(p: int)  // a status line whose first field is the coordinate
    | OtherReply
    | NoReply             // `read` found nothing and returned None
    | DevAck              // `safesend` in development mode returns True

  datatype Ctl = Ctl(stage: StageState, powered: bool, sent: seq<Command>, inbox: seq<Reply>)

  datatype Outcome<T> = Outcome(c: Ctl, r: Result<T>)

  /** What a decorated method returns: a `ControllerError` is swallowed. */
  function Swallowed(r: Result<()>): (s: Result<()>)
    ensures s.Err? <==> r.Err? && r.error != ControllerError
    ensures s.Err? ==> s == r
  {
    if r.Err? && r.error == ControllerError then Ok(()) else r
  }

  function Head(inbox: seq<Reply>): Reply
  {
    if |inbox| == 0 then NoReply else inbox[0]
  }

  function Tail(inbox: seq<Reply>): (t: seq<Reply>)
    ensures |inbox| > 0 ==> |t| == |inbox| - 1
    ensures |inbox| == 0 ==> t == []
  {
    if |inbox| == 0 then [] else inbox[1..]
  }

  /** `safesend`: write the command, read one reply, raise `ControllerError` on `NG`. */
  function SafeSendStep(dev: bool, c: Ctl, cmd: Command): (o: Outcome<Reply>)
    ensures dev ==> o == Outcome(c, Ok(DevAck))
    ensures !dev ==> o.c == c.(sent := c.sent + [cmd], inbox := Tail(c.inbox))
    ensures !dev ==> (o.r.Err? <==> Head(c.inbox) == Refused)
    ensures !dev && o.r.Err? ==> o.r.error == ControllerError
    ensures !dev && o.r.Ok? ==> o.r.value == Head(c.inbox)
  {
    if dev then Outcome(c, Ok(DevAck))
    else
      var c' := c.(sent := c.sent + [cmd], inbox := Tail(c.inbox));
      if Head(c.inbox) == Refused then Outcome(c', Err(ControllerError)) else Outcome(c', Ok(Head(c.inbox)))
  }

  /**
   * `isBusy`: `False` on `R`, `True` on `B`, `None` when nothing came back.
   * Any other reply raises `ControllerError`, which the decorator turns into
   * `None` as well.
   */
  function IsBusyStep(dev: bool, c: Ctl): (o: Outcome<Option<bool>>)
    ensures o.r.Ok?
    ensures dev ==> o == Outcome(c, Ok(Some(false)))
    ensures !dev ==> o.c == c.(sent := c.sent + [BusyQuery], inbox := Tail(c.inbox))
    ensures !dev ==> o.r.value == (if Head(c.inbox) == ReadyReply then Some(false)
                                   else if Head(c.inbox) == BusyReply then Some(true) else None)
  {
    if dev then Outcome(c, Ok(Some(false)))
    else
      var o := SafeSendStep(dev, c, BusyQuery);
      if o.r.Err? then Outcome(o.c, Ok(None))
      else if o.r.value == ReadyReply then Outcome(o.c, Ok(Some(false)))
      else if o.r.value == BusyReply then Outcome(o.c, Ok(Some(true)))
      else Outcome(o.c, Ok(None))
  }

  /** Five silent polls add a tenth of a second of wait; reaching 0.3 s, the 15th, raises. */
  const SilentPollLimit: nat := 15

  /** `waitClear` once `nones` silent polls have been counted. */
  function WaitClearFrom(dev: bool, c: Ctl, nones: nat): (o: Outcome<bool>)
    requires nones < SilentPollLimit
    ensures o.r.Ok? ==> o.r.value
    ensures o.r.Err? ==> o.r.error == RuntimeError && !dev
    ensures o.c.stage == c.stage && o.c.powered == c.powered
    decreases |c.inbox|, SilentPollLimit - nones
  {
    if dev then Outcome(c, Ok(true))
    else
      var o := IsBusyStep(dev, c);
      if o.r.value == Some(false) then Outcome(o.c, Ok(true))
      else if o.r.value == None then
        if nones + 1 == SilentPollLimit then Outcome(o.c, Err(RuntimeError))
        else WaitClearFrom(dev, o.c, nones + 1)
      else WaitClearFrom(dev, o.c, nones)
  }

  /** One poll of `waitClear` that did not find the stage ready: what is left of the wait. */
  lemma PollAdvance(before: Ctl, after: Ctl, x: Option<bool>, n: nat)
    requires n < SilentPollLimit
    requires IsBusyStep(false, before) == Outcome(after, Ok(x)) && x != Some(false)
    ensures x.None? && n + 1 == SilentPollLimit ==> WaitClearFrom(false, before, n) == Outcome(after, Err(RuntimeError))
    ensures x.None? && n + 1 < SilentPollLimit ==> WaitClearFrom(false, before, n) == WaitClearFrom(false, after, n + 1)
    ensures x.Some? ==> WaitClearFrom(false, before, n) == WaitClearFrom(false, after, n) && |after.inbox| < |before.inbox|
  {
  }

  function WaitClearStep(dev: bool, c: Ctl): (o: Outcome<bool>)
  {
    WaitClearFrom(dev, c, 0)
  }

  /** The first `R` ends the wait at once. */
  lemma WaitClearReady(c: Ctl, nones: nat, rest: seq<Reply>)
    requires nones < SilentPollLimit && c.inbox == [ReadyReply] + rest
    ensures WaitClearFrom(false, c, nones) == Outcome(c.(sent := c.sent + [BusyQuery], inbox := rest), Ok(true))
  {
  }

  /** A busy reply never counts toward the timeout: the wait goes on as if it had not come. */
  lemma WaitClearBusy(c: Ctl, nones: nat, rest: seq<Reply>)
    requires nones < SilentPollLimit && c.inbox == [BusyReply] + rest
    ensures WaitClearFrom(false, c, nones).r == WaitClearFrom(false, c.(sent := c.sent + [BusyQuery], inbox := rest), nones).r
  {
  }

  function Polls(n: nat): (q: seq<Command>)
    ensures |q| == n && forall i :: 0 <= i < n ==> q[i] == BusyQuery
  {
    if n == 0 then [] else Polls(n - 1) + [BusyQuery]
  }

  /** A controller that stays silent is polled until the 15th silent poll, which raises. */
  lemma {:induction false} WaitClearTimesOut(c: Ctl, nones: nat)
    requires nones < SilentPollLimit && c.inbox == []
    ensures WaitClearFrom(false, c, nones) == Outcome(c.(sent := c.sent + Polls(SilentPollLimit - nones)), Err(RuntimeError))
    decreases SilentPollLimit - nones
  {
    var c' := c.(sent := c.sent + [BusyQuery]);
    if nones + 1 < SilentPollLimit {
      WaitClearTimesOut(c', nones + 1);
      assert c.sent + [BusyQuery] + Polls(SilentPollLimit - (nones + 1)) == c.sent + Polls(SilentPollLimit - nones) by {
        PollsCons(SilentPollLimit - (nones + 1));
      }
    }
  }

  lemma {:induction false} PollsCons(n: nat)
    ensures [BusyQuery] + Polls(n) == Polls(n + 1)
  {
    if n > 0 {
      PollsCons(n - 1);
    }
  }

  /** The arguments of `setSpeed`; `None` keeps the stored value. */
  datatype SpeedArgs = SpeedArgs(jog: Option<PyValue>, min: Option<PyValue>, max: Option<PyValue>, acdc: Option<PyValue>)

  /** `initSpeed`: jog 500, min 500, max 5000 pulses per second, 200 ms ramps. */
  const InitSpeed: SpeedArgs := SpeedArgs(Some(PInt(500)), Some(PInt(500)), Some(PInt(5000)), Some(PInt(200)))

  function ArgList(a: SpeedArgs): (l: seq<Option<PyValue>>)
    ensures |l| == 4
  {
    [a.jog, a.min, a.max, a.acdc]
  }

  /** `combine`: `abs(ensureInt(x))` for each given value, the stored one otherwise. */
  function Requested(args: seq<Option<PyValue>>, original: seq<int>): (r: Result<seq<int>>)
    requires |args| == |original|
    ensures r.Ok? ==> |r.value| == |args|
    ensures r.Ok? ==> forall i :: 0 <= i < |args| ==>
              (args[i].Some? ==> EnsureInt(args[i].value).Ok?)
                && r.value[i] == (if args[i].None? then original[i] else Abs(EnsureInt(args[i].value).value))
    ensures (forall i :: 0 <= i < |args| && args[i].Some? ==> EnsureInt(args[i].value).Ok?) ==> r.Ok?
    ensures r.Err? ==> exists i :: 0 <= i < |args| && args[i].Some? && EnsureInt(args[i].value) == Err(r.error)
                                 && forall j :: 0 <= j < i && args[j].Some? ==> EnsureInt(args[j].value).Ok?
    decreases |args|
  {
    if |args| == 0 then Ok([])
    else
      var head := if args[0].None? then Ok(original[0]) else
        var v := EnsureInt(args[0].value); if v.Err? then Err(v.error) else Ok(Abs(v.value));
      if head.Err? then Err(head.error)
      else
        var tail := Requested(args[1..], original[1..]);
        if tail.Err? then Err(tail.error) else Ok([head.value] + tail.value)
  }

  /** One speed: rounded down to a multiple of 100, the stored value if then outside 100..20000. */
  function SpeedChecked(v: int, orig: int): (r: int)
    ensures r == orig || (100 <= r <= 20000 && r % 100 == 0)
    ensures 0 <= v && r != orig ==> r <= v < r + 100
    ensures 100 <= v <= 20000 && v % 100 == 0 ==> r == v
  {
    var w := if v % 100 != 0 then (v / 100) * 100 else v;
    if 100 <= w <= 20000 then w else orig
  }

  /**
   * The adjustment of the combined values: each speed checked, min and max
   * put in order, and an out-of-range `acdcTime` reverted.
   */
  function Adjusted(q: seq<int>, original: seq<int>): (r: seq<int>)
    requires |q| == 4 && |original| == 4
    ensures |r| == 4 && r[1] <= r[2]
    ensures forall i :: 0 <= i < 3 ==> (100 <= r[i] <= 20000 && r[i] % 100 == 0) || r[i] in original[..3]
    ensures (0 <= r[3] <= 1000) || r[3] == original[3]
  {
    var j := SpeedChecked(q[0], original[0]);
    var lo := SpeedChecked(q[1], original[1]);
    var hi := SpeedChecked(q[2], original[2]);
    var acdc := if 0 <= q[3] <= 1000 then q[3] else original[3];
    [j, if lo <= hi then lo else hi, if lo <= hi then hi else lo, acdc]
  }

  /**
   * The values `setSpeed` stores: `[jog, min, max, acdcTime]`.
   * `AssertionError` when the requested minimum exceeds the maximum, judged
   * before rounding; afterwards min and max are swapped if need be.
   */
  function SpeedPlan(original: seq<int>, args: SpeedArgs): (r: Result<seq<int>>)
    requires |original| == 4
    ensures r.Ok? ==> |r.value| == 4 && r.value[1] <= r.value[2]
    ensures r.Ok? ==> forall i :: 0 <= i < 3 ==> (100 <= r.value[i] <= 20000 && r.value[i] % 100 == 0) || r.value[i] in original[..3]
    ensures r.Ok? ==> (0 <= r.value[3] <= 1000) || r.value[3] == original[3]
  {
    var req := Requested(ArgList(args), original);
    if req.Err? then Err(req.error)
    else if !(req.value[1] <= req.value[2]) then Err(AssertionError)
    else Ok(Adjusted(req.value, original))
  }

  /** The loop of `setSpeed` over `combine`, then the swap and the `acdcTime` check. */
  method AdjustSpeeds(q: seq<int>, original: seq<int>) returns (combine: seq<int>)
    requires |q| == 4 && |original| == 4
    ensures combine == Adjusted(q, original)
  {
    combine := q;
    for i := 0 to 3
      invariant |combine| == 4 && combine[3] == q[3]
      invariant forall k :: 0 <= k < i ==> combine[k] == SpeedChecked(q[k], original[k])
      invariant forall k :: i <= k < 4 ==> combine[k] == q[k]
    {
      if combine[i] % 100 != 0 {
        combine := combine[i := (combine[i] / 100) * 100];
      }
      if !(100 <= combine[i] <= 20000) {
        combine := combine[i := original[i]];
      }
    }
    if !(combine[1] <= combine[2]) {
      combine := combine[1 := combine[2]][2 := combine[1]];
    }
    if !(0 <= combine[3] <= 1000) {
      combine := combine[3 := original[3]];
    }
  }

  /** A requested minimum above the requested maximum is refused before anything is set. */
  lemma SpeedPlanRejectsInverted(original: seq<int>, jog: Option<PyValue>, lo: int, hi: int, acdc: Option<PyValue>)
    requires |original| == 4 && 0 <= hi < lo
    requires jog.Some? ==> EnsureInt(jog.value).Ok?
    requires acdc.Some? ==> EnsureInt(acdc.value).Ok?
    ensures SpeedPlan(original, SpeedArgs(jog, Some(PInt(lo)), Some(PInt(hi)), acdc)) == Err(AssertionError)
  {
    var args := ArgList(SpeedArgs(jog, Some(PInt(lo)), Some(PInt(hi)), acdc));
    assert forall i :: 0 <= i < |args| && args[i].Some? ==> EnsureInt(args[i].value).Ok?;
  }

  /** Valid given values are stored as given; a jog speed not given keeps a valid stored one. */
  lemma SpeedPlanKeeps(original: seq<int>, lo: int, hi: int, acdc: int)
    requires |original| == 4 && 100 <= original[0] <= 20000 && original[0] % 100 == 0
    requires 100 <= lo <= hi <= 20000 && lo % 100 == 0 && hi % 100 == 0 && 0 <= acdc <= 1000
    ensures SpeedPlan(original, SpeedArgs(None, Some(PInt(lo)), Some(PInt(hi)), Some(PInt(acdc)))) == Ok([original[0], lo, hi, acdc])
  {
  }

  /** `initSpeed` itself is stored unchanged. */
  lemma InitSpeedPlan(original: seq<int>)
    requires |original| == 4
    ensures SpeedPlan(original, InitSpeed) == Ok([500, 500, 5000, 200])
  {
  }

  function StoredSpeeds(s: StageState): (l: seq<int>)
    ensures |l| == 4
  {
    [s.speed.jog, s.speed.min, s.speed.max, s.acdcTime]
  }

  /** `setSpeed`: store the plan, then send it; `init` re-applies `initSpeed`. */
  function SetSpeedStep(dev: bool, c: Ctl, args: SpeedArgs, init: bool): (o: Outcome<()>)
    ensures o.r.Err? ==> o.c == c
    ensures o.c.stage.(speed := c.stage.speed, acdcTime := c.stage.acdcTime) == c.stage && o.c.powered == c.powered
    ensures o.r.Ok? ==> o.c.stage.speed.min <= o.c.stage.speed.max
    ensures dev ==> o.c.sent == c.sent && o.c.inbox == c.inbox
  {
    var a := if init then InitSpeed else args;
    var plan := SpeedPlan(StoredSpeeds(c.stage), a);
    if plan.Err? then Outcome(c, Err(plan.error)) else SendSpeeds(dev, c, plan.value)
  }

  /** The end of `setSpeed`: store the four values, then send the speeds and, if that went through, the jog speed. */
  function SendSpeeds(dev: bool, c: Ctl, p: seq<int>): (o: Outcome<()>)
    requires |p| == 4
    ensures o.r == Ok(())
    ensures o.c.stage == c.stage.(speed := Speeds(p[0], p[1], p[2]), acdcTime := p[3]) && o.c.powered == c.powered
    ensures dev ==> o.c.sent == c.sent && o.c.inbox == c.inbox
  {
    var c1 := c.(stage := c.stage.(speed := Speeds(p[0], p[1], p[2]), acdcTime := p[3]));
    var o1 := SafeSendStep(dev, c1, SpeedCmd(p[1], p[2], p[3]));
    if o1.r.Err? then Outcome(o1.c, Ok(()))
    else
      var o2 := SafeSendStep(dev, o1.c, JogSpeedCmd(p[0]));
      Outcome(o2.c, Ok(()))
  }

  /** `getPositionReadOut`: `int(getStatus1()[0])`, 0 in development mode. */
  function ReadOutStep(dev: bool, c: Ctl): (o: Outcome<int>)
    ensures o.c.stage == c.stage && o.c.powered == c.powered
    ensures dev ==> o == Outcome(c, Ok(0))
    ensures !dev ==> o.c == c.(sent := c.sent + [StatusQuery], inbox := Tail(c.inbox))
    ensures !dev ==> (o.r.Ok? <==> Head(c.inbox).Coordinate?)
    ensures !dev && o.r.Ok? ==> o.r.value == Head(c.inbox).p && |o.c.inbox| < |c.inbox|
  {
    if dev then Outcome(c, Ok(0))
    else
      var o := SafeSendStep(dev, c, StatusQuery);
      // An `NG` makes the decorated `getStatus1` return None, which cannot be indexed.
      if o.r.Err? then Outcome(o.c, Err(TypeError))
      else if o.r.value.Coordinate? then Outcome(o.c, Ok(o.r.value.p))
      // Nothing read: `None.split` fails.
      else if o.r.value == NoReply then Outcome(o.c, Err(AttributeError))
      else Outcome(o.c, Err(ValueError))
  }

  /** The `powered` setter: releasing a powered motor makes the position permanently dirty. */
  function PoweredStep(dev: bool, c: Ctl, state: bool): (o: Outcome<()>)
    ensures o.r.Ok? ==> o.c.powered == state
    ensures o.r.Ok? && c.powered && !state ==> o.c.stage.permDirty && o.c.stage.dirty
    ensures o.r.Ok? && !(c.powered && !state) ==> o.c.stage == c.stage
  {
    var o := SafeSendStep(dev, c, PowerCmd(state));
    if o.r.Err? then Outcome(o.c, Err(o.r.error))
    else if c.powered && !state then
      var p := PermDirtySet(o.c.stage);
      if p.Err? then Outcome(o.c, Err(p.error)) else Outcome(o.c.(stage := p.value, powered := state), Ok(()))
    else Outcome(o.c.(powered := state), Ok(()))
  }

  /** `resetPositionToZero`: position 0, and on a ranged stage both limits shifted by minus the old position. */
  function ResetToZeroStep(dev: bool, c: Ctl): (o: Outcome<()>)
  {
    var cur := PositionGet(c.stage);
    if cur.Err? then Outcome(c, Err(cur.error))
    else
      var s1 := PositionSet(c.stage, PInt(0));
      if s1.Err? then Outcome(c, Err(s1.error))
      else
        var s2 := if s1.value.ranged then LimitsSet(s1.value, s1.value.upper - cur.value as real, s1.value.lower - cur.value as real)
                  else Ok(s1.value);
        if s2.Err? then Outcome(c.(stage := s1.value), Err(s2.error))
        else
          var o := SafeSendStep(dev, c.(stage := s2.value), ZeroCmd);
          if o.r.Err? then Outcome(o.c, Err(o.r.error)) else Outcome(o.c, Ok(()))
  }

  /**
   * Re-zeroing a clean stage whose position is within its limits puts it at
   * 0; on a ranged stage the limits move with it and keep their span.
   */
  lemma ResetKeepsSpan(dev: bool, c: Ctl)
    requires !c.stage.dirty && c.stage.lower <= c.stage.position as real <= c.stage.upper
    requires c.stage.lower <= 0.0 <= c.stage.upper
    ensures var o := ResetToZeroStep(dev, c);
            && o.c.stage.position == 0
            && o.c.stage.upper - o.c.stage.lower == c.stage.upper - c.stage.lower
            && (c.stage.ranged ==> o.c.stage.lower == c.stage.lower - c.stage.position as real
                                   && o.c.stage.upper == c.stage.upper - c.stage.position as real)
            && (!c.stage.ranged ==> o.c.stage.lower == c.stage.lower && o.c.stage.upper == c.stage.upper)
            && o.c.stage.lower <= 0.0 <= o.c.stage.upper
  {
  }

  /** `homeStage`: home, wait, clear both flags, then re-zero. */
  function HomeStep(dev: bool, c: Ctl): (o: Outcome<()>)
  {
    var o1 := SafeSendStep(dev, c, HomeCmd);
    if o1.r.Err? then Outcome(o1.c, Ok(()))
    else
      var o2 := WaitClearStep(dev, o1.c);
      if o2.r.Err? then Outcome(o2.c, Err(o2.r.error))
      else
        var s := o2.c.stage.(permDirty := false, dirty := false);
        var o3 := ResetToZeroStep(dev, o2.c.(stage := s));
        Outcome(o3.c, Swallowed(o3.r))
  }

  /** Homing, once the controller has accepted it and become ready, leaves a clean stage at 0. */
  lemma HomeCleans(dev: bool, c: Ctl)
    requires c.stage.lower <= 0.0 <= c.stage.upper
    requires SafeSendStep(dev, c, HomeCmd).r.Ok? && WaitClearStep(dev, SafeSendStep(dev, c, HomeCmd).c).r.Ok?
    ensures !HomeStep(dev, c).c.stage.dirty && !HomeStep(dev, c).c.stage.permDirty
    ensures HomeStep(dev, c).c.stage.position == 0
  {
  }

  /** How many of the stage's limits a readout of 0 violates. */
  function Violations(s: StageState): nat
  {
    (if 0.0 < s.lower then 1 else 0) + (if s.upper < 0.0 then 1 else 0)
  }

  /**
   * A readout outside the limits moves the limit it violates onto it, the
   * lower one first; the pulse range becomes the distance between the limits.
   */
  function Widened(st: StageState, pos: int): (w: StageState)
    requires !(st.lower <= pos as real <= st.upper)
    ensures pos as real < st.lower ==> w.lower == pos as real && w.upper == st.upper
    ensures st.lower <= pos as real ==> w.lower == st.lower && w.upper == pos as real
    ensures w == st.(lower := w.lower, upper := w.upper, pulseRange := AbsReal(w.lower - w.upper))
  {
    var st1 := if (pos as real) < st.lower then st.(lower := pos as real) else st.(upper := pos as real);
    st1.(pulseRange := AbsReal(st1.lower - st1.upper))
  }

  /**
   * `syncPosition`: store the readout; a readout outside the limits widens
   * them, recomputes the micrometres per pulse and tries again. The dirty
   * flag is cleared only while powered. It returns the first readout.
   */
  function SyncStep(dev: bool, c: Ctl): (o: Outcome<int>)
    ensures o.c.powered == c.powered
    decreases if dev then 0 else |c.inbox|, Violations(c.stage)
  {
    var o := ReadOutStep(dev, c);
    if o.r.Err? then Outcome(o.c, Err(o.r.error))
    else
      var pos := o.r.value;
      var stored := PositionSet(o.c.stage, PInt(pos));
      var inner :=
        if stored.Ok? then Outcome(o.c.(stage := stored.value), Ok(pos))
        else
          var u := UmPerPulseRecalculated(Widened(o.c.stage, pos));
          if u.Err? then Outcome(o.c.(stage := Widened(o.c.stage, pos)), Err(u.error))
          else
            assert dev ==> pos == 0 && Violations(u.value) < Violations(c.stage);
            SyncStep(dev, o.c.(stage := u.value));
      SyncFinish(inner, pos)
  }

  /** The end of `sync`: a `ControllerError` is swallowed, and a powered stage is marked clean. */
  function SyncFinish(inner: Outcome<int>, pos: int): (o: Outcome<int>)
    ensures o.c.powered == inner.c.powered
    ensures o.c.stage.permDirty == inner.c.stage.permDirty
    ensures o.r.Ok? <==> inner.r.Ok? || inner.r.error == ControllerError
    ensures o.r.Ok? ==> o.r.value == pos && o.c.stage.position == inner.c.stage.position
                        && o.c.stage.lower == inner.c.stage.lower && o.c.stage.upper == inner.c.stage.upper
    ensures o.r.Ok? && o.c.powered && !o.c.stage.permDirty ==> !o.c.stage.dirty
  {
    if inner.r.Err? && inner.r.error != ControllerError then Outcome(inner.c, Err(inner.r.error))
    else
      var st := inner.c.stage;
      var cleaned := if inner.c.powered then DirtySet(st, false).value else st;
      Outcome(inner.c.(stage := cleaned), Ok(pos))
  }

  /** After a successful sync the stored position lies within the limits. */
  lemma {:induction false} SyncWithinLimits(dev: bool, c: Ctl)
    ensures var o := SyncStep(dev, c);
            o.r.Ok? ==> o.c.stage.lower <= o.c.stage.position as real <= o.c.stage.upper
    decreases if dev then 0 else |c.inbox|, Violations(c.stage)
  {
    var o := ReadOutStep(dev, c);
    if o.r.Ok? && PositionSet(o.c.stage, PInt(o.r.value)).Err? {
      var u := UmPerPulseRecalculated(Widened(o.c.stage, o.r.value));
      if u.Ok? {
        SyncWithinLimits(dev, o.c.(stage := u.value));
      }
    }
  }

  /** Syncing never sets or clears the permanent dirty flag. */
  lemma {:induction false} SyncKeepsPermDirty(dev: bool, c: Ctl)
    ensures SyncStep(dev, c).c.stage.permDirty == c.stage.permDirty
    decreases if dev then 0 else |c.inbox|, Violations(c.stage)
  {
    var o := ReadOutStep(dev, c);
    if o.r.Ok? && PositionSet(o.c.stage, PInt(o.r.value)).Err? {
      var u := UmPerPulseRecalculated(Widened(o.c.stage, o.r.value));
      if u.Ok? {
        SyncKeepsPermDirty(dev, o.c.(stage := u.value));
      }
    }
  }

  /** A successful sync of a powered stage that is not permanently dirty leaves it clean. */
  lemma SyncCleans(dev: bool, c: Ctl)
    requires c.powered && !c.stage.permDirty
    ensures SyncStep(dev, c).r.Ok? ==> !SyncStep(dev, c).c.stage.dirty
  {
    var o := ReadOutStep(dev, c);
    if o.r.Ok? && PositionSet(o.c.stage, PInt(o.r.value)).Err? {
      var u := UmPerPulseRecalculated(Widened(o.c.stage, o.r.value));
      if u.Ok? {
        SyncKeepsPermDirty(dev, o.c.(stage := u.value));
      }
    }
  }

  /** In development mode the readout is 0, so limits around 0 are kept and the position becomes 0. */
  lemma SyncDevMode(c: Ctl)
    requires c.stage.lower <= 0.0 <= c.stage.upper
    ensures SyncStep(true, c).r == Ok(0)
    ensures SyncStep(true, c).c == c.(stage := if c.powered && !c.stage.permDirty then c.stage.(position := 0, dirty := false)
                                                else c.stage.(position := 0))
  {
  }

  /** In development mode a sweep reads 0 and leaves the position dirty. */
  lemma SweepDevMode(c: Ctl, positive: bool)
    requires !c.stage.permDirty
    ensures SweepStep(true, c, positive) == Outcome(c.(stage := c.stage.(dirty := true)), Ok(0))
  {
  }

  /** `stop`: an emergency stop is sent at once; otherwise a dirty position is synced first. */
  function StopStep(dev: bool, c: Ctl, emergency: bool): (o: Outcome<()>)
  {
    if emergency then
      var o := SafeSendStep(dev, c, EmergencyStopCmd);
      Outcome(o.c, Ok(()))
    else
      var o1 := if c.stage.dirty then SyncStep(dev, c) else Outcome(c, Ok(0));
      if o1.r.Err? && o1.r.error != ControllerError then Outcome(o1.c, Err(o1.r.error))
      else
        var o2 := SafeSendStep(dev, o1.c, StopCmd);
        Outcome(o2.c, Ok(()))
  }

  /** An emergency stop sends one command and touches nothing else; a clean stop does not sync. */
  lemma StopEmergency(dev: bool, c: Ctl)
    ensures !dev ==> StopStep(dev, c, true).c == c.(sent := c.sent + [EmergencyStopCmd], inbox := Tail(c.inbox))
    ensures !c.stage.dirty && !dev ==> StopStep(dev, c, false).c == c.(sent := c.sent + [StopCmd], inbox := Tail(c.inbox))
  {
  }

  /** `jog`: start moving; the position is dirty from then on. With `secs`, stop afterwards. */
  function JogStep(dev: bool, c: Ctl, positive: bool, secs: Option<real>): (o: Outcome<()>)
  {
    var o1 := SafeSendStep(dev, c, JogCmd(positive));
    if o1.r.Err? then Outcome(o1.c, Ok(()))
    else
      var o2 := SafeSendStep(dev, o1.c, GoCmd);
      if o2.r.Err? then Outcome(o2.c, Ok(()))
      else
        var d := DirtySet(o2.c.stage, true);
        if d.Err? then Outcome(o2.c, Err(d.error))
        else
          var c3 := o2.c.(stage := d.value);
          if secs.Some? && secs.value >= 0.0 then
            var o4 := StopStep(dev, c3, false);
            Outcome(o4.c, Swallowed(o4.r))
          else if secs.Some? then Outcome(c3, Err(ValueError))
          else Outcome(c3, Ok(()))
  }

  /** A jog the controller accepts leaves the position dirty. */
  lemma JogDirties(dev: bool, c: Ctl, positive: bool)
    requires !c.stage.permDirty
    requires SafeSendStep(dev, c, JogCmd(positive)).r.Ok?
    requires SafeSendStep(dev, SafeSendStep(dev, c, JogCmd(positive)).c, GoCmd).r.Ok?
    ensures JogStep(dev, c, positive, None).r.Ok? && JogStep(dev, c, positive, None).c.stage.dirty
    ensures JogStep(dev, c, positive, None).c.stage == c.stage.(dirty := true)
  {
  }

  /** `move`: the target goes through the position setter before any command is sent. */
  function MoveStep(dev: bool, c: Ctl, pos: int): (o: Outcome<()>)
  {
    var s := PositionSet(c.stage, PInt(pos));
    if s.Err? then Outcome(c, Err(s.error))
    else
      var o1 := SafeSendStep(dev, c.(stage := s.value), AbsoluteMoveCmd(pos >= 0, Abs(pos)));
      if o1.r.Err? then Outcome(o1.c, Ok(()))
      else
        var o2 := SafeSendStep(dev, o1.c, GoCmd);
        Outcome(o2.c, Ok(()))
  }

  /** An out-of-range target raises and sends nothing; an in-range one is stored and sent. */
  lemma MovePrecheck(dev: bool, c: Ctl, pos: int)
    ensures !(c.stage.lower <= pos as real <= c.stage.upper) ==> MoveStep(dev, c, pos) == Outcome(c, Err(PositionOutOfBoundsError))
    ensures c.stage.lower <= pos as real <= c.stage.upper ==>
              MoveStep(dev, c, pos).r.Ok? && MoveStep(dev, c, pos).c.stage == c.stage.(position := pos)
              && (!dev ==> MoveStep(dev, c, pos).c.sent[..|c.sent| + 1] == c.sent + [AbsoluteMoveCmd(pos >= 0, Abs(pos))])
  {
  }

  /** One half of `findRange`: jog to an end, wait until ready, read the coordinate. */
  function SweepStep(dev: bool, c: Ctl, positive: bool): (o: Outcome<int>)
  {
    var o1 := JogStep(dev, c, positive, None);
    if o1.r.Err? then Outcome(o1.c, Err(o1.r.error)) else
    var o2 := WaitClearStep(dev, o1.c);
    if o2.r.Err? then Outcome(o2.c, Err(o2.r.error)) else
    ReadOutStep(dev, o2.c)
  }

  /** The rest of `findRange`, once both ends have been read. */
  function RangeFromEnds(dev: bool, c: Ctl, left: int, right: int, origSpeed: int): (o: Outcome<real>)
  {
    var range := if dev then 100557.0 else Abs(left - right) as real;
    var u := UmPerPulseRecalculated(c.stage.(pulseRange := range));
    if u.Err? then Outcome(c.(stage := c.stage.(pulseRange := range)), Err(u.error)) else
    var o8 := SyncStep(dev, c.(stage := u.value));
    if o8.r.Err? && o8.r.error != ControllerError then Outcome(o8.c, Err(o8.r.error)) else
    RangeLimits(dev, o8.c, left, right, origSpeed)
  }

  /** The end of `findRange`: store the limits, mark the stage ranged, restore the jog speed. */
  function RangeLimits(dev: bool, c: Ctl, left: int, right: int, origSpeed: int): (o: Outcome<real>)
  {
    var hi := if dev then 50278.0 else (if left >= right then left else right) as real;
    var lo := if dev then -50278.0 else (if left >= right then right else left) as real;
    // Never refused: the upper limit passed is never below the lower one.
    var limited := LimitsSet(c.stage, hi, lo).value;
    var c9 := c.(stage := limited.(ranged := true));
    var o10 := SetSpeedStep(dev, c9, SpeedArgs(Some(PInt(origSpeed)), None, None, None), false);
    if o10.r.Err? then Outcome(o10.c, Err(o10.r.error)) else
    Outcome(o10.c, Ok(o10.c.stage.pulseRange))
  }

  /**
   * `findRange`: jog to both ends at 4000 pulses per second, take the pulse
   * range from the two readouts (100557 in development mode), sync, and set
   * the limits to the readouts (±50278 in development mode).
   */
  function FindRangeStep(dev: bool, c: Ctl): (o: Outcome<real>)
  {
    var c0 := c.(stage := c.stage.(pulseRange := 0.0));
    var o1 := SetSpeedStep(dev, c0, SpeedArgs(Some(PInt(4000)), None, None, None), false);
    if o1.r.Err? then Outcome(o1.c, Err(o1.r.error)) else
    var left := SweepStep(dev, o1.c, true);
    if left.r.Err? then Outcome(left.c, Err(left.r.error)) else
    var right := SweepStep(dev, left.c, false);
    if right.r.Err? then Outcome(right.c, Err(right.r.error)) else
    RangeFromEnds(dev, right.c, left.r.value, right.r.value, c0.stage.speed.jog)
  }

  /** `rmove`: the stored position plus `delta` goes through the position setter first. */
  function RelativeMoveStep(dev: bool, c: Ctl, delta: int): (o: Outcome<()>)
  {
    var cur := PositionGet(c.stage);
    if cur.Err? then Outcome(c, Err(cur.error))
    else
      var s := PositionSet(c.stage, PInt(cur.value + delta));
      if s.Err? then Outcome(c, Err(s.error))
      else
        var o1 := SafeSendStep(dev, c.(stage := s.value), RelativeMoveCmd(delta >= 0, Abs(delta)));
        if o1.r.Err? then Outcome(o1.c, Ok(()))
        else
          var o2 := SafeSendStep(dev, o1.c, GoCmd);
          Outcome(o2.c, Ok(()))
  }

  /** A relative move of a dirty stage, or past a limit, raises before anything is sent. */
  lemma RelativeMovePrecheck(dev: bool, c: Ctl, delta: int)
    ensures c.stage.dirty ==> RelativeMoveStep(dev, c, delta) == Outcome(c, Err(PositionDirtyError))
    ensures !c.stage.dirty && !(c.stage.lower <= (c.stage.position + delta) as real <= c.stage.upper) ==>
              RelativeMoveStep(dev, c, delta) == Outcome(c, Err(PositionOutOfBoundsError))
    ensures !c.stage.dirty && c.stage.lower <= (c.stage.position + delta) as real <= c.stage.upper ==>
              RelativeMoveStep(dev, c, delta).c.stage == c.stage.(position := c.stage.position + delta)
  {
  }

  /** The constructor after `super().__init__`: wait, read the position, power on, set speeds, check dirtiness. */
  function StartStep(dev: bool, c: Ctl): (o: Outcome<()>)
  {
    var o1 := WaitClearStep(dev, c);
    if o1.r.Err? then Outcome(o1.c, Err(o1.r.error)) else
    var o2 := ReadOutStep(dev, o1.c);
    if o2.r.Err? then Outcome(o2.c, Err(o2.r.error)) else
    var s := PositionSet(o2.c.stage, PInt(o2.r.value));
    if s.Err? then Outcome(o2.c, Err(s.error)) else
    var o4 := PoweredStep(dev, o2.c.(stage := s.value, powered := false), true);
    if o4.r.Err? then Outcome(o4.c, Err(o4.r.error)) else
    var o5 := SetSpeedStep(dev, o4.c, InitSpeed, false);
    if o5.r.Err? then Outcome(o5.c, Err(o5.r.error)) else
    // `checkDirtiness`: a refused probe marks the stage permanently dirty.
    var o6 := SafeSendStep(dev, o5.c, CheckCmd);
    if o6.r.Ok? then Outcome(o6.c, Ok(())) else
    var p := PermDirtySet(o6.c.stage);
    if p.Err? then Outcome(o6.c, Err(p.error)) else Outcome(o6.c.(stage := p.value), Ok(()))
  }

  /** In development mode a fresh stage starts powered, clean, at 0 and at the initial speeds. */
  lemma StartDevMode(c: Ctl, kind: StageKind)
    requires c.stage == InitialStage(kind, 0)
    ensures var o := StartStep(true, c);
            && o.r.Ok? && o.c.powered && !o.c.stage.dirty && !o.c.stage.permDirty && o.c.stage.position == 0
            && o.c.stage.speed == Speeds(500, 500, 5000) && o.c.stage.acdcTime == 200
  {
    InitSpeedPlan(StoredSpeeds(c.stage));
  }

  /** Changing only the jog speed succeeds whenever the stored minimum does not exceed the maximum. */
  lemma JogSpeedOnly(dev: bool, c: Ctl, v: int)
    requires c.stage.speed.min <= c.stage.speed.max
    ensures SetSpeedStep(dev, c, SpeedArgs(Some(PInt(v)), None, None, None), false).r.Ok?
  {
    var args := ArgList(SpeedArgs(Some(PInt(v)), None, None, None));
    assert forall i :: 0 <= i < |args| && args[i].Some? ==> EnsureInt(args[i].value).Ok?;
    var req := Requested(args, StoredSpeeds(c.stage));
    assert req.value[1] == c.stage.speed.min && req.value[2] == c.stage.speed.max;
  }

  /** Setting the jog speed succeeds and keeps what the rest of `findRange` depends on. */
  lemma JogDevMode(c: Ctl)
    requires c.stage.speed.min <= c.stage.speed.max
    ensures var o := SetSpeedStep(true, c, SpeedArgs(Some(PInt(4000)), None, None, None), false);
            && o.r.Ok? && o.c.powered == c.powered && o.c.stage.permDirty == c.stage.permDirty
            && o.c.stage.lower == c.stage.lower && o.c.stage.upper == c.stage.upper
            && o.c.stage.travel == c.stage.travel && o.c.stage.speed.min <= o.c.stage.speed.max
  {
    JogSpeedOnly(true, c, 4000);
  }

  /** The tail of `findRange` in development mode, ending clean at 0 over ±50278. */
  lemma RangeFromEndsDevMode(c: Ctl, origSpeed: int)
    requires c.powered && !c.stage.permDirty && c.stage.speed.min <= c.stage.speed.max
    requires c.stage.lower <= 0.0 <= c.stage.upper
    ensures RangedInDevMode(RangeFromEnds(true, c, 0, 0, origSpeed), c.stage.travel)
  {
    var u := UmPerPulseRecalculated(c.stage.(pulseRange := 100557.0));
    SyncDevMode(c.(stage := u.value));
  }

  /**
   * In development mode `findRange` on a powered stage that is not
   * permanently dirty and whose limits contain 0 ends ranged over ±50278
   * with a pulse range of 100557, clean and at 0.
   */
  lemma FindRangeDevMode(c: Ctl)
    requires c.powered && !c.stage.permDirty && c.stage.speed.min <= c.stage.speed.max
    requires c.stage.lower <= 0.0 <= c.stage.upper
    ensures RangedInDevMode(FindRangeStep(true, c), c.stage.travel)
  {
    var c0 := c.(stage := c.stage.(pulseRange := 0.0));
    JogDevMode(c0);
    var o1 := SetSpeedStep(true, c0, SpeedArgs(Some(PInt(4000)), None, None, None), false);
    SweepDevMode(o1.c, true);
    var left := SweepStep(true, o1.c, true);
    SweepDevMode(left.c, false);
    var right := SweepStep(true, left.c, false);
    assert right.c.stage.travel == c.stage.travel;
    assert FindRangeStep(true, c) == RangeFromEnds(true, right.c, 0, 0, c0.stage.speed.jog);
    RangeFromEndsDevMode(right.c, c0.stage.speed.jog);
  }

  /**
   * Where `findRange` leaves a development-mode stage: a pulse range of
   * 100557 returned, limits at the readouts ±50278, ranged, the micrometres
   * per pulse recomputed from `travel`, and clean at 0.
   */
  predicate RangedInDevMode(o: Outcome<real>, travel: int)
  {
    && o.r == Ok(100557.0)
    && o.c.stage.lower == -50278.0 && o.c.stage.upper == 50278.0 && o.c.stage.ranged
    && o.c.stage.umPerPulse == Some((travel * 1000) as real / 100557.0)
    && !o.c.stage.dirty && o.c.stage.position == 0
  }

  /** The controller object: the serial line as fields, and its `Stage`. */
  class Gsc01 {
    const devMode: bool
    const stage: Stage
    var powered: bool           // _powered
    var sent: seq<Command>
    var inbox: seq<Reply>

    function State(): Ctl
      reads this, stage
    {
      Ctl(stage.State(), powered, sent, inbox)
    }

    /** Before the constructor body runs: not powered, nothing sent. */
    constructor (dev: bool, s: Stage, replies: seq<Reply>)
      ensures devMode == dev && stage == s
      ensures State() == Ctl(s.State(), false, [], replies)
    {
      devMode, stage := dev, s;
      powered, sent, inbox := false, [], replies;
    }

    method SafeSend(cmd: Command) returns (r: Result<Reply>)
      modifies this
      ensures Outcome(State(), r) == SafeSendStep(devMode, old(State()), cmd)
    {
      if devMode {
        return Ok(DevAck);
      }
      var reply := Head(inbox);
      sent, inbox := sent + [cmd], Tail(inbox);
      if reply == Refused {
        return Err(ControllerError);
      }
      r := Ok(reply);
    }

    method IsBusy() returns (r: Option<bool>)
      modifies this
      ensures Outcome(State(), Ok(r)) == IsBusyStep(devMode, old(State()))
    {
      if devMode {
        return Some(false);
      }
      var ret := SafeSend(BusyQuery);
      if ret.Err? {
        return None;    // the `ControllerError` swallowed by the decorator
      }
      match ret.value
      case ReadyReply => r := Some(false);
      case BusyReply => r := Some(true);
      case _ => r := None;
    }

    /** `waitClear`, with `waitTime` counted in tenths of a second. */
    method WaitClear() returns (r: Result<bool>)
      modifies this
      ensures Outcome(State(), r) == WaitClearStep(devMode, old(State()))
    {
      if devMode {
        return Ok(true);
      }
      var timeoutCount, waitTenths := 0, 0;
      while true
        invariant 0 <= timeoutCount < 5 && 0 <= waitTenths < 3
        invariant WaitClearFrom(false, State(), 5 * waitTenths + timeoutCount) == WaitClearStep(false, old(State()))
        decreases |inbox|, SilentPollLimit - (5 * waitTenths + timeoutCount)
      {
        var done;
        done, timeoutCount, waitTenths := PollOnce(timeoutCount, waitTenths);
        if done.Some? {
          return done.value;
        }
      }
    }

    /** One pass of the `waitClear` loop: the result if it ends the wait, else the new counters. */
    method PollOnce(timeoutCount: int, waitTenths: int) returns (done: Option<Result<bool>>, timeouts: int, tenths: int)
      requires !devMode && 0 <= timeoutCount < 5 && 0 <= waitTenths < 3
      modifies this
      ensures done.Some? ==> Outcome(State(), done.value) == WaitClearFrom(false, old(State()), 5 * waitTenths + timeoutCount)
      ensures done.None? ==> && 0 <= timeouts < 5 && 0 <= tenths < 3
                             && WaitClearFrom(false, State(), 5 * tenths + timeouts)
                                == WaitClearFrom(false, old(State()), 5 * waitTenths + timeoutCount)
                             && (|inbox| < |old(inbox)|
                                 || (|inbox| <= |old(inbox)| && 5 * tenths + timeouts > 5 * waitTenths + timeoutCount))
    {
      ghost var n := 5 * waitTenths + timeoutCount;
      timeouts, tenths := timeoutCount, waitTenths;
      var x := IsBusy();
      if x == Some(false) {
        return Some(Ok(true)), timeouts, tenths;
      }
      PollAdvance(old(State()), State(), x, n);
      done := None;
      if x.None? {
        timeouts := timeouts + 1;
        if timeouts >= 5 {
          timeouts := 0;
          tenths := tenths + 1;
        }
        if tenths >= 3 {
          done := Some(Err(RuntimeError));
        }
      }
    }

    /** `setSpeed`: `combine` is adjusted in place, then stored and sent. */
    method SetSpeed(args: SpeedArgs, init: bool) returns (r: Result<()>)
      modifies this, stage
      ensures Outcome(State(), r) == SetSpeedStep(devMode, old(State()), args, init)
      decreases if init then 1 else 0
    {
      if init {
        r := SetSpeed(InitSpeed, false);
        return;
      }
      var original := [stage.speed.jog, stage.speed.min, stage.speed.max, stage.acdcTime];
      var req := Requested(ArgList(args), original);
      if req.Err? {
        return Err(req.error);
      }
      if !(req.value[1] <= req.value[2]) {
        return Err(AssertionError);
      }
      var combine := AdjustSpeeds(req.value, original);
      r := StoreAndSend(combine);
    }

    method StoreAndSend(combine: seq<int>) returns (r: Result<()>)
      requires |combine| == 4
      modifies this, stage
      ensures Outcome(State(), r) == SendSpeeds(devMode, old(State()), combine)
    {
      stage.speed, stage.acdcTime := Speeds(combine[0], combine[1], combine[2]), combine[3];
      var a := SafeSend(SpeedCmd(combine[1], combine[2], combine[3]));
      if a.Err? {
        return Ok(());
      }
      var b := SafeSend(JogSpeedCmd(combine[0]));
      r := Ok(());
    }

    method GetPositionReadOut() returns (r: Result<int>)
      modifies this
      ensures Outcome(State(), r) == ReadOutStep(devMode, old(State()))
    {
      if devMode {
        return Ok(0);
      }
      var ret := SafeSend(StatusQuery);
      if ret.Err? {
        return Err(TypeError);
      }
      match ret.value
      case Coordinate(p) => r := Ok(p);
      case NoReply => r := Err(AttributeError);
      case _ => r := Err(ValueError);
    }

    /** The `powered` setter. */
    method SetPowered(state: bool) returns (r: Result<()>)
      modifies this, stage
      ensures Outcome(State(), r) == PoweredStep(devMode, old(State()), state)
    {
      var ret := SafeSend(PowerCmd(state));
      if ret.Err? {
        return Err(ret.error);
      }
      if powered && !state {
        r := stage.SetPermDirty();
        if r.Err? {
          return;
        }
      }
      powered := state;
      r := Ok(());
    }

    method ReleaseMotor() returns (r: Result<()>)
      modifies this, stage
      ensures var o := PoweredStep(devMode, old(State()), false); Outcome(State(), r) == Outcome(o.c, Swallowed(o.r))
    {
      r := SetPowered(false);
      r := Swallowed(r);
    }

    method PowerMotor() returns (r: Result<()>)
      modifies this, stage
      ensures var o := PoweredStep(devMode, old(State()), true); Outcome(State(), r) == Outcome(o.c, Swallowed(o.r))
    {
      r := SetPowered(true);
      r := Swallowed(r);
    }

    method ResetPositionToZero() returns (r: Result<()>)
      modifies this, stage
      ensures Outcome(State(), r) == ResetToZeroStep(devMode, old(State()))
    {
      var cur := stage.GetPosition();
      if cur.Err? {
        return Err(cur.error);
      }
      r := stage.SetPosition(PInt(0));
      if r.Err? {
        return;
      }
      if stage.ranged {
        var delta := -cur.value;
        assert delta as real == -(cur.value as real);
        r := stage.SetLimits(stage.upper + delta as real, stage.lower + delta as real);
        if r.Err? {
          return;
        }
      }
      var ret := SafeSend(ZeroCmd);
      if ret.Err? {
        return Err(ret.error);
      }
      r := Ok(());
    }

    method HomeStage() returns (r: Result<()>)
      modifies this, stage
      ensures Outcome(State(), r) == HomeStep(devMode, old(State()))
    {
      var ret := SafeSend(HomeCmd);
      if ret.Err? {
        return Ok(());
      }
      var w := WaitClear();
      if w.Err? {
        return Err(w.error);
      }
      stage.permDirty := false;
      r := stage.SetDirty(false);
      r := ResetPositionToZero();
      r := Swallowed(r);
    }

    method SyncPosition() returns (r: Result<int>)
      modifies this, stage
      ensures Outcome(State(), r) == SyncStep(devMode, old(State()))
      decreases if devMode then 0 else |inbox|, Violations(stage.State())
    {
      var readout := GetPositionReadOut();
      if readout.Err? {
        return Err(readout.error);
      }
      var pos := readout.value;
      var stored := stage.SetPosition(PInt(pos));
      if stored.Err? {
        WidenTo(pos);
        var u := stage.RecalculateUmPerPulse();
        if u.Err? {
          return Err(u.error);
        }
        var inner := SyncPosition();
        if inner.Err? && inner.error != ControllerError {
          return Err(inner.error);
        }
      }
      if powered {
        var _ := stage.SetDirty(false);
      }
      r := Ok(pos);
    }

    /** The limit the readout lies beyond moves out to it, and the pulse range follows. */
    method WidenTo(pos: int)
      requires !(stage.lower <= pos as real <= stage.upper)
      modifies stage
      ensures stage.State() == Widened(old(stage.State()), pos)
    {
      ghost var before := stage.State();
      if (pos as real) < stage.lower {
        stage.lower := pos as real;
      } else if (pos as real) > stage.upper {
        stage.upper := pos as real;
      }
      stage.pulseRange := AbsReal(stage.lower - stage.upper);
      assert stage.State() == Widened(before, pos);
    }

    method Stop(emergency: bool) returns (r: Result<()>)
      modifies this, stage
      ensures Outcome(State(), r) == StopStep(devMode, old(State()), emergency)
    {
      if emergency {
        var ret := SafeSend(EmergencyStopCmd);
        return Ok(());
      }
      if stage.dirty {
        var synced := SyncPosition();
        if synced.Err? && synced.error != ControllerError {
          return Err(synced.error);
        }
      }
      var ret := SafeSend(StopCmd);
      r := Ok(());
    }

    method Jog(positive: bool, secs: Option<real>) returns (r: Result<()>)
      modifies this, stage
      ensures Outcome(State(), r) == JogStep(devMode, old(State()), positive, secs)
    {
      var ret := SafeSend(JogCmd(positive));
      if ret.Err? {
        return Ok(());
      }
      ret := SafeSend(GoCmd);
      if ret.Err? {
        return Ok(());
      }
      r := stage.SetDirty(true);
      if r.Err? {
        return;
      }
      if secs.Some? && secs.value >= 0.0 {
        // `time.sleep(secs)` is not modelled.
        r := Stop(false);
        r := Swallowed(r);
      } else if secs.Some? {
        r := Err(ValueError);
      }
    }

    method Move(pos: int) returns (r: Result<()>)
      modifies this, stage
      ensures Outcome(State(), r) == MoveStep(devMode, old(State()), pos)
    {
      r := stage.SetPosition(PInt(pos));
      if r.Err? {
        return;
      }
      var ret := SafeSend(AbsoluteMoveCmd(pos >= 0, Abs(pos)));
      if ret.Err? {
        return Ok(());
      }
      ret := SafeSend(GoCmd);
      r := Ok(());
    }

    method RelativeMove(delta: int) returns (r: Result<()>)
      modifies this, stage
      ensures Outcome(State(), r) == RelativeMoveStep(devMode, old(State()), delta)
    {
      var cur := stage.GetPosition();
      if cur.Err? {
        return Err(cur.error);
      }
      r := stage.SetPosition(PInt(cur.value + delta));
      if r.Err? {
        return;
      }
      var ret := SafeSend(RelativeMoveCmd(delta >= 0, Abs(delta)));
      if ret.Err? {
        return Ok(());
      }
      ret := SafeSend(GoCmd);
      r := Ok(());
    }

    method Sweep(positive: bool) returns (r: Result<int>)
      modifies this, stage
      ensures Outcome(State(), r) == SweepStep(devMode, old(State()), positive)
    {
      var j := Jog(positive, None);
      if j.Err? {
        return Err(j.error);
      }
      var w := WaitClear();
      if w.Err? {
        return Err(w.error);
      }
      r := GetPositionReadOut();
    }

    method FindRange() returns (r: Result<real>)
      modifies this, stage
      ensures Outcome(State(), r) == FindRangeStep(devMode, old(State()))
    {
      stage.pulseRange := 0.0;
      var origSpeed := stage.speed.jog;
      var s := SetSpeed(SpeedArgs(Some(PInt(4000)), None, None, None), false);
      if s.Err? {
        return Err(s.error);
      }
      var left := Sweep(true);
      if left.Err? {
        return Err(left.error);
      }
      var right := Sweep(false);
      if right.Err? {
        return Err(right.error);
      }
      r := FinishRange(left.value, right.value, origSpeed);
    }

    method FinishRange(left: int, right: int, origSpeed: int) returns (r: Result<real>)
      modifies this, stage
      ensures Outcome(State(), r) == RangeFromEnds(devMode, old(State()), left, right, origSpeed)
    {
      stage.pulseRange := if devMode then 100557.0 else Abs(left - right) as real;
      var u := stage.RecalculateUmPerPulse();
      if u.Err? {
        return Err(u.error);
      }
      var synced := SyncPosition();
      if synced.Err? && synced.error != ControllerError {
        return Err(synced.error);
      }
      r := ApplyRange(left, right, origSpeed);
    }

    method ApplyRange(left: int, right: int, origSpeed: int) returns (r: Result<real>)
      modifies this, stage
      ensures Outcome(State(), r) == RangeLimits(devMode, old(State()), left, right, origSpeed)
    {
      var u: Result<()>;
      if devMode {
        u := stage.SetLimits(50278.0, -50278.0);
      } else {
        u := stage.SetLimits((if left >= right then left else right) as real, (if left >= right then right else left) as real);
      }
      stage.ranged := true;
      u := SetSpeed(SpeedArgs(Some(PInt(origSpeed)), None, None, None), false);
      if u.Err? {
        return Err(u.error);
      }
      r := Ok(stage.pulseRange);
    }

    /** The constructor body from `waitClear` to `checkDirtiness`. */
    method Start() returns (r: Result<()>)
      modifies this, stage
      ensures Outcome(State(), r) == StartStep(devMode, old(State()))
    {
      var w := WaitClear();
      if w.Err? {
        return Err(w.error);
      }
      var pos := GetPositionReadOut();
      if pos.Err? {
        return Err(pos.error);
      }
      r := stage.SetPosition(PInt(pos.value));
      if r.Err? {
        return;
      }
      powered := false;
      r := SetPowered(true);
      if r.Err? {
        return;
      }
      r := SetSpeed(InitSpeed, false);
      if r.Err? {
        return;
      }
      var check := SafeSend(CheckCmd);
      if check.Err? {
        r := stage.SetPermDirty();
      }
    }
  }
}
