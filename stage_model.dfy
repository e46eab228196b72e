/**
 * The stage bookkeeping object (src/stage/_stage.py): position bounds, the
 * dirty and permanently-dirty flags, limits, and the stage constants of
 * `GSC01_Stage` and `SGSP26_200`.
 *
 * Every operation is first a function from one `StageState` to the next (or
 * to the error it raises, the state then unchanged); the `Stage` class
 * performs it on its fields.
 */
module StageModel {
  import opened Errors
  import opened Helpers

  /** `GSC01_Stage` itself, or its subclass `SGSP26_200`. */
  datatype StageKind = Gsc01Generic | Sgsp26_200

  datatype Speeds = Speeds(jog: int, min: int, max: int)

  datatype StageState = StageState(
    kind: StageKind,
    lower: real,            // LIMIT_LOWER
    upper: real,            // LIMIT_UPPER
    position: int,          // _position
    dirty: bool,            // _dirty
    permDirty: bool,        // _permDirty
    ranged: bool,
    pulseRange: real,
    travel: int,            // mm
    umPerPulse: Option<real>,
    speed: Speeds,
    acdcTime: int)

  /** The GSC-01 coordinate range, 24 bits either side of 0. */
  const GscLimit: real := 16777215.0

  /** Once permanently dirty, the stage is dirty. */
  ghost predicate Coherent(s: StageState)
  {
    s.permDirty ==> s.dirty
  }

  /** A freshly built stage at a position the position setter accepted. */
  function InitialStage(kind: StageKind, pos: int): (s: StageState)
    ensures Coherent(s) && !s.dirty && !s.ranged && s.position == pos
    ensures s.lower == -GscLimit && s.upper == GscLimit
    ensures s.speed == Speeds(0, 0, 0) && s.acdcTime == 0
    ensures kind == Gsc01Generic ==> s.pulseRange == 1.0 && s.travel == 1 && s.umPerPulse == None
    ensures kind == Sgsp26_200 ==> s.pulseRange == 100557.0 && s.travel == 200 && s.umPerPulse == Some(200000.0 / 100557.0)
  {
    var base := StageState(kind, -GscLimit, GscLimit, pos, false, false, false, 1.0, 1, None, Speeds(0, 0, 0), 0);
    if kind == Gsc01Generic then base
    else base.(travel := 200, pulseRange := 100557.0, umPerPulse := Some(200000.0 / 100557.0))
  }

  /** The position setter: `ensureInt`, then `LIMIT_LOWER <= x <= LIMIT_UPPER`. */
  function PositionSet(s: StageState, x: PyValue): (r: Result<StageState>)
    ensures r.Ok? <==> IsIntegral(x) && s.lower <= IntegralValue(x) as real <= s.upper
    ensures r.Ok? ==> r.value == s.(position := IntegralValue(x))
    ensures r.Err? && IsIntegral(x) ==> r.error == PositionOutOfBoundsError
    ensures r.Err? && !IsIntegral(x) ==> r.error == EnsureInt(x).error
  {
    var v := EnsureInt(x);
    if v.Err? then Err(v.error)
    else if s.lower <= v.value as real <= s.upper then Ok(s.(position := v.value))
    else Err(PositionOutOfBoundsError)
  }

  /** `GSC01_Stage(pos)`: the position goes through the setter against the class limits. */
  function NewStage(kind: StageKind, pos: PyValue): (r: Result<StageState>)
    ensures r.Ok? <==> IsIntegral(pos) && -GscLimit <= IntegralValue(pos) as real <= GscLimit
    ensures r.Ok? ==> r.value == InitialStage(kind, IntegralValue(pos))
  {
    var s := PositionSet(InitialStage(kind, 0), pos);
    if s.Err? then Err(s.error) else Ok(InitialStage(kind, s.value.position))
  }

  /** The position getter refuses a dirty position. */
  function PositionGet(s: StageState): (r: Result<int>)
    ensures r.Ok? <==> !s.dirty
    ensures r.Ok? ==> r.value == s.position
    ensures r.Err? ==> r.error == PositionDirtyError
  {
    if s.dirty then Err(PositionDirtyError) else Ok(s.position)
  }

  /** The `dirty` setter: free while not permanently dirty; then `True` raises and `False` does nothing. */
  function DirtySet(s: StageState, v: bool): (r: Result<StageState>)
    ensures !s.permDirty ==> r == Ok(s.(dirty := v))
    ensures s.permDirty && v ==> r == Err(PositionDirtyError)
    ensures s.permDirty && !v ==> r == Ok(s)
  {
    if !s.permDirty then Ok(s.(dirty := v))
    else if v then Err(PositionDirtyError)
    else Ok(s)
  }

  /** The `permDirty` setter ignores its argument: it sets `dirty`, then `permDirty`. */
  function PermDirtySet(s: StageState): (r: Result<StageState>)
    ensures !s.permDirty ==> r == Ok(s.(dirty := true, permDirty := true))
    ensures s.permDirty ==> r == Err(PositionDirtyError)
  {
    var d := DirtySet(s, true);
    if d.Err? then Err(d.error) else Ok(d.value.(permDirty := true))
  }

  /** Every flag transition keeps a permanently dirty stage dirty. */
  lemma FlagsStayCoherent(s: StageState, v: bool, x: PyValue)
    requires Coherent(s)
    ensures DirtySet(s, v).Ok? ==> Coherent(DirtySet(s, v).value)
    ensures PermDirtySet(s).Ok? ==> Coherent(PermDirtySet(s).value) && PermDirtySet(s).value.permDirty
    ensures PositionSet(s, x).Ok? ==> Coherent(PositionSet(s, x).value)
  {
  }

  /** Only homing clears `permDirty`: no setter can make such a stage clean. */
  lemma PermDirtySticky(s: StageState, v: bool)
    requires s.permDirty
    ensures DirtySet(s, v).Ok? ==> DirtySet(s, v).value.permDirty && DirtySet(s, v).value.dirty == s.dirty
    ensures PermDirtySet(s).Err?
  {
  }

  /** A position stored while clean reads back unchanged. */
  lemma PositionRoundTrip(s: StageState, v: int)
    requires !s.dirty && s.lower <= v as real <= s.upper
    ensures PositionSet(s, PInt(v)).Ok?
    ensures PositionGet(PositionSet(s, PInt(v)).value) == Ok(v)
  {
  }

  /** `setLimits` as written: it assigns `LIMIT_upper`, a new attribute, so `LIMIT_UPPER` never changes. */
  function LimitsSetAsWritten(s: StageState, upper: real, lower: real): (r: Result<StageState>)
  {
    if upper < lower then Err(ValueError) else Ok(s.(lower := lower))
  }

  /** `setLimits` as intended: both limits, `ValueError` when they are inverted. */
  function LimitsSet(s: StageState, upper: real, lower: real): (r: Result<StageState>)
    ensures r.Err? <==> upper < lower
    ensures r.Err? ==> r.error == ValueError
    ensures r.Ok? ==> r.value == s.(lower := lower, upper := upper)
    ensures r.Ok? ==> r.value.lower <= r.value.upper
  {
    if upper < lower then Err(ValueError) else Ok(s.(lower := lower, upper := upper))
  }

  /** Re-zeroing an SGSP26-200 (limits 0..100557 after a range search) at position 100: as written the upper limit stays. */
  lemma SetLimitsIgnoresUpper(s: StageState)
    requires s.lower == 0.0 && s.upper == 100557.0
    ensures LimitsSetAsWritten(s, s.upper - 100.0, s.lower - 100.0) == Ok(s.(lower := -100.0))
    ensures LimitsSet(s, s.upper - 100.0, s.lower - 100.0) == Ok(s.(lower := -100.0, upper := 100457.0))
  {
  }

  /** `recalculateUmPerPulse`: travel in micrometres over the pulse range. */
  function UmPerPulseRecalculated(s: StageState): (r: Result<StageState>)
    ensures r.Err? <==> s.pulseRange == 0.0
    ensures r.Err? ==> r.error == ZeroDivisionError
    ensures r.Ok? ==> r.value == s.(umPerPulse := r.value.umPerPulse)
    ensures r.Ok? ==> r.value.umPerPulse.Some? && r.value.umPerPulse.value * s.pulseRange == (s.travel * 1000) as real
  {
    if s.pulseRange == 0.0 then Err(ZeroDivisionError)
    else Ok(s.(umPerPulse := Some((s.travel * 1000) as real / s.pulseRange)))
  }

  /** An SGSP26-200 moves just under 2 micrometres per pulse. */
  lemma Sgsp26UmPerPulse(pos: int)
    ensures var u := InitialStage(Sgsp26_200, pos).umPerPulse.value; 1.988 < u < 1.989
  {
  }

  /** `resetStage`: the full GSC-01 range, or for SGSP26-200 a range symmetric about 0. */
  function StageReset(s: StageState): (r: Result<StageState>)
    ensures s.kind == Gsc01Generic ==> r == LimitsSet(s, GscLimit, -GscLimit)
    ensures s.kind == Sgsp26_200 ==> r == LimitsSet(s, (s.pulseRange - 1.0) / 2.0, -((s.pulseRange - 1.0) / 2.0))
  {
    if s.kind == Gsc01Generic then LimitsSet(s, GscLimit, -GscLimit)
    else
      var upper := (s.pulseRange - 1.0) / 2.0;
      LimitsSet(s, upper, -upper)
  }

  /** The SGSP26-200 reset is symmetric, and ±50278 for its nominal 100557 pulses. */
  lemma Sgsp26ResetSymmetric(s: StageState)
    requires s.kind == Sgsp26_200 && 1.0 <= s.pulseRange
    ensures StageReset(s).Ok?
    ensures StageReset(s).value.lower == -StageReset(s).value.upper
    ensures s.pulseRange == 100557.0 ==> StageReset(s).value.upper == 50278.0
  {
  }

  class Stage {
    var kind: StageKind
    var lower: real
    var upper: real
    var position: int
    var dirty: bool
    var permDirty: bool
    var ranged: bool
    var pulseRange: real
    var travel: int
    var umPerPulse: Option<real>
    var speed: Speeds
    var acdcTime: int

    function State(): StageState
      reads this
    {
      StageState(kind, lower, upper, position, dirty, permDirty, ranged, pulseRange, travel, umPerPulse, speed, acdcTime)
    }

    method Assign(s: StageState)
      modifies this
      ensures State() == s
    {
      kind, lower, upper, position := s.kind, s.lower, s.upper, s.position;
      dirty, permDirty, ranged := s.dirty, s.permDirty, s.ranged;
      pulseRange, travel, umPerPulse := s.pulseRange, s.travel, s.umPerPulse;
      speed, acdcTime := s.speed, s.acdcTime;
    }

    /** `GSC01_Stage(pos)` or `SGSP26_200(pos)` with an accepted position. */
    constructor (kind: StageKind, pos: int)
      requires -GscLimit <= pos as real <= GscLimit
      ensures State() == InitialStage(kind, pos)
    {
      this.kind := kind;
      lower, upper := -GscLimit, GscLimit;
      position := pos;
      dirty, permDirty, ranged := false, false, false;
      pulseRange, travel, umPerPulse := 1.0, 1, None;
      speed, acdcTime := Speeds(0, 0, 0), 0;
      if kind == Sgsp26_200 {
        travel := 200;
        pulseRange := 100557.0;
        // `recalculateUmPerPulse()`
        umPerPulse := Some((200 * 1000) as real / 100557.0);
      }
    }

    /** The position setter. */
    method SetPosition(x: PyValue) returns (r: Result<()>)
      modifies this
      ensures var n := PositionSet(old(State()), x);
              (n.Ok? ==> r == Ok(()) && State() == n.value) && (n.Err? ==> r == Err(n.error) && State() == old(State()))
    {
      var v := EnsureInt(x);
      if v.Err? {
        return Err(v.error);
      }
      if !(lower <= v.value as real <= upper) {
        return Err(PositionOutOfBoundsError);
      }
      position := v.value;
      r := Ok(());
    }

    /** The position getter. */
    method GetPosition() returns (r: Result<int>)
      ensures r == PositionGet(State())
    {
      if !dirty {
        return Ok(position);
      }
      r := Err(PositionDirtyError);
    }

    /** The `dirty` setter. */
    method SetDirty(v: bool) returns (r: Result<()>)
      modifies this
      ensures var n := DirtySet(old(State()), v);
              (n.Ok? ==> r == Ok(()) && State() == n.value) && (n.Err? ==> r == Err(n.error) && State() == old(State()))
    {
      if !permDirty {
        dirty := v;
      } else if v {
        return Err(PositionDirtyError);
      }
      r := Ok(());
    }

    /** The `permDirty` setter. */
    method SetPermDirty() returns (r: Result<()>)
      modifies this
      ensures var n := PermDirtySet(old(State()));
              (n.Ok? ==> r == Ok(()) && State() == n.value) && (n.Err? ==> r == Err(n.error) && State() == old(State()))
    {
      r := SetDirty(true);
      if r.Err? {
        return;
      }
      permDirty := true;
    }

    /** `setLimits`, with `LIMIT_UPPER` assigned as intended. */
    method SetLimits(upper': real, lower': real) returns (r: Result<()>)
      modifies this
      ensures var n := LimitsSet(old(State()), upper', lower');
              (n.Ok? ==> r == Ok(()) && State() == n.value) && (n.Err? ==> r == Err(n.error) && State() == old(State()))
    {
      if upper' < lower' {
        return Err(ValueError);
      }
      lower := lower';
      upper := upper';
      r := Ok(());
    }

    /** `recalculateUmPerPulse`. */
    method RecalculateUmPerPulse() returns (r: Result<()>)
      modifies this
      ensures var n := UmPerPulseRecalculated(old(State()));
              (n.Ok? ==> r == Ok(()) && State() == n.value) && (n.Err? ==> r == Err(n.error) && State() == old(State()))
    {
      if pulseRange == 0.0 {
        return Err(ZeroDivisionError);
      }
      umPerPulse := Some((travel * 1000) as real / pulseRange);
      r := Ok(());
    }

    /** `resetStage`. */
    method ResetStage() returns (r: Result<()>)
      modifies this
      ensures var n := StageReset(old(State()));
              (n.Ok? ==> r == Ok(()) && State() == n.value) && (n.Err? ==> r == Err(n.error) && State() == old(State()))
    {
      if kind == Gsc01Generic {
        r := SetLimits(GscLimit, -GscLimit);
      } else {
        var u := (pulseRange - 1.0) / 2.0;
        r := SetLimits(u, -u);
      }
    }
  }
}
