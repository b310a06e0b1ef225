/** The Tk key handlers (`key_press` / `key_release`) of every Tk script,
    as one transition on the shared state, parameterised by the variant's key
    map. Telemetry read inside a handler is an input: `None` is a read that
    raised. */
module Keyboard {
  import opened Types
  import opened FlightState

  /** A lower-cased Tk keysym: a single character, one of the arrow keys
      (`up`, `down`, `left`, `right`), or any other key name. */
  datatype Key = Ch(c: char) | ArrowUp | ArrowDown | ArrowLeft | ArrowRight | OtherKey

  const ExitKey := Ch('m')

  function TakeoffKey(v: Variant): Key { if v == ArrowKeys then Ch('r') else Ch('t') }
  function LandKey(v: Variant): Key { if v == ArrowKeys then Ch('f') else Ch('l') }
  /** The rise key is the one movement key guarded by the altitude ceiling. */
  function RiseKey(v: Variant): Key { if v == ArrowKeys then ArrowUp else Ch('r') }

  /** What a key does in a script's `key_press`. */
  datatype Role = ExitRole | TakeoffRole | LandRole | RiseRole
                | MoveRole(axis: Axis, sign: int) | FlipRole(dir: FlipDir) | NoRole

  /** The `key_press` dispatch of each script, in the order it tests the keys. */
  function RoleOf(v: Variant, key: Key): (r: Role)
    ensures r.MoveRole? ==> (r.sign == 1 || r.sign == -1) && ReleaseAxis(v, key) == Some(r.axis)
    ensures r == RiseRole ==> ReleaseAxis(v, key) == Some(UD)
    ensures r.FlipRole? ==> v == ArrowKeys
  {
    if v == ArrowKeys then ArrowRole(key) else LetterRole(key)
  }

  /** Practicas/1/main_with_arrows.py: r/f take off and land, the arrow keys
      climb and turn, and i/k/j/l flip. */
  function ArrowRole(key: Key): Role {
    match key
    case Ch(c) =>
      if c == 'm' then ExitRole
      else if c == 'r' then TakeoffRole
      else if c == 'f' then LandRole
      else if c == 'w' then MoveRole(FB, 1)
      else if c == 's' then MoveRole(FB, -1)
      else if c == 'a' then MoveRole(LR, -1)
      else if c == 'd' then MoveRole(LR, 1)
      else if c == 'i' then FlipRole(FlipForward)
      else if c == 'k' then FlipRole(FlipBack)
      else if c == 'j' then FlipRole(FlipLeft)
      else if c == 'l' then FlipRole(FlipRight)
      else NoRole
    case ArrowUp => RiseRole
    case ArrowDown => MoveRole(UD, -1)
    case ArrowRight => MoveRole(Yaw, 1)
    case ArrowLeft => MoveRole(Yaw, -1)
    case OtherKey => NoRole
  }

  /** Every other script: t/l take off and land, r/f climb and descend, e/q turn. */
  function LetterRole(key: Key): Role {
    match key
    case Ch(c) =>
      if c == 'm' then ExitRole
      else if c == 't' then TakeoffRole
      else if c == 'l' then LandRole
      else if c == 'w' then MoveRole(FB, 1)
      else if c == 's' then MoveRole(FB, -1)
      else if c == 'a' then MoveRole(LR, -1)
      else if c == 'd' then MoveRole(LR, 1)
      else if c == 'r' then RiseRole
      else if c == 'f' then MoveRole(UD, -1)
      else if c == 'e' then MoveRole(Yaw, 1)
      else if c == 'q' then MoveRole(Yaw, -1)
      else NoRole
    case _ => NoRole
  }

  /** The axis a key release zeroes: the pair of keys that share it. */
  function ReleaseAxis(v: Variant, key: Key): Option<Axis> {
    match key
    case Ch(c) =>
      if c == 'w' || c == 's' then Some(FB)
      else if c == 'a' || c == 'd' then Some(LR)
      else if v != ArrowKeys && (c == 'r' || c == 'f') then Some(UD)
      else if v != ArrowKeys && (c == 'e' || c == 'q') then Some(Yaw)
      else None
    case ArrowUp => if v == ArrowKeys then Some(UD) else None
    case ArrowDown => if v == ArrowKeys then Some(UD) else None
    case ArrowRight => if v == ArrowKeys then Some(Yaw) else None
    case ArrowLeft => if v == ArrowKeys then Some(Yaw) else None
    case OtherKey => None
  }

  /** Axes whose keys raise a `manual_*` override flag at module level. The
      follow tracker's w/s assign `manual_fb` without a `global` declaration,
      so that assignment binds a local and the forward axis is not listed. */
  predicate Manual(v: Variant, axis: Axis) {
    (v == FollowTracker && (axis == UD || axis == Yaw)) || (v == YawTracker && axis == Yaw)
  }

  function SetOverride(o: Overrides, axis: Axis, on: bool): (r: Overrides)
    ensures r.ud == (if axis == UD then on else o.ud)
    ensures r.yaw == (if axis == Yaw then on else o.yaw)
    ensures r.fb == (if axis == FB then on else o.fb)
  {
    match axis
    case UD => o.(ud := on)
    case Yaw => o.(yaw := on)
    case FB => o.(fb := on)
    case LR => o
  }

  /** Magnitude of a manual key: the speed dial, or a fixed 60 in Practicas/1. */
  function Magnitude(v: Variant, s: State): int {
    if v == BasicKeys || v == ArrowKeys then FixedSpeed else s.speed
  }

  /** Hold `axis` at `value`, raising its override flag where the script has one. */
  function Hold(v: Variant, s: State, axis: Axis, value: int): (r: State)
    ensures r.vel == SetAxis(s.vel, axis, value)
    ensures r.manual.ud == (s.manual.ud || (axis == UD && Manual(v, UD)))
    ensures r.manual.yaw == (s.manual.yaw || (axis == Yaw && Manual(v, Yaw)))
    ensures r.manual.fb == s.manual.fb
    ensures r.flying == s.flying && r.log == s.log
    ensures SameVision(s, r) && SameDial(s, r) && SameAlert(s, r)
  {
    s.(vel := SetAxis(s.vel, axis, value),
       manual := if Manual(v, axis) then SetOverride(s.manual, axis, true) else s.manual)
  }

  /** si.py wraps its reads in `try` and falls back to a default; elsewhere a
      failed read raises and ends the handler. */
  function Reading(v: Variant, read: Option<int>, fallback: int): Option<int> {
    if v == GestureControl then Some(read.GetOr(fallback)) else read
  }

  /** si.py marks a key as active and rereads the speed dial on every press. */
  function Touch(v: Variant, s: State, dial: int): (r: State)
    ensures r.speed == (if v == GestureControl then dial else s.speed)
    ensures r.keyActive == (v == GestureControl || s.keyActive)
    ensures r.vel == s.vel && r.manual == s.manual && r.flying == s.flying && r.log == s.log
    ensures r.exited == s.exited && SameVision(s, r) && SameAlert(s, r)
  {
    s.(keyActive := if v == GestureControl then true else s.keyActive,
       speed := if v == GestureControl then dial else s.speed)
  }

  function PressTakeoff(v: Variant, s: State, battery: Option<int>, now: real): (r: State)
    ensures var b := Reading(v, battery, 100);
      var up := !s.flying && b.Some? && b.value > TakeoffFloor;
      var refused := !s.flying && b.Some? && b.value <= TakeoffFloor;
      && r.flying == (s.flying || up)
      && r.log == (if up then s.log + [Takeoff] else s.log)
      && (if refused && RecordsWarnings(v) then r.warning == LowBatteryTakeoff && r.warningTime == now
          else SameAlert(s, r))
    ensures r.vel == s.vel && r.manual == s.manual
    ensures SameVision(s, r) && SameDial(s, r)
  {
    if s.flying then s
    else
      match Reading(v, battery, 100)
      case None => s
      case Some(b) =>
        if b <= TakeoffFloor then Warn(v, s, LowBatteryTakeoff, now)
        else s.(log := s.log + [Takeoff], flying := true)
  }

  function PressLand(s: State): (r: State)
    ensures !r.flying
    ensures r.log == if s.flying then s.log + [Rc(Zero), Land] else s.log
    ensures r.vel == s.vel && r.manual == s.manual
    ensures SameVision(s, r) && SameDial(s, r) && SameAlert(s, r)
  {
    if s.flying then s.(log := s.log + [Rc(Zero), Land], flying := false) else s
  }

  function PressRise(v: Variant, s: State, height: Option<int>, now: real): (r: State)
    ensures var h := Reading(v, height, 0);
      var climb := h.Some? && h.value < MaxHeightCm;
      var ceiling := h.Some? && h.value >= MaxHeightCm;
      && r.vel == (if climb then SetAxis(s.vel, UD, Magnitude(v, s))
                   else if ceiling then SetAxis(s.vel, UD, 0) else s.vel)
      && r.manual.ud == (s.manual.ud || (climb && Manual(v, UD)))
      && r.manual.yaw == s.manual.yaw && r.manual.fb == s.manual.fb
      && (if ceiling && RecordsWarnings(v) then r.warning == CeilingReached && r.warningTime == now
          else SameAlert(s, r))
    ensures r.flying == s.flying && r.log == s.log
    ensures SameVision(s, r) && SameDial(s, r)
  {
    match Reading(v, height, 0)
    case None => s
    case Some(h) =>
      if h < MaxHeightCm then Hold(v, s, UD, Magnitude(v, s))
      else Warn(v, s, CeilingReached, now).(vel := SetAxis(s.vel, UD, 0))
  }

  function PressFlip(s: State, d: FlipDir): (r: State)
    ensures r.log == if s.flying then s.log + [Flip(d)] else s.log
    ensures r.vel == s.vel && r.manual == s.manual && r.flying == s.flying
    ensures SameVision(s, r) && SameDial(s, r) && SameAlert(s, r)
  {
    if s.flying then s.(log := s.log + [Flip(d)]) else s
  }

  /** One `key_press` branch: what a key with role `role` does. */
  function Press(v: Variant, s0: State, role: Role, battery: Option<int>, height: Option<int>,
                 dial: int, now: real): (r: State)
    ensures !s0.flying && r.flying ==>
      role == TakeoffRole && Reading(v, battery, 100).Some? && Reading(v, battery, 100).value > TakeoffFloor
    ensures r.exited <==> s0.exited || role == ExitRole
    ensures r.speed == Touch(v, s0, dial).speed && r.keyActive == Touch(v, s0, dial).keyActive
    ensures SameVision(s0, r)
  {
    var s := Touch(v, s0, dial);
    match role
    case ExitRole => Exit(s)
    case TakeoffRole => PressTakeoff(v, s, battery, now)
    case LandRole => PressLand(s)
    case RiseRole => PressRise(v, s, height, now)
    case MoveRole(axis, sign) => Hold(v, s, axis, sign * Magnitude(v, s))
    case FlipRole(d) => PressFlip(s, d)
    case NoRole => s
  }

  /** `key_press`: a grounded drone takes off only on the takeoff key with
      more than 15 % battery, and only the exit key ends the program. */
  function KeyPress(v: Variant, s0: State, key: Key, battery: Option<int>, height: Option<int>,
                    dial: int, now: real): (r: State)
    ensures !s0.flying && r.flying ==>
      key == TakeoffKey(v) && Reading(v, battery, 100).Some? && Reading(v, battery, 100).value > TakeoffFloor
    ensures r.exited <==> s0.exited || key == ExitKey
  {
    Press(v, s0, RoleOf(v, key), battery, height, dial, now)
  }

  /** `key_release`. */
  function KeyRelease(v: Variant, s0: State, key: Key): (r: State)
    ensures r.flying == s0.flying && r.log == s0.log && r.exited == s0.exited
    ensures r.keyActive == (v != GestureControl && s0.keyActive)
    ensures ReleaseAxis(v, key).None? ==> r.vel == s0.vel && r.manual == s0.manual
    ensures ReleaseAxis(v, key).Some? ==>
      var axis := ReleaseAxis(v, key).value;
      && r.vel == SetAxis(s0.vel, axis, 0)
      && r.manual == if Manual(v, axis) then SetOverride(s0.manual, axis, false) else s0.manual
    ensures SameVision(s0, r) && SameAlert(s0, r) && r.speed == s0.speed
  {
    var s := s0.(keyActive := if v == GestureControl then false else s0.keyActive);
    match ReleaseAxis(v, key)
    case None => s
    case Some(axis) =>
      s.(vel := SetAxis(s.vel, axis, 0),
         manual := if Manual(v, axis) then SetOverride(s.manual, axis, false) else s.manual)
  }

  // ---------------------------------------------------------------------
  // Properties of the handlers
  // ---------------------------------------------------------------------

  /** The named keys of each script have the roles the handlers give them. */
  lemma KeyMap(v: Variant)
    ensures RoleOf(v, ExitKey) == ExitRole
    ensures RoleOf(v, TakeoffKey(v)) == TakeoffRole
    ensures RoleOf(v, LandKey(v)) == LandRole
    ensures RoleOf(v, RiseKey(v)) == RiseRole
    ensures v == ArrowKeys ==> RoleOf(v, Ch('l')) == FlipRole(FlipRight) && RoleOf(v, Ch('t')) == NoRole
    ensures v != ArrowKeys ==> RoleOf(v, ArrowUp) == NoRole && RoleOf(v, Ch('i')) == NoRole
  {
  }

  /** Takeoff interlock: grounded, the takeoff key takes off only above 15 %
      battery; at or below it the drone stays down and a warning is recorded. */
  lemma TakeoffInterlock(v: Variant, s: State, key: Key, battery: Option<int>, height: Option<int>, dial: int, now: real)
    requires RoleOf(v, key) == TakeoffRole && !s.flying
    ensures var r := KeyPress(v, s, key, battery, height, dial, now);
      var b := Reading(v, battery, 100);
      && r.vel == s.vel
      && (b.Some? && b.value > TakeoffFloor ==> r.flying && r.log == s.log + [Takeoff])
      && (b.Some? && b.value <= TakeoffFloor ==>
            !r.flying && r.log == s.log
            && (RecordsWarnings(v) ==> r.warning == LowBatteryTakeoff && r.warningTime == now))
      && (b.None? ==> r == Touch(v, s, dial))
  {
  }

  /** A failed battery read in si.py counts as a full battery. */
  lemma GestureBatteryFallback(s: State, height: Option<int>, dial: int, now: real)
    requires !s.flying
    ensures KeyPress(GestureControl, s, Ch('t'), None, height, dial, now).flying
  {
  }

  /** Takeoff while flying and landing while grounded do nothing. */
  lemma TriggersInTargetStateAreNoops(v: Variant, s: State, key: Key, battery: Option<int>, height: Option<int>, dial: int, now: real)
    ensures s.flying && RoleOf(v, key) == TakeoffRole ==>
      KeyPress(v, s, key, battery, height, dial, now) == Touch(v, s, dial)
    ensures !s.flying && RoleOf(v, key) == LandRole ==>
      KeyPress(v, s, key, battery, height, dial, now) == Touch(v, s, dial)
  {
  }

  /** The land key, airborne, sends a zero rc command, lands, and clears `flying`. */
  lemma LandKeyLands(v: Variant, s: State, key: Key, battery: Option<int>, height: Option<int>, dial: int, now: real)
    requires RoleOf(v, key) == LandRole && s.flying
    ensures var r := KeyPress(v, s, key, battery, height, dial, now);
      !r.flying && r.log == s.log + [Rc(Zero), Land] && r.vel == s.vel
  {
  }

  /** Ceiling interlock: the rise key climbs only below 300 cm; at or above it
      the vertical velocity is zeroed, a warning recorded, and no override
      flag raised. */
  lemma CeilingInterlock(v: Variant, s: State, key: Key, battery: Option<int>, height: Option<int>, dial: int, now: real)
    requires RoleOf(v, key) == RiseRole
    ensures var r := KeyPress(v, s, key, battery, height, dial, now);
      var h := Reading(v, height, 0);
      var t := Touch(v, s, dial);
      && r.flying == s.flying && r.log == s.log
      && (h.Some? && h.value < MaxHeightCm ==>
            r.vel == SetAxis(s.vel, UD, Magnitude(v, t)) && r.manual.ud == (s.manual.ud || v == FollowTracker))
      && (h.Some? && h.value >= MaxHeightCm ==>
            r.vel == SetAxis(s.vel, UD, 0) && r.manual == s.manual
            && (RecordsWarnings(v) ==> r.warning == CeilingReached && r.warningTime == now))
      && (h.None? ==> r == t)
  {
  }

  /** A movement key sets its own axis to plus or minus the magnitude and
      changes no other velocity, nor the flight state; releasing it zeroes
      that axis again. */
  lemma MoveKeySetsOwnAxis(v: Variant, s: State, key: Key, battery: Option<int>, height: Option<int>, dial: int, now: real)
    requires RoleOf(v, key).MoveRole?
    ensures var r := KeyPress(v, s, key, battery, height, dial, now);
      var m := RoleOf(v, key);
      && r.vel == SetAxis(s.vel, m.axis, m.sign * Magnitude(v, Touch(v, s, dial)))
      && r.flying == s.flying && r.log == s.log
      && KeyRelease(v, r, key).vel == SetAxis(s.vel, m.axis, 0)
  {
    var m := RoleOf(v, key);
    var r := KeyPress(v, s, key, battery, height, dial, now);
    assert SetAxis(r.vel, m.axis, 0) == SetAxis(s.vel, m.axis, 0);
  }

  /** Practicas/1 moves at a fixed 60 whatever the dial. */
  lemma FixedSixty(v: Variant, s: State, dial: int)
    requires v == BasicKeys || v == ArrowKeys
    ensures Magnitude(v, Touch(v, s, dial)) == 60
  {
  }

  /** Flips happen only in the air and change neither the velocities nor `flying`. */
  lemma FlipOnlyWhenFlying(v: Variant, s: State, key: Key, battery: Option<int>, height: Option<int>, dial: int, now: real)
    requires RoleOf(v, key).FlipRole?
    ensures var r := KeyPress(v, s, key, battery, height, dial, now);
      && r.vel == s.vel && r.flying == s.flying
      && r.log == if s.flying then s.log + [Flip(RoleOf(v, key).dir)] else s.log
  {
  }

  /** Holding e/q raises `manual_yaw` in both trackers, and releasing either
      key clears it again. */
  lemma YawOverrideFlag(v: Variant, s: State, key: Key, battery: Option<int>, height: Option<int>, dial: int, now: real)
    requires v == FollowTracker || v == YawTracker
    requires key == Ch('e') || key == Ch('q')
    ensures KeyPress(v, s, key, battery, height, dial, now).manual.yaw
    ensures !KeyRelease(v, s, key).manual.yaw
  {
  }

  /** In the follow tracker f raises `manual_ud`, r raises it only below the
      ceiling, and releasing either key clears it. */
  lemma UdOverrideFlag(s: State, key: Key, battery: Option<int>, height: Option<int>, dial: int, now: real)
    requires key == Ch('r') || key == Ch('f')
    ensures key == Ch('f') ==> KeyPress(FollowTracker, s, key, battery, height, dial, now).manual.ud
    ensures key == Ch('r') && height.Some? && height.value < MaxHeightCm ==>
      KeyPress(FollowTracker, s, key, battery, height, dial, now).manual.ud
    ensures !KeyRelease(FollowTracker, s, key).manual.ud
  {
  }

  /** The `manual_fb` flag never changes: the follow tracker's w/s keys do not
      suppress its area-based forward controller. */
  lemma PressNeverRaisesManualFb(v: Variant, s: State, key: Key, battery: Option<int>, height: Option<int>, dial: int, now: real)
    ensures KeyPress(v, s, key, battery, height, dial, now).manual.fb == s.manual.fb
  {
  }

  lemma ReleaseKeepsManualFb(v: Variant, s: State, key: Key)
    ensures KeyRelease(v, s, key).manual.fb == s.manual.fb
  {
  }

  /** Override flags are raised only where the script has them, and the
      Practicas/1 scripts never record a warning. */
  lemma PressRaisesOnlyOwnFlags(v: Variant, s: State, role: Role, battery: Option<int>, height: Option<int>, dial: int, now: real)
    ensures var r := Press(v, s, role, battery, height, dial, now);
      && (r.manual.ud ==> s.manual.ud || Manual(v, UD))
      && (r.manual.yaw ==> s.manual.yaw || Manual(v, Yaw))
      && (!RecordsWarnings(v) ==> SameAlert(s, r))
  {
  }

  /** Both handlers keep the reachable-state invariant. */
  lemma KeyPressKeepsInv(v: Variant, s: State, key: Key, battery: Option<int>, height: Option<int>, dial: int, now: real)
    requires Inv(v, s)
    ensures Inv(v, KeyPress(v, s, key, battery, height, dial, now))
  {
    PressNeverRaisesManualFb(v, s, key, battery, height, dial, now);
    PressRaisesOnlyOwnFlags(v, s, RoleOf(v, key), battery, height, dial, now);
  }

  lemma KeyReleaseKeepsInv(v: Variant, s: State, key: Key)
    requires Inv(v, s)
    ensures Inv(v, KeyRelease(v, s, key))
  {
  }

  /** Every key branch keeps the `flying` flag truthful. */
  lemma PressAgrees(v: Variant, s0: State, role: Role, battery: Option<int>, height: Option<int>,
                    dial: int, now: real)
    requires LogAgrees(s0)
    ensures LogAgrees(Press(v, s0, role, battery, height, dial, now))
  {
    var s := Touch(v, s0, dial);
    match role
    case ExitRole => SafetyAgrees(v, s, 100, now);
    case TakeoffRole => AppendCommand(s.log, Takeoff);
    case LandRole => if s.flying { StopAndLand(s.log); }
    case RiseRole =>
    case MoveRole(_, _) =>
    case FlipRole(d) => AppendCommand(s.log, Flip(d));
    case NoRole =>
  }

  lemma KeyHandlersAgree(v: Variant, s: State, key: Key, battery: Option<int>, height: Option<int>,
                         dial: int, now: real)
    requires LogAgrees(s)
    ensures LogAgrees(KeyPress(v, s, key, battery, height, dial, now))
    ensures LogAgrees(KeyRelease(v, s, key))
  {
    PressAgrees(v, s, RoleOf(v, key), battery, height, dial, now);
  }
}

