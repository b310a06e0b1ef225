/** One `update_frame` cycle of the gesture controller (Practicas/3/si.py):
    warning expiry, `process_gestures_and_commands` with its fist-hold
    toggle, the critical-battery rule and rc emission. */
module GestureControl {
  import opened Types
  import opened FlightState
  import opened Gestures

  /** Seconds a fist must be held before it toggles flight. */
  const HoldSeconds := 1.0

  predicate AnyFist(hands: seq<Hand>) {
    exists i :: 0 <= i < |hands| && IsFist(hands[i])
  }

  /** `any(is_fist(...) for hand in manos)`. */
  method HasFist(hands: seq<Hand>) returns (b: bool)
    ensures b == AnyFist(hands)
  {
    b := false;
    var i := 0;
    while i < |hands| && !b
      invariant 0 <= i <= |hands|
      invariant b == exists k :: 0 <= k < i && IsFist(hands[k])
    {
      b := IsFist(hands[i]);
      i := i + 1;
    }
  }

  /** The warning overlay: once the warning is older than three seconds it is
      cleared (only on cycles where the drone sent a frame). */
  function ExpireWarning(s: State, now: real): (r: State)
    ensures r.warning == NoWarning || (r.warning == s.warning && now - s.warningTime < WarningDuration)
    ensures s.warning != NoWarning && now - s.warningTime < WarningDuration ==> r.warning == s.warning
    ensures r.warningTime == s.warningTime && r.vel == s.vel && r.flying == s.flying && r.log == s.log
    ensures r.manual == s.manual && SameVision(s, r) && SameDial(s, r)
  {
    if s.warning != NoWarning && now - s.warningTime < WarningDuration then s
    else s.(warning := NoWarning)
  }

  /** The fist toggle: grounded it takes off above 15 % battery and records a
      warning otherwise; airborne it stops and lands. */
  function Toggle(s: State, battery: int, now: real): (r: State)
    ensures !s.flying && battery > TakeoffFloor ==> r.flying && r.log == s.log + [Takeoff] && SameAlert(s, r)
    ensures !s.flying && battery <= TakeoffFloor ==>
      !r.flying && r.log == s.log && r.warning == LowBatteryTakeoff && r.warningTime == now
    ensures s.flying ==> !r.flying && r.log == s.log + [Rc(Zero), Land] && SameAlert(s, r)
    ensures r.vel == s.vel && r.manual == s.manual && SameVision(s, r) && SameDial(s, r)
  {
    if !s.flying then
      if battery > TakeoffFloor then s.(log := s.log + [Takeoff], flying := true)
      else s.(warning := LowBatteryTakeoff, warningTime := now)
    else s.(log := s.log + [Rc(Zero), Land], flying := false)
  }

  /** The fist-hold timer fires on a fist cycle at least a second after the
      hold started, unless it already fired during this hold. */
  predicate Fires(s: State, now: real) {
    s.fistStart.Some? && now - s.fistStart.value >= HoldSeconds && !s.fistConfirmed
  }

  /** A cycle on which some detected hand is a fist. */
  function FistCycle(s: State, battery: int, now: real): (r: State)
    ensures s.fistStart.None? ==>
      r.fistStart == Some(now) && !r.fistConfirmed && r.flying == s.flying && r.log == s.log && SameAlert(s, r)
    ensures s.fistStart.Some? ==> r.fistStart == s.fistStart
    ensures Fires(s, now) ==>
      r.fistConfirmed && r.flying == Toggle(s, battery, now).flying && r.log == Toggle(s, battery, now).log
      && r.warning == Toggle(s, battery, now).warning && r.warningTime == Toggle(s, battery, now).warningTime
    ensures s.fistStart.Some? && !Fires(s, now) ==>
      r.fistConfirmed == s.fistConfirmed && r.flying == s.flying && r.log == s.log && SameAlert(s, r)
    ensures r.vel == s.vel && r.manual == s.manual && r.target == s.target && SameDial(s, r)
  {
    match s.fistStart
    case None => s.(fistStart := Some(now), fistConfirmed := false)
    case Some(start) =>
      if now - start >= HoldSeconds && !s.fistConfirmed then
        Toggle(s, battery, now).(fistConfirmed := true)
      else s
  }

  /** Apply a gesture move to the velocities. */
  function Steer(vel: Axes, m: Option<Move>): Axes {
    match m
    case None => vel
    case Some(mv) => SetAxis(vel, mv.axis, mv.value)
  }

  /** A cycle with hands but no fist: the timer is reset, the velocities are
      zeroed unless a key is held, and the first matching hand steers. */
  function SteerCycle(s: State, hands: seq<Hand>): (r: State)
    ensures r.fistStart.None? && !r.fistConfirmed
    ensures r.vel == Steer(if s.keyActive then s.vel else Zero, FirstMove(hands, s.speed))
    ensures r.flying == s.flying && r.log == s.log && r.manual == s.manual && r.target == s.target
    ensures SameAlert(s, r) && SameDial(s, r)
  {
    var base := if s.keyActive then s.vel else Zero;
    s.(fistStart := None, fistConfirmed := false, vel := Steer(base, FirstMove(hands, s.speed)))
  }

  /** `process_gestures_and_commands`: `None` is a camera read that failed. */
  function ProcessGestures(s: State, camera: Option<seq<Hand>>, dial: int, battery: int, now: real): (r: State)
    ensures camera.None? ==> r == s
    ensures camera.Some? ==> r.speed == dial
    ensures camera.Some? && |camera.value| == 0 ==>
      && r.vel == (if s.keyActive then s.vel else Zero)
      && r.fistStart == s.fistStart && r.fistConfirmed == s.fistConfirmed
      && r.flying == s.flying && r.log == s.log
    ensures camera.Some? && AnyFist(camera.value) ==> r.vel == s.vel
    ensures camera.Some? && |camera.value| > 0 && !AnyFist(camera.value) ==>
      r.fistStart.None? && !r.fistConfirmed && r.flying == s.flying && r.log == s.log
    ensures r.keyActive == s.keyActive && r.exited == s.exited && r.manual == s.manual && r.target == s.target
  {
    match camera
    case None => s
    case Some(hands) =>
      var s1 := s.(speed := dial);
      if |hands| == 0 then s1.(vel := if s1.keyActive then s1.vel else Zero)
      else if AnyFist(hands) then FistCycle(s1, battery, now)
      else SteerCycle(s1, hands)
  }

  /** Everything one `update_frame` cycle reads: whether the drone sent a
      frame, the hands the laptop camera saw (`None` when the read failed),
      the speed dial, the battery read by the fist toggle, the battery read by
      the safety rule (`None` when it raised) and the clock. */
  datatype Inputs = Inputs(droneFrame: bool, camera: Option<seq<Hand>>, dial: int,
                           toggleBattery: int, safetyBattery: Option<int>, now: real)

  /** `update_frame`. */
  function GestureCycle(s: State, i: Inputs): (r: State)
    ensures r.keyActive == s.keyActive && r.manual == s.manual && r.target == s.target
  {
    var s1 := if i.droneFrame then ExpireWarning(s, i.now) else s;
    var s2 := ProcessGestures(s1, i.camera, i.dial, i.toggleBattery, i.now);
    var s3 := ForcedLanding(GestureControl, s2, i.safetyBattery.GetOr(100), i.now);
    EmitRc(s3)
  }

  /** The log after the gesture step of a cycle, before the safety rule. */
  function ProcessedLog(s: State, i: Inputs): seq<Command> {
    var s1 := if i.droneFrame then ExpireWarning(s, i.now) else s;
    ProcessGestures(s1, i.camera, i.dial, i.toggleBattery, i.now).log
  }

  // ---------------------------------------------------------------------
  // Properties of one cycle
  // ---------------------------------------------------------------------

  /** The critical-battery rule: a drone airborne after the gesture step
      with at most 10 % battery (a failed read counts as 100) lands, records
      the warning, and sends no rc command in that cycle. */
  lemma CriticalBatteryLands(s: State, i: Inputs)
    requires var s1 := if i.droneFrame then ExpireWarning(s, i.now) else s;
      ProcessGestures(s1, i.camera, i.dial, i.toggleBattery, i.now).flying
    requires i.safetyBattery.Some? && i.safetyBattery.value <= LandingFloor
    ensures var r := GestureCycle(s, i);
      !r.flying && r.log == ProcessedLog(s, i) + [Land]
      && r.warning == CriticalBattery && r.warningTime == i.now
  {
  }

  /** Without a critical battery, the cycle ends with one rc command carrying
      exactly the current velocities when airborne, and none when grounded. */
  lemma RcCarriesVelocities(s: State, i: Inputs)
    requires i.safetyBattery.None? || i.safetyBattery.value > LandingFloor
    ensures var r := GestureCycle(s, i);
      var s1 := if i.droneFrame then ExpireWarning(s, i.now) else s;
      var s2 := ProcessGestures(s1, i.camera, i.dial, i.toggleBattery, i.now);
      && r.flying == s2.flying && r.vel == s2.vel
      && r.log == s2.log + (if s2.flying then [Rc(s2.vel)] else [])
  {
  }

  /** The first fist cycle of a hold only starts the timer. */
  lemma FirstFistCycleStartsTimer(s: State, hands: seq<Hand>, dial: int, battery: int, now: real)
    requires AnyFist(hands) && s.fistStart.None?
    ensures var r := ProcessGestures(s, Some(hands), dial, battery, now);
      r.fistStart == Some(now) && !r.fistConfirmed && r.flying == s.flying && r.log == s.log
      && r.vel == s.vel
  {
  }

  /** A fist toggle: grounded above 15 % takes off, at or below it stays down
      with a warning, airborne it lands; the hold is then confirmed. */
  lemma FistToggles(s: State, hands: seq<Hand>, dial: int, battery: int, now: real)
    requires AnyFist(hands) && Fires(s, now)
    ensures var r := ProcessGestures(s, Some(hands), dial, battery, now);
      && r.fistConfirmed && r.vel == s.vel
      && (!s.flying && battery > TakeoffFloor ==> r.flying && r.log == s.log + [Takeoff])
      && (!s.flying && battery <= TakeoffFloor ==>
            !r.flying && r.log == s.log && r.warning == LowBatteryTakeoff && r.warningTime == now)
      && (s.flying ==> !r.flying && r.log == s.log + [Rc(Zero), Land])
  {
  }

  /** Held for less than a second, or already confirmed, a fist changes
      nothing about flight. */
  lemma FistWithoutToggle(s: State, hands: seq<Hand>, dial: int, battery: int, now: real)
    requires AnyFist(hands) && s.fistStart.Some? && !Fires(s, now)
    ensures var r := ProcessGestures(s, Some(hands), dial, battery, now);
      r.flying == s.flying && r.log == s.log && r.vel == s.vel
      && r.fistStart == s.fistStart && r.fistConfirmed == s.fistConfirmed
  {
  }

  /** With no key held, a cycle with a non-fist hand leaves at most one axis
      non-zero, and that axis carries the first matching rule's value. */
  lemma AtMostOneAxis(s: State, hands: seq<Hand>, dial: int, battery: int, now: real)
    requires |hands| > 0 && !AnyFist(hands) && !s.keyActive
    ensures var r := ProcessGestures(s, Some(hands), dial, battery, now);
      && NonZeroAxes(r.vel) <= 1
      && (FirstMove(hands, dial).None? ==> r.vel == Zero)
      && (FirstMove(hands, dial).Some? ==>
            var m := FirstMove(hands, dial).value;
            Get(r.vel, m.axis) == m.value
            && forall a :: a != m.axis ==> Get(r.vel, a) == 0)
  {
    var r := ProcessGestures(s, Some(hands), dial, battery, now);
    match FirstMove(hands, dial)
    case None =>
    case Some(m) =>
      assert r.vel == SetAxis(Zero, m.axis, m.value);
      OneAxisOfZero(m.axis, m.value);
  }

  lemma OneAxisOfZero(axis: Axis, value: int)
    ensures NonZeroAxes(SetAxis(Zero, axis, value)) <= 1
  {
  }

  /** A held key keeps its velocities: the rule only overwrites its own axis. */
  lemma HeldKeySurvivesGesture(s: State, hands: seq<Hand>, dial: int, battery: int, now: real, a: Axis)
    requires |hands| > 0 && !AnyFist(hands) && s.keyActive
    requires FirstMove(hands, dial).None? || FirstMove(hands, dial).value.axis != a
    ensures Get(ProcessGestures(s, Some(hands), dial, battery, now).vel, a) == Get(s.vel, a)
  {
  }

  /** No-hand and failed-camera cycles leave the fist timer alone, and only
      the no-hand cycle stops the gesture velocities. */
  lemma NoHandKeepsTimer(s: State, dial: int, battery: int, now: real)
    ensures var r := ProcessGestures(s, Some([]), dial, battery, now);
      r.fistStart == s.fistStart && r.fistConfirmed == s.fistConfirmed
      && (!s.keyActive ==> r.vel == Zero)
    ensures ProcessGestures(s, None, dial, battery, now) == s
  {
  }

  /** The gesture cycle keeps the reachable-state invariant. */
  lemma GestureCycleKeepsInv(s: State, i: Inputs)
    requires Inv(GestureControl, s)
    ensures Inv(GestureControl, GestureCycle(s, i))
  {
    var s1 := if i.droneFrame then ExpireWarning(s, i.now) else s;
    var s2 := ProcessGestures(s1, i.camera, i.dial, i.toggleBattery, i.now);
    assert Inv(GestureControl, s2);
    SafetyKeepsInv(GestureControl, s2, i.safetyBattery.GetOr(100), i.now);
    SafetyKeepsInv(GestureControl, ForcedLanding(GestureControl, s2, i.safetyBattery.GetOr(100), i.now),
                   i.safetyBattery.GetOr(100), i.now);
  }

  /** The fist toggle and the whole cycle keep the `flying` flag truthful. */
  lemma GestureCycleAgrees(s: State, i: Inputs)
    requires LogAgrees(s)
    ensures LogAgrees(GestureCycle(s, i))
  {
    var s1 := if i.droneFrame then ExpireWarning(s, i.now) else s;
    GesturesAgree(s1, i.camera, i.dial, i.toggleBattery, i.now);
    var s2 := ProcessGestures(s1, i.camera, i.dial, i.toggleBattery, i.now);
    var b := i.safetyBattery.GetOr(100);
    SafetyAgrees(GestureControl, s2, b, i.now);
    SafetyAgrees(GestureControl, ForcedLanding(GestureControl, s2, b, i.now), b, i.now);
  }

  lemma GesturesAgree(s: State, camera: Option<seq<Hand>>, dial: int, battery: int, now: real)
    requires LogAgrees(s)
    ensures LogAgrees(ProcessGestures(s, camera, dial, battery, now))
  {
    if camera.Some? && AnyFist(camera.value) && Fires(s, now) {
      AppendCommand(s.log, Takeoff);
      if s.flying {
        StopAndLand(s.log);
      }
    }
  }

  // ---------------------------------------------------------------------
  // A hold across cycles
  // ---------------------------------------------------------------------

  /** A cycle that does not end a hold: the camera failed, saw no hand, or
      saw a fist. Only a detected non-fist hand resets the timer. */
  predicate KeepsHold(i: Inputs) {
    i.camera.None? || |i.camera.value| == 0 || AnyFist(i.camera.value)
  }

  /** Whether the cycle run on `s` with inputs `i` toggles flight. */
  predicate CycleFires(s: State, i: Inputs) {
    i.camera.Some? && AnyFist(i.camera.value) && Fires(s, i.now)
  }

  function Run(s: State, ins: seq<Inputs>): State
    decreases |ins|
  {
    if |ins| == 0 then s else Run(GestureCycle(s, ins[0]), ins[1..])
  }

  /** How many cycles of the run toggle flight. */
  function Toggles(s: State, ins: seq<Inputs>): nat
    decreases |ins|
  {
    if |ins| == 0 then 0
    else (if CycleFires(s, ins[0]) then 1 else 0) + Toggles(GestureCycle(s, ins[0]), ins[1..])
  }

  /** The fist fields after cycle `i` on a cycle that keeps the hold. */
  lemma HoldCycle(s: State, i: Inputs)
    requires KeepsHold(i) && (s.fistConfirmed ==> s.fistStart.Some?)
    ensures var r := GestureCycle(s, i);
      && (r.fistConfirmed ==> r.fistStart.Some?)
      && (s.fistStart.Some? ==> r.fistStart == s.fistStart)
      && (s.fistConfirmed ==> r.fistConfirmed)
      && (CycleFires(s, i) ==> r.fistConfirmed)
  {
    var s1 := if i.droneFrame then ExpireWarning(s, i.now) else s;
    var s2 := ProcessGestures(s1, i.camera, i.dial, i.toggleBattery, i.now);
    var s3 := ForcedLanding(GestureControl, s2, i.safetyBattery.GetOr(100), i.now);
    assert SameVision(s2, s3);
  }

  /** Once a hold has toggled, it toggles no more while it lasts. */
  lemma {:induction false} ConfirmedHoldIsQuiet(s: State, ins: seq<Inputs>)
    requires s.fistConfirmed && s.fistStart.Some?
    requires forall k :: 0 <= k < |ins| ==> KeepsHold(ins[k])
    ensures Toggles(s, ins) == 0
    decreases |ins|
  {
    if |ins| > 0 {
      HoldCycle(s, ins[0]);
      ConfirmedHoldIsQuiet(GestureCycle(s, ins[0]), ins[1..]);
    }
  }

  /** At most one toggle per continuous hold, however long it lasts and
      whatever no-hand or failed-camera cycles it contains. */
  lemma {:induction false} OneTogglePerHold(s: State, ins: seq<Inputs>)
    requires s.fistConfirmed ==> s.fistStart.Some?
    requires forall k :: 0 <= k < |ins| ==> KeepsHold(ins[k])
    ensures Toggles(s, ins) <= 1
    decreases |ins|
  {
    if |ins| > 0 {
      HoldCycle(s, ins[0]);
      var next := GestureCycle(s, ins[0]);
      if CycleFires(s, ins[0]) {
        ConfirmedHoldIsQuiet(next, ins[1..]);
      } else {
        OneTogglePerHold(next, ins[1..]);
      }
    }
  }

  /** A hold shorter than a second never toggles: every cycle's clock lies
      less than a second after `start`, the moment the timer started or, when
      it has not started yet, a moment no later than any cycle's clock. */
  lemma {:induction false} ShortHoldNeverToggles(s: State, ins: seq<Inputs>, start: real)
    requires s.fistStart == Some(start) || (s.fistStart.None? && forall k :: 0 <= k < |ins| ==> start <= ins[k].now)
    requires s.fistConfirmed ==> s.fistStart.Some?
    requires forall k :: 0 <= k < |ins| ==> KeepsHold(ins[k]) && ins[k].now - start < HoldSeconds
    ensures Toggles(s, ins) == 0
    decreases |ins|
  {
    if |ins| > 0 {
      HoldCycle(s, ins[0]);
      var next := GestureCycle(s, ins[0]);
      var rest := ins[1..];
      assert forall k :: 0 <= k < |rest| ==> rest[k] == ins[k + 1];
      if s.fistStart.None? {
        FreshHoldTimer(s, ins[0]);
        if next.fistStart.None? {
          ShortHoldNeverToggles(next, rest, start);
        } else {
          ShortHoldNeverToggles(next, rest, ins[0].now);
        }
      } else {
        assert !CycleFires(s, ins[0]);
        ShortHoldNeverToggles(next, rest, start);
      }
    }
  }

  /** From an unstarted timer, a cycle that keeps the hold either starts it
      at its own clock or leaves it unstarted, and never toggles. */
  lemma FreshHoldTimer(s: State, i: Inputs)
    requires s.fistStart.None? && KeepsHold(i)
    ensures GestureCycle(s, i).fistStart.None? || GestureCycle(s, i).fistStart == Some(i.now)
    ensures !CycleFires(s, i)
  {
    var s1 := if i.droneFrame then ExpireWarning(s, i.now) else s;
    var s2 := ProcessGestures(s1, i.camera, i.dial, i.toggleBattery, i.now);
    var s3 := ForcedLanding(GestureControl, s2, i.safetyBattery.GetOr(100), i.now);
    assert SameVision(s2, s3);
  }
}
