/** The per-cycle `update_frame` of the colour-tracking controllers and of the
    keyboard-only scripts: detection, the critical-battery rule, the
    autonomous axis controllers and rc emission. */
module Tracking {
  import opened Types
  import opened Detection
  import opened FlightState
  import opened AxisControl
  import opened Keyboard

  /** The velocities after the follow tracker's three controller blocks:
      each runs only while flying with a target and its axis not overridden
      (`manual_fb` is read too, but no handler ever sets the global). */
  function FollowSteer(s: State): (vel: Axes)
    ensures vel.lr == s.vel.lr
    ensures !s.flying || s.target.None? ==> vel == s.vel
  {
    var live := s.flying && s.target.Some?;
    Axes(s.vel.lr,
         if live && !s.manual.fb then FollowFb(s.target.value.area, s.speed) else s.vel.fb,
         if live && !s.manual.ud then FollowUd(s.target.value.cy, s.speed) else s.vel.ud,
         if live && !s.manual.yaw then FollowYaw(s.target.value.cx, s.speed) else s.vel.yaw)
  }

  /** `update_frame` of main_yaw_vertical_follow_tracker.py: read the speed
      dial, detect with the `Area Min` trackbar value, apply the battery rule
      of `draw_status`, run the controllers, send rc while flying. */
  function FollowCycle(s: State, cs: seq<Contour>, areaMin: int, dial: int, battery: int, now: real): (r: State)
    ensures r.speed == dial && r.target == LastAbove(cs, areaMin as real)
    ensures r.keyActive == s.keyActive && r.manual == s.manual && r.exited == s.exited
    ensures r.fistStart == s.fistStart && r.fistConfirmed == s.fistConfirmed
  {
    var s1 := ForcedLanding(FollowTracker, s.(speed := dial, target := LastAbove(cs, areaMin as real)), battery, now);
    EmitRc(s1.(vel := FollowSteer(s1)))
  }

  /** The yaw tracker's only controller: a fixed ±15 whatever the dial says. */
  function YawSteer(s: State): (vel: Axes)
    ensures vel.lr == s.vel.lr && vel.fb == s.vel.fb && vel.ud == s.vel.ud
    ensures !s.flying || s.target.None? || s.manual.yaw ==> vel == s.vel
  {
    if s.flying && s.target.Some? && !s.manual.yaw then s.vel.(yaw := TrackYaw(s.target.value.cx))
    else s.vel
  }

  /** `update_frame` of main_yaw_tracker.py, with the fixed 307.2 minimum area. */
  function YawCycle(s: State, cs: seq<Contour>, dial: int, battery: int, now: real): (r: State)
    ensures r.speed == dial && r.target == LastAbove(cs, AreaMin640)
    ensures r.keyActive == s.keyActive && r.manual == s.manual && r.exited == s.exited
    ensures r.fistStart == s.fistStart && r.fistConfirmed == s.fistConfirmed
  {
    var s1 := ForcedLanding(YawTracker, s.(speed := dial, target := LastAbove(cs, AreaMin640)), battery, now);
    EmitRc(s1.(vel := YawSteer(s1)))
  }

  /** `update_frame` of Practicas/2/main.py: detection only draws labels and
      keeps no target, so the cycle reads the dial, applies the battery rule
      and sends rc. */
  function LabelCycle(s: State, dial: int, battery: int, now: real): (r: State)
    ensures r.speed == dial && r.vel == s.vel
    ensures r.keyActive == s.keyActive && r.manual == s.manual && r.exited == s.exited && r.target == s.target
  {
    EmitRc(ForcedLanding(ColorLabels, s.(speed := dial), battery, now))
  }

  /** `update_frame` of the two Practicas/1 scripts: battery rule, then rc. */
  function BasicCycle(v: Variant, s: State, battery: int, now: real): (r: State)
    requires v == BasicKeys || v == ArrowKeys
    ensures r.vel == s.vel && r.speed == s.speed && r.warning == s.warning
    ensures r.keyActive == s.keyActive && r.manual == s.manual && r.exited == s.exited && r.target == s.target
  {
    EmitRc(ForcedLanding(v, s, battery, now))
  }

  // ---------------------------------------------------------------------
  // Follow tracker
  // ---------------------------------------------------------------------

  /** With a target in view, airborne and healthy, each free axis follows its
      bang-bang controller on the last large-enough contour; `lr` is never
      autonomous, and the cycle sends exactly the new velocities. */
  lemma FollowTracksLastContour(s: State, cs: seq<Contour>, areaMin: int, dial: int, battery: int, now: real)
    requires s.flying && battery > LandingFloor
    requires exists i :: 0 <= i < |cs| && cs[i].area > areaMin as real
    ensures var r := FollowCycle(s, cs, areaMin, dial, battery, now);
      exists i :: 0 <= i < |cs| && cs[i].area > areaMin as real
        && (forall j :: i < j < |cs| ==> cs[j].area <= areaMin as real)
        && r.vel.yaw == (if s.manual.yaw then s.vel.yaw else FollowYaw(Detection.CentreX(cs[i]), dial))
        && r.vel.ud == (if s.manual.ud then s.vel.ud else FollowUd(Detection.CentreY(cs[i]), dial))
        && r.vel.fb == (if s.manual.fb then s.vel.fb else FollowFb(cs[i].area, dial))
        && r.vel.lr == s.vel.lr && r.flying && r.log == s.log + [Rc(r.vel)]
  {
    LastAboveIsLast(cs, areaMin as real);
  }

  /** With no contour above the minimum, or while grounded, the controller
      blocks do not run and the velocities persist. */
  lemma FollowWithoutTargetKeepsVelocities(s: State, cs: seq<Contour>, areaMin: int, dial: int, battery: int, now: real)
    requires !s.flying || forall i :: 0 <= i < |cs| ==> cs[i].area <= areaMin as real
    ensures FollowCycle(s, cs, areaMin, dial, battery, now).vel == s.vel
  {
    LastAboveIsLast(cs, areaMin as real);
  }

  /** The critical-battery landing runs before the controllers: no
      autonomous update and no rc command follow it in that cycle. */
  lemma FollowCriticalBattery(s: State, cs: seq<Contour>, areaMin: int, dial: int, battery: int, now: real)
    requires s.flying && battery <= LandingFloor
    ensures var r := FollowCycle(s, cs, areaMin, dial, battery, now);
      !r.flying && r.vel == s.vel && r.log == s.log + [Land]
      && r.warning == CriticalBattery && r.warningTime == now
  {
  }

  /** A raised override keeps its axis out of the controller's hands. */
  lemma FollowOverridesHold(s: State, cs: seq<Contour>, areaMin: int, dial: int, battery: int, now: real)
    ensures var r := FollowCycle(s, cs, areaMin, dial, battery, now);
      (s.manual.yaw ==> r.vel.yaw == s.vel.yaw) && (s.manual.ud ==> r.vel.ud == s.vel.ud)
  {
  }

  /** The `manual_fb` bug: in any reachable state, a held `w` or `s` does not
      keep the area controller off `fb`; the next cycle with a target
      overwrites the key's velocity. */
  lemma ManualFbNeverSuppresses(s: State, key: Key, height: Option<int>, battery: Option<int>, press: real,
                                cs: seq<Contour>, areaMin: int, dial: int, level: int, now: real)
    requires Inv(FollowTracker, s) && s.flying && level > LandingFloor
    requires key == Ch('w') || key == Ch('s')
    requires exists i :: 0 <= i < |cs| && cs[i].area > areaMin as real
    ensures var pressed := KeyPress(FollowTracker, s, key, battery, height, dial, press);
      var r := FollowCycle(pressed, cs, areaMin, dial, level, now);
      r.target.Some? && r.vel.fb == FollowFb(r.target.value.area, dial)
  {
    var pressed := KeyPress(FollowTracker, s, key, battery, height, dial, press);
    KeyPressKeepsInv(FollowTracker, s, key, battery, height, dial, press);
    assert pressed.flying;
    LastAboveIsLast(cs, areaMin as real);
  }

  // ---------------------------------------------------------------------
  // Yaw tracker
  // ---------------------------------------------------------------------

  /** The yaw tracker turns at a fixed rate picked by the last large-enough
      contour's centre, independent of the dial, and leaves the other axes. */
  lemma YawTracksLastContour(s: State, cs: seq<Contour>, dial: int, battery: int, now: real)
    requires s.flying && battery > LandingFloor && !s.manual.yaw
    requires exists i :: 0 <= i < |cs| && cs[i].area > AreaMin640
    ensures var r := YawCycle(s, cs, dial, battery, now);
      exists i :: 0 <= i < |cs| && cs[i].area > AreaMin640
        && (forall j :: i < j < |cs| ==> cs[j].area <= AreaMin640)
        && r.vel == s.vel.(yaw := TrackYaw(Detection.CentreX(cs[i])))
        && (r.vel.yaw == -15 || r.vel.yaw == 0 || r.vel.yaw == 15)
        && r.log == s.log + [Rc(r.vel)]
  {
    LastAboveIsLast(cs, AreaMin640);
  }

  /** No target, an override, or a grounded drone: yaw keeps its value. */
  lemma YawHeldWithoutControl(s: State, cs: seq<Contour>, dial: int, battery: int, now: real)
    requires !s.flying || s.manual.yaw || forall i :: 0 <= i < |cs| ==> cs[i].area <= AreaMin640
    ensures YawCycle(s, cs, dial, battery, now).vel == s.vel
  {
    LastAboveIsLast(cs, AreaMin640);
  }

  lemma YawCriticalBattery(s: State, cs: seq<Contour>, dial: int, battery: int, now: real)
    requires s.flying && battery <= LandingFloor
    ensures var r := YawCycle(s, cs, dial, battery, now);
      !r.flying && r.vel == s.vel && r.log == s.log + [Land]
      && r.warning == CriticalBattery && r.warningTime == now
  {
  }

  // ---------------------------------------------------------------------
  // Keyboard-only cycles
  // ---------------------------------------------------------------------

  /** Practicas/2/main.py and the Practicas/1 scripts: the cycle sends the
      current velocities while flying, after the battery rule has had its
      chance to land, and never changes a velocity. */
  lemma KeyboardCyclesOnlyEmit(v: Variant, s: State, dial: int, battery: int, now: real)
    requires v == ColorLabels || v == BasicKeys || v == ArrowKeys
    ensures var r := if v == ColorLabels then LabelCycle(s, dial, battery, now) else BasicCycle(v, s, battery, now);
      && r.vel == s.vel
      && (s.flying && battery <= LandingFloor ==> !r.flying && r.log == s.log + [Land])
      && (!(s.flying && battery <= LandingFloor) ==>
            r.flying == s.flying && r.log == s.log + (if s.flying then [Rc(s.vel)] else []))
  {
  }

  /** The Practicas/1 scripts only print the warning: after a forced landing
      the recorded warning is untouched. */
  lemma BasicCycleDoesNotRecord(v: Variant, s: State, battery: int, now: real)
    requires v == BasicKeys || v == ArrowKeys
    requires s.flying && battery <= LandingFloor
    ensures var r := BasicCycle(v, s, battery, now);
      !r.flying && r.log == s.log + [Land] && r.warning == s.warning && r.warningTime == s.warningTime
  {
  }

  /** Every cycle keeps the reachable-state invariant of its script. */
  lemma CyclesKeepInv(s: State, cs: seq<Contour>, areaMin: int, dial: int, battery: int, now: real)
    ensures Inv(FollowTracker, s) ==> Inv(FollowTracker, FollowCycle(s, cs, areaMin, dial, battery, now))
    ensures Inv(YawTracker, s) ==> Inv(YawTracker, YawCycle(s, cs, dial, battery, now))
    ensures Inv(ColorLabels, s) ==> Inv(ColorLabels, LabelCycle(s, dial, battery, now))
    ensures Inv(BasicKeys, s) ==> Inv(BasicKeys, BasicCycle(BasicKeys, s, battery, now))
    ensures Inv(ArrowKeys, s) ==> Inv(ArrowKeys, BasicCycle(ArrowKeys, s, battery, now))
  {
  }

  /** Every tracker and keyboard-only cycle keeps the `flying` flag truthful. */
  lemma FollowCycleAgrees(s: State, cs: seq<Contour>, areaMin: int, dial: int, battery: int, now: real)
    requires LogAgrees(s)
    ensures LogAgrees(FollowCycle(s, cs, areaMin, dial, battery, now))
  {
    var d := s.(speed := dial, target := LastAbove(cs, areaMin as real));
    var f := ForcedLanding(FollowTracker, d, battery, now);
    SafetyAgrees(FollowTracker, d, battery, now);
    SafetyAgrees(FollowTracker, f.(vel := FollowSteer(f)), battery, now);
  }

  lemma YawCycleAgrees(s: State, cs: seq<Contour>, dial: int, battery: int, now: real)
    requires LogAgrees(s)
    ensures LogAgrees(YawCycle(s, cs, dial, battery, now))
  {
    var d := s.(speed := dial, target := LastAbove(cs, AreaMin640));
    var y := ForcedLanding(YawTracker, d, battery, now);
    SafetyAgrees(YawTracker, d, battery, now);
    SafetyAgrees(YawTracker, y.(vel := YawSteer(y)), battery, now);
  }

  lemma KeyboardCyclesAgree(v: Variant, s: State, dial: int, battery: int, now: real)
    requires LogAgrees(s)
    ensures LogAgrees(LabelCycle(s, dial, battery, now))
    ensures v == BasicKeys || v == ArrowKeys ==> LogAgrees(BasicCycle(v, s, battery, now))
  {
    SafetyAgrees(ColorLabels, s.(speed := dial), battery, now);
    SafetyAgrees(ColorLabels, ForcedLanding(ColorLabels, s.(speed := dial), battery, now), battery, now);
    SafetyAgrees(v, s, battery, now);
    SafetyAgrees(v, ForcedLanding(v, s, battery, now), battery, now);
  }
}
