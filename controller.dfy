/** The module globals of a Tk controller script as the fields of one object,
    and the event handlers and per-frame callback as methods that update them
    in place, each proved to agree with the value-level model. */
module Controller {
  import opened Types
  import opened DeadZone
  import opened Detection
  import opened FlightState
  import opened AxisControl
  import opened Gestures
  import opened Keyboard
  import opened GestureControl
  import opened Tracking

  class Controller {
    /** Which script this controller runs. */
    const variant: Variant

    var vel: Axes
    var flying: bool
    var speed: int
    var warning: Warning
    var warningTime: real
    var keyActive: bool
    var manual: Overrides
    var fistStart: Option<real>
    var fistConfirmed: bool
    var target: Option<Target>
    var exited: bool
    /** Every command sent to the drone, oldest first. */
    var log: seq<Command>

    /** The globals as one value. */
    function Snap(): State
      reads this
    {
      State(vel, flying, speed, warning, warningTime, keyActive, manual,
            fistStart, fistConfirmed, target, exited, log)
    }

    /** The globals are among those the script can reach, and `flying`
        agrees with the commands sent. */
    predicate Valid()
      reads this
    {
      Inv(variant, Snap()) && LogAgrees(Snap())
    }

    /** The module-level initialisation. */
    constructor (v: Variant)
      ensures variant == v && Snap() == Initial(v) && Valid()
    {
      variant := v;
      vel := Zero;
      flying := false;
      speed := InitialSpeed(v);
      warning := NoWarning;
      warningTime := 0.0;
      keyActive := false;
      manual := NoOverrides;
      fistStart := None;
      fistConfirmed := false;
      target := None;
      exited := false;
      log := [];
      InitialInv(v);
      assert LogAgrees(Initial(v));
    }

    // -------------------------------------------------------------------
    // Key handlers
    // -------------------------------------------------------------------

    /** Hold an axis at `value`, raising its override flag where the script
        keeps one. */
    method HoldAxis(axis: Axis, value: int)
      modifies this
      ensures Snap() == Hold(variant, old(Snap()), axis, value)
    {
      vel := SetAxis(vel, axis, value);
      if Manual(variant, axis) {
        manual := SetOverride(manual, axis, true);
      }
    }

    method TryTakeoff(battery: Option<int>, now: real)
      modifies this
      ensures Snap() == PressTakeoff(variant, old(Snap()), battery, now)
    {
      if !flying {
        var b := Reading(variant, battery, 100);
        if b.Some? {
          if b.value <= TakeoffFloor {
            if RecordsWarnings(variant) {
              warning := LowBatteryTakeoff;
              warningTime := now;
            }
          } else {
            log := log + [Takeoff];
            flying := true;
          }
        }
      }
    }

    method TryRise(height: Option<int>, now: real)
      modifies this
      ensures Snap() == PressRise(variant, old(Snap()), height, now)
    {
      var h := Reading(variant, height, 0);
      if h.Some? {
        if h.value < MaxHeightCm {
          HoldAxis(UD, Magnitude(variant, Snap()));
        } else {
          if RecordsWarnings(variant) {
            warning := CeilingReached;
            warningTime := now;
          }
          vel := SetAxis(vel, UD, 0);
        }
      }
    }

    /** Stop, land, and end the program. */
    method Shutdown()
      modifies this
      ensures Snap() == Exit(old(Snap()))
    {
      if flying {
        log := log + [Rc(Zero), Land];
        flying := false;
      }
      exited := true;
    }

    method LandNow()
      modifies this
      ensures Snap() == PressLand(old(Snap()))
    {
      if flying {
        log := log + [Rc(Zero), Land];
        flying := false;
      }
    }

    method FlipNow(d: FlipDir)
      modifies this
      ensures Snap() == PressFlip(old(Snap()), d)
    {
      if flying {
        log := log + [Flip(d)];
      }
    }

    /** The branch of `key_press` for a key with role `role`. */
    method Act(role: Role, battery: Option<int>, height: Option<int>, dial: int, now: real)
      modifies this
      ensures Snap() == Press(variant, old(Snap()), role, battery, height, dial, now)
    {
      if variant == GestureControl {
        keyActive := true;
        speed := dial;
      }
      assert Snap() == Touch(variant, old(Snap()), dial);
      match role
      case ExitRole => Shutdown();
      case TakeoffRole => TryTakeoff(battery, now);
      case LandRole => LandNow();
      case RiseRole => TryRise(height, now);
      case MoveRole(axis, sign) => HoldAxis(axis, sign * Magnitude(variant, Snap()));
      case FlipRole(d) => FlipNow(d);
      case NoRole =>
    }

    /** `key_press`. */
    method PressKey(key: Key, battery: Option<int>, height: Option<int>, dial: int, now: real)
      requires Valid()
      modifies this
      ensures Snap() == KeyPress(variant, old(Snap()), key, battery, height, dial, now)
      ensures Valid()
    {
      ghost var s0 := Snap();
      Act(RoleOf(variant, key), battery, height, dial, now);
      KeyPressKeepsInv(variant, s0, key, battery, height, dial, now);
      KeyHandlersAgree(variant, s0, key, battery, height, dial, now);
    }

    /** `key_release`. */
    method ReleaseKey(key: Key)
      requires Valid()
      modifies this
      ensures Snap() == KeyRelease(variant, old(Snap()), key)
      ensures Valid()
    {
      ghost var s0 := Snap();
      Release(key);
      KeyReleaseKeepsInv(variant, s0, key);
      KeyHandlersAgree(variant, s0, key, None, None, 0, 0.0);
    }

    /** The body of `key_release`: zero the key's axis and clear its flag. */
    method Release(key: Key)
      modifies this
      ensures Snap() == KeyRelease(variant, old(Snap()), key)
    {
      var axis := ReleaseAxis(variant, key);
      if variant == GestureControl {
        keyActive := false;
      }
      if axis.Some? {
        var a := axis.value;
        vel := SetAxis(vel, a, 0);
        manual := if Manual(variant, a) then SetOverride(manual, a, false) else manual;
      }
    }

    // -------------------------------------------------------------------
    // Per-frame safety and emission
    // -------------------------------------------------------------------

    /** The critical-battery rule. */
    method SafetyLanding(battery: int, now: real)
      modifies this
      ensures Snap() == ForcedLanding(variant, old(Snap()), battery, now)
    {
      if flying && battery <= LandingFloor {
        if RecordsWarnings(variant) {
          warning := CriticalBattery;
          warningTime := now;
        }
        log := log + [Land];
        flying := false;
      }
    }

    /** rc emission, hover and move branches alike. */
    method SendRc()
      modifies this
      ensures Snap() == EmitRc(old(Snap()))
    {
      if flying {
        if vel.lr == 0 && vel.fb == 0 && vel.ud == 0 && vel.yaw == 0 {
          log := log + [Rc(Axes(0, 0, 0, 0))];
        } else {
          log := log + [Rc(vel)];
        }
      }
    }

    // -------------------------------------------------------------------
    // Gesture controller
    // -------------------------------------------------------------------

    /** The fist branch of `process_gestures_and_commands`. */
    method FistHold(battery: int, now: real)
      modifies this
      ensures Snap() == FistCycle(old(Snap()), battery, now)
    {
      if fistStart.None? {
        fistStart := Some(now);
        fistConfirmed := false;
      } else if now - fistStart.value >= HoldSeconds && !fistConfirmed {
        if !flying {
          if battery > TakeoffFloor {
            log := log + [Takeoff];
            flying := true;
          } else {
            warning := LowBatteryTakeoff;
            warningTime := now;
          }
        } else {
          log := log + [Rc(Zero), Land];
          flying := false;
        }
        fistConfirmed := true;
      }
    }

    /** `process_gestures_and_commands`. */
    method HandleGestures(camera: Option<seq<Hand>>, dial: int, battery: int, now: real)
      modifies this
      ensures Snap() == ProcessGestures(old(Snap()), camera, dial, battery, now)
    {
      if camera.None? {
        return;
      }
      var hands := camera.value;
      speed := dial;
      if |hands| == 0 {
        if !keyActive {
          vel := Zero;
        }
        return;
      }
      var fist := HasFist(hands);
      if fist {
        FistHold(battery, now);
      } else {
        SteerByHands(hands);
      }
    }

    /** The non-fist branch: reset the hold, stop unless a key is held, and
        let the first matching hand steer. */
    method SteerByHands(hands: seq<Hand>)
      modifies this
      ensures Snap() == SteerCycle(old(Snap()), hands)
    {
      fistStart := None;
      fistConfirmed := false;
      if !keyActive {
        vel := Zero;
      }
      var m := ScanHands(hands, speed);
      if m.Some? {
        vel := SetAxis(vel, m.value.axis, m.value.value);
      }
    }

    /** The warning overlay's expiry. */
    method ExpireStep(now: real)
      modifies this
      ensures Snap() == ExpireWarning(old(Snap()), now)
    {
      if !(warning != NoWarning && now - warningTime < WarningDuration) {
        warning := NoWarning;
      }
    }

    /** `update_frame` of the gesture controller. */
    method GestureFrame(i: Inputs)
      requires variant == GestureControl && Valid()
      modifies this
      ensures Snap() == GestureCycle(old(Snap()), i)
      ensures Valid()
    {
      ghost var s0 := Snap();
      if i.droneFrame {
        ExpireStep(i.now);
      }
      HandleGestures(i.camera, i.dial, i.toggleBattery, i.now);
      SafetyLanding(i.safetyBattery.GetOr(100), i.now);
      SendRc();
      GestureCycleKeepsInv(s0, i);
      GestureCycleAgrees(s0, i);
    }

    // -------------------------------------------------------------------
    // Colour trackers and keyboard-only scripts
    // -------------------------------------------------------------------

    /** `update_frame` of the follow tracker; returns the direction labels
        drawn for the frame. */
    method FollowFrame(cs: seq<Contour>, areaMin: int, dial: int, battery: int, now: real)
      returns (labels: seq<(Zone, Zone)>)
      requires variant == FollowTracker && Valid()
      modifies this
      ensures Snap() == FollowCycle(old(Snap()), cs, areaMin, dial, battery, now)
      ensures labels == Labels(cs, Larger(areaMin as real), FollowLabels)
      ensures Valid()
    {
      ghost var s0 := Snap();
      labels := FollowUpdate(cs, areaMin, dial, battery, now);
      CyclesKeepInv(s0, cs, areaMin, dial, battery, now);
      FollowCycleAgrees(s0, cs, areaMin, dial, battery, now);
    }

    /** The follow tracker's frame: detection, safety, the controllers and
        the rc send. */
    method FollowUpdate(cs: seq<Contour>, areaMin: int, dial: int, battery: int, now: real)
      returns (labels: seq<(Zone, Zone)>)
      requires variant == FollowTracker
      modifies this
      ensures Snap() == FollowCycle(old(Snap()), cs, areaMin, dial, battery, now)
      ensures labels == Labels(cs, Larger(areaMin as real), FollowLabels)
    {
      speed := dial;
      target, labels := DetectAndLabel(cs, areaMin as real, FollowLabels);
      SafetyLanding(battery, now);
      FollowSteps();
      SendRc();
    }

    /** The follow tracker's three controller blocks. */
    method FollowSteps()
      modifies this
      ensures Snap() == old(Snap()).(vel := FollowSteer(old(Snap())))
    {
      if flying && target.Some? && !manual.yaw {
        vel := vel.(yaw := FollowYaw(target.value.cx, speed));
      }
      if flying && target.Some? && !manual.ud {
        vel := vel.(ud := FollowUd(target.value.cy, speed));
      }
      if flying && target.Some? && !manual.fb {
        vel := vel.(fb := FollowFb(target.value.area, speed));
      }
    }

    /** `update_frame` of the yaw tracker. */
    method YawFrame(cs: seq<Contour>, dial: int, battery: int, now: real)
      returns (labels: seq<(Zone, Zone)>)
      requires variant == YawTracker && Valid()
      modifies this
      ensures Snap() == YawCycle(old(Snap()), cs, dial, battery, now)
      ensures labels == Labels(cs, Larger(AreaMin640), Labels640)
      ensures Valid()
    {
      ghost var s0 := Snap();
      labels := YawUpdate(cs, dial, battery, now);
      CyclesKeepInv(s0, cs, 0, dial, battery, now);
      YawCycleAgrees(s0, cs, dial, battery, now);
    }

    /** The yaw tracker's frame: detection, safety, the yaw controller and
        the rc send. */
    method YawUpdate(cs: seq<Contour>, dial: int, battery: int, now: real)
      returns (labels: seq<(Zone, Zone)>)
      requires variant == YawTracker
      modifies this
      ensures Snap() == YawCycle(old(Snap()), cs, dial, battery, now)
      ensures labels == Labels(cs, Larger(AreaMin640), Labels640)
    {
      speed := dial;
      target, labels := DetectAndLabel(cs, AreaMin640, Labels640);
      SafetyLanding(battery, now);
      if flying && target.Some? && !manual.yaw {
        vel := vel.(yaw := TrackYaw(target.value.cx));
      }
      SendRc();
    }

    /** `update_frame` of Practicas/2/main.py. */
    method LabelFrame(cs: seq<Contour>, dial: int, battery: int, now: real)
      returns (labels: seq<(Zone, Zone)>)
      requires variant == ColorLabels && Valid()
      modifies this
      ensures Snap() == LabelCycle(old(Snap()), dial, battery, now)
      ensures labels == Labels(cs, Larger(AreaMin640), Labels640)
      ensures Valid()
    {
      ghost var s0 := Snap();
      speed := dial;
      labels := LabelContours(cs, Larger(AreaMin640), Labels640);
      SafetyLanding(battery, now);
      SendRc();
      CyclesKeepInv(s0, cs, 0, dial, battery, now);
      KeyboardCyclesAgree(variant, s0, dial, battery, now);
    }

    /** `update_frame` of the Practicas/1 scripts. */
    method BasicFrame(battery: int, now: real)
      requires (variant == BasicKeys || variant == ArrowKeys) && Valid()
      modifies this
      ensures Snap() == BasicCycle(variant, old(Snap()), battery, now)
      ensures Valid()
    {
      ghost var s0 := Snap();
      SafetyLanding(battery, now);
      SendRc();
      CyclesKeepInv(s0, [], 0, 0, battery, now);
      KeyboardCyclesAgree(variant, s0, 0, battery, now);
    }
  }
}
