/** The autonomous bang-bang axis controllers: each turns a target centre or
    area into a fixed speed, its negation, or zero inside a dead zone. */
module AxisControl {
  import opened DeadZone

  /** `low` below the band, `high` above it, zero inside it. */
  function BangBang(z: Zone, low: int, high: int): int {
    match z
    case Below => low
    case Inside => 0
    case Above => high
  }

  // --- Practicas/2/Tests/main_yaw_vertical_follow_tracker.py (640x480) ---

  const CentreX := 320
  const CentreY := 240
  /** `int(0.15 * 640)` and `int(0.15 * 480)`. */
  const FollowThresholdX := 96
  const FollowThresholdY := 72
  const AreaTooSmall := 1500.0
  const AreaTooLarge := 20000.0

  /** Yaw toward the target: left of the band turns left (negative). */
  function FollowYaw(cx: int, speed: int): (r: int)
    ensures r == BangBang(ZoneOf(cx, CentreX, FollowThresholdX), -speed, speed)
    ensures speed > 0 ==> (r < 0 <==> cx < 224) && (r > 0 <==> cx > 416)
    ensures 224 <= cx <= 416 ==> r == 0
  {
    if cx < CentreX - FollowThresholdX then -speed
    else if cx > CentreX + FollowThresholdX then speed
    else 0
  }

  /** Climb toward the target: a centre above the band (smaller y) rises. */
  function FollowUd(cy: int, speed: int): (r: int)
    ensures r == BangBang(ZoneOf(cy, CentreY, FollowThresholdY), speed, -speed)
    ensures speed > 0 ==> (r > 0 <==> cy < 168) && (r < 0 <==> cy > 312)
    ensures 168 <= cy <= 312 ==> r == 0
  {
    if cy < CentreY - FollowThresholdY then speed
    else if cy > CentreY + FollowThresholdY then -speed
    else 0
  }

  /** Keep the target's apparent size inside [1500, 20000]: advance when it
      is too small, back off when it is too large. */
  function FollowFb(area: real, speed: int): (r: int)
    ensures speed > 0 ==> (r > 0 <==> area < AreaTooSmall) && (r < 0 <==> area > AreaTooLarge)
    ensures AreaTooSmall <= area <= AreaTooLarge ==> r == 0
    ensures r == speed || r == -speed || r == 0
  {
    if area < AreaTooSmall then speed
    else if area > AreaTooLarge then -speed
    else 0
  }

  // --- Practicas/2/Tests/main_yaw_tracker.py (640x480) ---

  /** `int(0.10 * 640)`. */
  const TrackThresholdX := 64
  /** The yaw tracker turns at a fixed 15, whatever the speed dial says. */
  const TrackYawRate := 15

  function TrackYaw(cx: int): (r: int)
    ensures r == BangBang(ZoneOf(cx, CentreX, TrackThresholdX), -TrackYawRate, TrackYawRate)
    ensures (r == -15 <==> cx < 256) && (r == 15 <==> cx > 384) && (r == 0 <==> 256 <= cx <= 384)
  {
    if cx < CentreX - TrackThresholdX then -TrackYawRate
    else if cx > CentreX + TrackThresholdX then TrackYawRate
    else 0
  }

  // --- Practicas/2/control_dron2.py: offset tolerance around the frame centre ---

  const OffsetTolerance := 20
  const NearArea := 6000.0
  const FarArea := 12000.0

  function Abs(n: int): nat { if n < 0 then -n else n }

  /** `yaw = vel if offset_x > 0 else -vel` once `|offset_x| > 20`. */
  function OffsetYaw(offsetX: int, vel: int): (r: int)
    ensures vel > 0 ==> (r > 0 <==> offsetX > OffsetTolerance) && (r < 0 <==> offsetX < -OffsetTolerance)
    ensures Abs(offsetX) <= OffsetTolerance ==> r == 0
  {
    if Abs(offsetX) > OffsetTolerance then (if offsetX > 0 then vel else -vel) else 0
  }

  /** `ud = vel if offset_y < 0 else -vel` once `|offset_y| > 20`: a target
      above the centre climbs. */
  function OffsetUd(offsetY: int, vel: int): (r: int)
    ensures vel > 0 ==> (r > 0 <==> offsetY < -OffsetTolerance) && (r < 0 <==> offsetY > OffsetTolerance)
    ensures Abs(offsetY) <= OffsetTolerance ==> r == 0
  {
    if Abs(offsetY) > OffsetTolerance then (if offsetY < 0 then vel else -vel) else 0
  }

  function ProximityFb(area: real, vel: int): (r: int)
    ensures vel > 0 ==> (r > 0 <==> area < NearArea) && (r < 0 <==> area > FarArea)
    ensures NearArea <= area <= FarArea ==> r == 0
  {
    if area < NearArea then vel
    else if area > FarArea then -vel
    else 0
  }

  /** The offset-tolerance rule is the same dead-zone controller as the
      trackers', with the band centred on the frame and half-width 20. */
  lemma OffsetIsDeadZone(cx: int, cy: int, vel: int)
    ensures OffsetYaw(cx - CentreX, vel) == BangBang(ZoneOf(cx, CentreX, OffsetTolerance), -vel, vel)
    ensures OffsetUd(cy - CentreY, vel) == BangBang(ZoneOf(cy, CentreY, OffsetTolerance), vel, -vel)
  {
  }

  /** A target exactly at the frame centre commands no positional correction
      in any variant. */
  lemma CentredTargetHolds(speed: int, vel: int)
    ensures FollowYaw(CentreX, speed) == 0 && FollowUd(CentreY, speed) == 0
    ensures TrackYaw(CentreX) == 0
    ensures OffsetYaw(0, vel) == 0 && OffsetUd(0, vel) == 0
  {
  }

  /** The follow tracker's yaw comparisons are strict on both sides: one
      pixel past a boundary turns, the boundary itself holds still. */
  lemma YawThresholdIsStrict(speed: int)
    requires speed > 0
    ensures FollowYaw(CentreX + FollowThresholdX + 1, speed) == speed
    ensures FollowYaw(CentreX + FollowThresholdX, speed) == 0
    ensures FollowYaw(CentreX - FollowThresholdX - 1, speed) == -speed
    ensures FollowYaw(CentreX - FollowThresholdX, speed) == 0
  {
  }
}
