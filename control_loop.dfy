/** The main loop of Practicas/2/control_dron2.py: track the largest colour
    blob with the offset-tolerance controllers, then handle one key. */
module AutoLoop {
  import opened Types
  import opened AxisControl

  /** A contour as the loop sees it: its area and its image moments. */
  datatype Blob = Blob(area: real, m00: real, m10: real, m01: real)

  /** Minimum area of a blob worth tracking. */
  const MinBlobArea := 500.0
  /** `vel`: the speed of every autonomous and manual command. */
  const Vel := 30

  /** Python's `int()` on a float: truncation toward zero. */
  function Trunc(x: real): (n: int)
    ensures x >= 0.0 ==> n as real <= x < n as real + 1.0
    ensures x < 0.0 ==> n as real - 1.0 < x <= n as real
  {
    if x >= 0.0 then x.Floor else -((-x).Floor)
  }

  /** `max(contours, key=cv2.contourArea)`: the first contour of largest
      area. */
  function Largest(cs: seq<Blob>): (k: nat)
    requires |cs| > 0
    ensures k < |cs|
    ensures forall j :: 0 <= j < |cs| ==> cs[j].area <= cs[k].area
    ensures forall j :: 0 <= j < k ==> cs[j].area < cs[k].area
    decreases |cs|
  {
    if |cs| == 1 then 0
    else
      var k := Largest(cs[..|cs| - 1]);
      if cs[|cs| - 1].area > cs[k].area then |cs| - 1 else k
  }

  /** What detection yields: nothing, a blob too small or without a centroid,
      or a target centre and area. */
  datatype Sight = Nothing | Centreless | Seen(cx: int, cy: int, area: real)

  /** Detection: the largest blob is a target when its area exceeds 500 and
      its zeroth moment is not zero. */
  function Look(cs: seq<Blob>): Sight {
    if |cs| == 0 then Nothing
    else
      var b := cs[Largest(cs)];
      if b.area <= MinBlobArea then Nothing
      else if b.m00 == 0.0 then Centreless
      else Seen(Trunc(b.m10 / b.m00), Trunc(b.m01 / b.m00), b.area)
  }

  /** The autonomous command for a target: `lr` is always zero. */
  function Pursue(cx: int, cy: int, area: real): (v: Axes)
    ensures v.lr == 0
  {
    Axes(0, ProximityFb(area, Vel), OffsetUd(cy - CentreY, Vel), OffsetYaw(cx - CentreX, Vel))
  }

  /** The loop's state: `flying`, the commands sent, whether the loop has
      ended, and whether it ended by an exception. */
  datatype Loop = Loop(flying: bool, log: seq<Command>, done: bool, crashed: bool)

  const Start := Loop(false, [], false, false)

  /** One pass: the contours seen and the key read afterwards. */
  datatype Pass = Pass(blobs: seq<Blob>, key: char)

  /** The manual command of a key while flying, in the order the handlers
      test them; the `q` case comes after the `q` that ends the loop. */
  function ManualRc(key: char): Axes {
    if key == 'w' then Axes(0, Vel, 0, 0)
    else if key == 's' then Axes(0, -Vel, 0, 0)
    else if key == 'a' then Axes(-Vel, 0, 0, 0)
    else if key == 'd' then Axes(Vel, 0, 0, 0)
    else if key == 'e' then Axes(0, 0, 0, Vel)
    else if key == 'q' then Axes(0, 0, 0, -Vel)
    else if key == 'r' then Axes(0, 0, Vel, 0)
    else if key == 'f' then Axes(0, 0, -Vel, 0)
    else Zero
  }

  /** The key dispatch at the bottom of the loop. */
  function HandleKey(s: Loop, key: char): Loop {
    if key == 'q' then s.(done := true)
    else if key == 't' then s.(log := s.log + [Takeoff], flying := true)
    else if key == 'l' then s.(log := s.log + [Land], flying := false)
    else if s.flying then s.(log := s.log + [Rc(ManualRc(key))])
    else s
  }

  /** The tracking part of the loop: an airborne drone gets the autonomous
      command followed by a stop. A blob without a centroid makes the
      drawing call fail, which ends the program. */
  function Track(s: Loop, sight: Sight): Loop {
    match sight
    case Nothing => s
    case Centreless => s.(done := true, crashed := true)
    case Seen(cx, cy, area) =>
      if s.flying then s.(log := s.log + [Rc(Pursue(cx, cy, area)), Rc(Zero)]) else s
  }

  function Step(s: Loop, p: Pass): Loop {
    var t := Track(s, Look(p.blobs));
    if t.done then t else HandleKey(t, p.key)
  }

  function Run(s: Loop, ps: seq<Pass>): Loop
    decreases |ps|
  {
    if |ps| == 0 || s.done then s else Run(Step(s, ps[0]), ps[1..])
  }

  /** `max(contours, key=cv2.contourArea)`. */
  method FindLargest(cs: seq<Blob>) returns (k: nat)
    requires |cs| > 0
    ensures k == Largest(cs)
  {
    k := 0;
    var i := 1;
    while i < |cs|
      invariant 1 <= i <= |cs|
      invariant k == Largest(cs[..i])
    {
      assert cs[..i + 1][..i] == cs[..i];
      if cs[i].area > cs[k].area {
        k := i;
      }
      i := i + 1;
    }
    assert cs[..|cs|] == cs;
  }

  /** The `while True` loop, on the passes `ps`. */
  method MainLoop(ps: seq<Pass>) returns (s: Loop)
    ensures s == Run(Start, ps)
  {
    var flying := false;
    var log: seq<Command> := [];
    var i := 0;
    while i < |ps|
      invariant 0 <= i <= |ps|
      invariant Run(Loop(flying, log, false, false), ps[i..]) == Run(Start, ps)
    {
      assert ps[i..][1..] == ps[i + 1..];
      var cs := ps[i].blobs;
      if |cs| > 0 {
        var k := FindLargest(cs);
        var area := cs[k].area;
        if area > MinBlobArea {
          if cs[k].m00 == 0.0 {
            return Loop(flying, log, true, true);
          }
          var cx := Trunc(cs[k].m10 / cs[k].m00);
          var cy := Trunc(cs[k].m01 / cs[k].m00);
          var yaw := 0;
          var ud := 0;
          var fb := 0;
          if Abs(cx - CentreX) > OffsetTolerance {
            yaw := if cx - CentreX > 0 then Vel else -Vel;
          }
          if Abs(cy - CentreY) > OffsetTolerance {
            ud := if cy - CentreY < 0 then Vel else -Vel;
          }
          if area < NearArea {
            fb := Vel;
          } else if area > FarArea {
            fb := -Vel;
          }
          if flying {
            log := log + [Rc(Axes(0, fb, ud, yaw)), Rc(Zero)];
          }
        }
      }
      var key := ps[i].key;
      if key == 'q' {
        return Loop(flying, log, true, false);
      } else if key == 't' {
        log := log + [Takeoff];
        flying := true;
      } else if key == 'l' {
        log := log + [Land];
        flying := false;
      } else if flying {
        log := log + [Rc(ManualRc(key))];
      }
      i := i + 1;
    }
    s := Loop(flying, log, false, false);
  }

  // ---------------------------------------------------------------------
  // Properties
  // ---------------------------------------------------------------------

  /** Only the largest blob counts: a target exists exactly when the largest
      area exceeds 500 and that blob has a centroid, and then its area is
      the largest. */
  lemma LookUsesLargest(cs: seq<Blob>)
    ensures Look(cs).Seen? <==>
      |cs| > 0 && (exists k :: 0 <= k < |cs| && cs[k].area > MinBlobArea) && cs[Largest(cs)].m00 != 0.0
    ensures Look(cs).Seen? ==> forall j :: 0 <= j < |cs| ==> cs[j].area <= Look(cs).area
    ensures Look(cs).Nothing? <==> forall j :: 0 <= j < |cs| ==> cs[j].area <= MinBlobArea
  {
  }

  /** The autonomous command turns toward the target, climbs toward it and
      keeps its distance, with a 20-pixel tolerance and the 6000–12000 band. */
  lemma PursuitDirections(cx: int, cy: int, area: real)
    ensures var v := Pursue(cx, cy, area);
      && v.lr == 0
      && (v.yaw == Vel <==> cx > CentreX + OffsetTolerance)
      && (v.yaw == -Vel <==> cx < CentreX - OffsetTolerance)
      && (v.ud == Vel <==> cy < CentreY - OffsetTolerance)
      && (v.ud == -Vel <==> cy > CentreY + OffsetTolerance)
      && (v.fb == Vel <==> area < NearArea) && (v.fb == -Vel <==> area > FarArea)
  {
  }

  /** The autonomous command is sent only in the air and at once followed by
      a stop; grounded, a target sends nothing. */
  lemma AutonomousThenStop(s: Loop, cx: int, cy: int, area: real)
    requires !s.done
    ensures var r := Track(s, Seen(cx, cy, area));
      r.log == (if s.flying then s.log + [Rc(Pursue(cx, cy, area)), Rc(Zero)] else s.log)
      && r.flying == s.flying && !r.done
  {
  }

  /** The `q` yaw branch of the key dispatch is dead: no key sends the
      yaw-left command, because the `q` that ends the loop is tested first. */
  lemma YawLeftIsUnreachable(s: Loop, key: char)
    requires !s.done
    ensures HandleKey(s, key).log != s.log + [Rc(Axes(0, 0, 0, -Vel))]
  {
    var l := HandleKey(s, key).log;
    if |l| == |s.log| + 1 {
      assert l[|s.log|] != Rc(Axes(0, 0, 0, -Vel));
    }
  }

  /** `t` and `l` check no battery and no flight state; every other key acts
      only in the air, and an unknown key there sends a stop. */
  lemma KeyDispatch(s: Loop, key: char)
    ensures HandleKey(s, 't').flying && HandleKey(s, 't').log == s.log + [Takeoff]
    ensures !HandleKey(s, 'l').flying && HandleKey(s, 'l').log == s.log + [Land]
    ensures key != 'q' && key != 't' && key != 'l' && !s.flying ==> HandleKey(s, key) == s
    ensures key !in ['q', 't', 'l', 'w', 's', 'a', 'd', 'e', 'r', 'f'] && s.flying ==>
      HandleKey(s, key).log == s.log + [Rc(Zero)]
  {
  }

  /** Every state of the loop: `flying` agrees with the commands sent, and
      every rc command went to an airborne drone. */
  predicate Sound(s: Loop) {
    SentWhileAirborne(s.log) && s.flying == Airborne(s.log)
  }

  lemma StepSound(s: Loop, p: Pass)
    requires Sound(s)
    ensures Sound(Step(s, p))
  {
    var t := Track(s, Look(p.blobs));
    if Look(p.blobs).Seen? && s.flying {
      var v := Pursue(Look(p.blobs).cx, Look(p.blobs).cy, Look(p.blobs).area);
      AppendCommand(s.log, Rc(v));
      AppendCommand(s.log + [Rc(v)], Rc(Zero));
      assert s.log + [Rc(v), Rc(Zero)] == s.log + [Rc(v)] + [Rc(Zero)];
    }
    assert Sound(t);
    if !t.done {
      var key := p.key;
      if key == 't' {
        AppendCommand(t.log, Takeoff);
      } else if key == 'l' {
        AppendCommand(t.log, Land);
      } else if key != 'q' && t.flying {
        AppendCommand(t.log, Rc(ManualRc(key)));
      }
    }
  }

  lemma {:induction false} RunSound(s: Loop, ps: seq<Pass>)
    requires Sound(s)
    ensures Sound(Run(s, ps))
    decreases |ps|
  {
    if |ps| > 0 && !s.done {
      StepSound(s, ps[0]);
      RunSound(Step(s, ps[0]), ps[1..]);
    }
  }

  /** Quitting with `q` leaves the drone as it was: the loop lands nothing. */
  lemma QuitLeavesFlight(s: Loop, p: Pass)
    requires !s.done && p.key == 'q' && !Look(p.blobs).Centreless?
    ensures Step(s, p).done && Step(s, p).crashed == s.crashed && Step(s, p).flying == s.flying
  {
  }
}
