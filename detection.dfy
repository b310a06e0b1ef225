/** Target detection on an abstract contour list: the OpenCV pipeline
    (`inRange`, `erode`, `dilate`, `findContours`, `contourArea`,
    `boundingRect`) is outside the model, and each contour arrives as its area
    and bounding box. */
module Detection {
  import opened Types
  import opened DeadZone

  /** One contour: its area (a float in OpenCV) and its bounding box. */
  datatype Contour = Contour(area: real, x: int, y: int, w: int, h: int)

  /** Bounding-box centre `(x + w // 2, y + h // 2)`; Python's `//` by 2 is
      floor division, which is what Dafny's `/` by a positive divisor computes. */
  function CentreX(c: Contour): int { c.x + c.w / 2 }
  function CentreY(c: Contour): int { c.y + c.h / 2 }

  /** What a tracker keeps of the selected contour: centre and area. */
  datatype Target = Target(cx: int, cy: int, area: real)

  function TargetOf(c: Contour): Target {
    Target(CentreX(c), CentreY(c), c.area)
  }

  /** `0.001 * (640 * 480)`: the fixed minimum area of the 640x480 scripts. */
  const AreaMin640 := 307.2

  /** The target left behind by a scan that overwrites the centre and area
      for every contour whose area exceeds `minArea`. */
  function LastAbove(cs: seq<Contour>, minArea: real): Option<Target> {
    if |cs| == 0 then None
    else if cs[|cs| - 1].area > minArea then Some(TargetOf(cs[|cs| - 1]))
    else LastAbove(cs[..|cs| - 1], minArea)
  }

  /** The scan finds nothing exactly when no contour is large enough, and
      otherwise keeps the last contour that is. */
  lemma {:induction false} LastAboveIsLast(cs: seq<Contour>, minArea: real)
    ensures LastAbove(cs, minArea).None? <==> forall i :: 0 <= i < |cs| ==> cs[i].area <= minArea
    ensures LastAbove(cs, minArea).Some? ==>
      exists i :: 0 <= i < |cs| && cs[i].area > minArea && LastAbove(cs, minArea).value == TargetOf(cs[i])
        && forall j :: i < j < |cs| ==> cs[j].area <= minArea
    decreases |cs|
  {
    if |cs| > 0 && cs[|cs| - 1].area <= minArea {
      var init := cs[..|cs| - 1];
      LastAboveIsLast(init, minArea);
      assert forall i :: 0 <= i < |init| ==> init[i] == cs[i];
      if LastAbove(init, minArea).Some? {
        var i :| 0 <= i < |init| && init[i].area > minArea && LastAbove(init, minArea).value == TargetOf(init[i])
                 && forall j :: i < j < |init| ==> init[j].area <= minArea;
        assert cs[i] == init[i];
      }
    }
  }

  /** Which contours a labelling loop draws: the 640x480 scripts keep those
      larger than a minimum, the colour-tracking demo those smaller than a
      maximum. */
  datatype AreaFilter = Larger(min: real) | Smaller(max: real)

  predicate Keep(f: AreaFilter, area: real) {
    match f
    case Larger(m) => area > m
    case Smaller(m) => area < m
  }

  /** Frame centre and dead-zone half-widths used for the on-screen labels. */
  datatype Geometry = Geometry(centreX: int, thresholdX: int, centreY: int, thresholdY: int)

  /** Practicas/2/main.py and the yaw tracker: 640x480, thresholds `int(0.10 * 640)`, `int(0.10 * 480)`. */
  const Labels640 := Geometry(320, 64, 240, 48)
  /** The follow tracker: 640x480 with its wider thresholds `int(0.15 * 640)`, `int(0.15 * 480)`. */
  const FollowLabels := Geometry(320, 96, 240, 72)
  /** Clases/ColorTracking: 800x600, and both thresholds `int(0.10 * width)`. */
  const Labels800 := Geometry(400, 80, 300, 80)

  /** `label_direction`: the zone of the centre on each axis. */
  function Label(c: Contour, g: Geometry): (Zone, Zone) {
    (ZoneOf(CentreX(c), g.centreX, g.thresholdX), ZoneOf(CentreY(c), g.centreY, g.thresholdY))
  }

  /** The labels drawn for one frame, one per kept contour, in scan order. */
  function Labels(cs: seq<Contour>, f: AreaFilter, g: Geometry): seq<(Zone, Zone)> {
    if |cs| == 0 then []
    else (if Keep(f, cs[0].area) then [Label(cs[0], g)] else []) + Labels(cs[1..], f, g)
  }

  /** The contours a filter keeps, in scan order. */
  function Kept(cs: seq<Contour>, f: AreaFilter): (r: seq<Contour>)
    ensures |r| <= |cs|
    ensures forall k :: 0 <= k < |r| ==> Keep(f, r[k].area)
  {
    if |cs| == 0 then []
    else (if Keep(f, cs[0].area) then [cs[0]] else []) + Kept(cs[1..], f)
  }

  /** Nothing that passes is dropped: the kept contours are exactly those
      that pass the filter, each as often as it occurs in the scan. */
  lemma {:induction false} KeptExactly(cs: seq<Contour>, f: AreaFilter)
    ensures forall c: Contour :: c in Kept(cs, f) <==> c in cs && Keep(f, c.area)
    ensures multiset(Kept(cs, f)) <= multiset(cs)
    ensures forall c: Contour :: Keep(f, c.area) ==> multiset(Kept(cs, f))[c] == multiset(cs)[c]
    decreases |cs|
  {
    if |cs| > 0 {
      KeptExactly(cs[1..], f);
      assert cs == [cs[0]] + cs[1..];
    }
  }

  /** The scan order: a contour seen last is kept last, if at all. */
  lemma {:induction false} KeptAppend(cs: seq<Contour>, c: Contour, f: AreaFilter)
    ensures Kept(cs + [c], f) == Kept(cs, f) + (if Keep(f, c.area) then [c] else [])
    decreases |cs|
  {
    if |cs| == 0 {
      assert Kept([c], f) == (if Keep(f, c.area) then [c] else []) + Kept([], f);
    } else {
      assert (cs + [c])[1..] == cs[1..] + [c];
      KeptAppend(cs[1..], c, f);
    }
  }

  /** The labelling loop of `detect_and_draw` (and of the colour-tracking
      demo): each kept contour contributes the zones of its centre. */
  method LabelContours(cs: seq<Contour>, f: AreaFilter, g: Geometry) returns (labels: seq<(Zone, Zone)>)
    ensures labels == Labels(cs, f, g)
    ensures |labels| == |Kept(cs, f)|
    ensures forall k :: 0 <= k < |labels| ==> labels[k] == Label(Kept(cs, f)[k], g)
  {
    labels := [];
    for i := 0 to |cs|
      invariant labels == Labels(cs[..i], f, g)
    {
      LabelsAppend(cs[..i], cs[i], f, g);
      assert cs[..i + 1] == cs[..i] + [cs[i]];
      if Keep(f, cs[i].area) {
        labels := labels + [Label(cs[i], g)];
      }
    }
    assert cs[..|cs|] == cs;
    LabelsAreKept(cs, f, g);
  }

  lemma {:induction false} LabelsAppend(cs: seq<Contour>, c: Contour, f: AreaFilter, g: Geometry)
    ensures Labels(cs + [c], f, g) == Labels(cs, f, g) + (if Keep(f, c.area) then [Label(c, g)] else [])
    decreases |cs|
  {
    if |cs| == 0 {
      assert Labels([c], f, g) == (if Keep(f, c.area) then [Label(c, g)] else []) + Labels([], f, g);
    } else {
      assert (cs + [c])[1..] == cs[1..] + [c];
      LabelsAppend(cs[1..], c, f, g);
    }
  }

  /** The labels are exactly the kept contours' labels, in order. */
  lemma {:induction false} LabelsAreKept(cs: seq<Contour>, f: AreaFilter, g: Geometry)
    ensures |Labels(cs, f, g)| == |Kept(cs, f)|
    ensures forall k :: 0 <= k < |Kept(cs, f)| ==> Labels(cs, f, g)[k] == Label(Kept(cs, f)[k], g)
    decreases |cs|
  {
    if |cs| > 0 {
      LabelsAreKept(cs[1..], f, g);
    }
  }

  /** The tracker's `detect_and_draw`: reset the target, then scan every
      contour in order; each contour whose area exceeds `minArea` overwrites
      the target and has its direction labelled. */
  method DetectAndLabel(cs: seq<Contour>, minArea: real, g: Geometry)
    returns (t: Option<Target>, labels: seq<(Zone, Zone)>)
    ensures t == LastAbove(cs, minArea)
    ensures labels == Labels(cs, Larger(minArea), g)
  {
    t := None;
    labels := [];
    for i := 0 to |cs|
      invariant t == LastAbove(cs[..i], minArea)
      invariant labels == Labels(cs[..i], Larger(minArea), g)
    {
      assert cs[..i + 1][..i] == cs[..i];
      LabelsAppend(cs[..i], cs[i], Larger(minArea), g);
      assert cs[..i + 1] == cs[..i] + [cs[i]];
      if cs[i].area > minArea {
        t := Some(TargetOf(cs[i]));
        labels := labels + [Label(cs[i], g)];
      }
    }
    assert cs[..|cs|] == cs;
  }

  /** The 640x480 labels: left below 256, right above 384, up below 192,
      down above 288, with the boundaries in the centre band. */
  lemma Zones640(c: Contour)
    ensures Label(c, Labels640).0 == Below <==> CentreX(c) < 256
    ensures Label(c, Labels640).0 == Above <==> CentreX(c) > 384
    ensures Label(c, Labels640).1 == Below <==> CentreY(c) < 192
    ensures Label(c, Labels640).1 == Above <==> CentreY(c) > 288
  {
  }
}
