/** The capture loop of Clases/ColorTracking/color_tracking.py: each webcam
    frame's small-enough contours are labelled by which side of the centre
    band their box centre falls on. */
module ColorTracking {
  import opened DeadZone
  import opened Detection

  /** `0.05 * (800 * 600)`: contours smaller than this are labelled. */
  const AreaMax := 24000.0

  const Filter := Smaller(AreaMax)

  /** One pass: the frame read failed, or it succeeded with these contours
      and `key` was read afterwards. */
  datatype Capture = Failed | Captured(contours: seq<Contour>, key: char)

  /** The labels of every processed frame, in order; the loop ends at a
      failed read or after a frame on which `q` was pressed. */
  function Frames(caps: seq<Capture>): seq<seq<(Zone, Zone)>>
    decreases |caps|
  {
    if |caps| == 0 || caps[0].Failed? then []
    else [Labels(caps[0].contours, Filter, Labels800)] + (if caps[0].key == 'q' then [] else Frames(caps[1..]))
  }

  /** The `while True` loop on the passes `caps`. */
  method TrackLoop(caps: seq<Capture>) returns (out: seq<seq<(Zone, Zone)>>)
    ensures out == Frames(caps)
  {
    out := [];
    var i := 0;
    while i < |caps|
      invariant 0 <= i <= |caps|
      invariant out + Frames(caps[i..]) == Frames(caps)
    {
      assert caps[i..][1..] == caps[i + 1..];
      if caps[i].Failed? {
        return;
      }
      var labels := LabelContours(caps[i].contours, Filter, Labels800);
      out := out + [labels];
      if caps[i].key == 'q' {
        return;
      }
      i := i + 1;
    }
  }

  /** Each output entry is the labelling of the frame read at that pass, and
      the loop stops exactly at the first failed read or after the first `q`. */
  lemma {:induction false} FramesStop(caps: seq<Capture>)
    ensures |Frames(caps)| <= |caps|
    ensures forall k :: 0 <= k < |Frames(caps)| ==>
      caps[k].Captured? && Frames(caps)[k] == Labels(caps[k].contours, Filter, Labels800)
    ensures forall k :: 0 <= k < |Frames(caps)| - 1 ==> caps[k].key != 'q'
    ensures |Frames(caps)| < |caps| ==>
      caps[|Frames(caps)|].Failed? || (|Frames(caps)| > 0 && caps[|Frames(caps)| - 1].key == 'q')
    decreases |caps|
  {
    if |caps| > 0 && caps[0].Captured? && caps[0].key != 'q' {
      FramesStop(caps[1..]);
    }
  }

  /** The 800x600 dead zones: `y_threshold` is computed from the width too,
      so both half-widths are 80. */
  lemma ColorZones(c: Contour)
    ensures Label(c, Labels800).0 == Below <==> Detection.CentreX(c) < 320
    ensures Label(c, Labels800).0 == Above <==> Detection.CentreX(c) > 480
    ensures Label(c, Labels800).1 == Below <==> Detection.CentreY(c) < 220
    ensures Label(c, Labels800).1 == Above <==> Detection.CentreY(c) > 380
    ensures Keep(Filter, c.area) <==> c.area < 24000.0
  {
  }
}
