/** Hand-gesture classification over the 21 MediaPipe landmarks
    (Practicas/3/si.py): the finger predicates, the ordered rule chain, and
    the velocity each rule commands. */
module Gestures {
  import opened Types

  /** A normalised landmark position; only comparisons are ever made on it. */
  datatype Point = Point(x: real, y: real)

  /** The 21 landmarks of one detected hand. */
  type Hand = h: seq<Point> | |h| == 21 witness seq(21, _ => Point(0.0, 0.0))

  datatype Finger = Index | Middle | Ring | Pinky

  /** Landmark index of a fingertip; its joint is two indices back. */
  function Tip(f: Finger): nat {
    match f
    case Index => 8
    case Middle => 12
    case Ring => 16
    case Pinky => 20
  }

  const ThumbIp := 3
  const ThumbTip := 4

  /** Tip strictly above its joint (image y grows downwards). */
  predicate Up(lm: Hand, f: Finger) {
    lm[Tip(f)].y < lm[Tip(f) - 2].y
  }

  /** Tip strictly below its joint. */
  predicate Down(lm: Hand, f: Finger) {
    lm[Tip(f)].y > lm[Tip(f) - 2].y
  }

  /** Tip exactly level with its joint: neither up nor down. */
  predicate Level(lm: Hand, f: Finger) {
    lm[Tip(f)].y == lm[Tip(f) - 2].y
  }

  /** `pulgar_extendido`: the thumb tip lies left of its inter-phalangeal joint. */
  predicate ThumbExtended(lm: Hand) {
    lm[ThumbTip].x < lm[ThumbIp].x
  }

  function Bit(b: bool): nat {
    if b then 1 else 0
  }

  /** `contar_dedos`: how many of the four non-thumb fingers are up. */
  function CountFingers(lm: Hand): (n: nat)
    ensures n <= 4
    ensures n == 0 <==> forall f :: !Up(lm, f)
    ensures n == 4 <==> forall f :: Up(lm, f)
  {
    Bit(Up(lm, Index)) + Bit(Up(lm, Middle)) + Bit(Up(lm, Ring)) + Bit(Up(lm, Pinky))
  }

  predicate IsFist(lm: Hand) {
    Down(lm, Index) && Down(lm, Middle) && Down(lm, Ring) && Down(lm, Pinky)
  }

  predicate IsOnlyPinky(lm: Hand) {
    CountFingers(lm) == 1 && Up(lm, Pinky)
  }

  /** `is_cuernito`: index and pinky up, middle and ring down. */
  predicate IsHorns(lm: Hand) {
    Up(lm, Index) && Up(lm, Pinky) && Down(lm, Middle) && Down(lm, Ring)
  }

  /** `is_CW`: thumb out, index up, the other three down. */
  predicate IsCw(lm: Hand) {
    ThumbExtended(lm) && Up(lm, Index) && Down(lm, Middle) && Down(lm, Ring) && Down(lm, Pinky)
  }

  /** The gesture labels, in the order the rules are tried. */
  datatype Gesture =
    | Fist | ThumbOnly | PinkyUp | Horns | CwPoint
    | OneFinger | TwoFingers | ThreeFingers | FourFingers | FourFingersThumb
    | Unmatched

  /** First-match classification: the fist test runs before every other rule. */
  function Classify(lm: Hand): (g: Gesture)
    ensures g == Fist <==> IsFist(lm)
    ensures g == Fist ==> CountFingers(lm) == 0
    ensures g == ThumbOnly ==> ThumbExtended(lm) && exists f :: Level(lm, f)
    ensures g == PinkyUp ==> Up(lm, Pinky) && !Up(lm, Index) && !Up(lm, Middle) && !Up(lm, Ring)
    ensures IsHorns(lm) ==> g == Horns
    ensures IsCw(lm) ==> g == CwPoint
    ensures g == Unmatched ==> CountFingers(lm) <= 1
  {
    if IsFist(lm) then Fist
    else if ThumbExtended(lm) && CountFingers(lm) == 0 then
      assert Level(lm, Index) || Level(lm, Middle) || Level(lm, Ring) || Level(lm, Pinky);
      ThumbOnly
    else if IsOnlyPinky(lm) then PinkyUp
    else if IsHorns(lm) then Horns
    else if IsCw(lm) then CwPoint
    else
      var n := CountFingers(lm);
      if n == 1 && !ThumbExtended(lm) then OneFinger
      else if n == 2 then TwoFingers
      else if n == 3 then ThreeFingers
      else if n == 4 then (if ThumbExtended(lm) then FourFingersThumb else FourFingers)
      else Unmatched
  }

  /** One velocity assignment: which axis, to what value. */
  datatype Move = Move(axis: Axis, value: int)

  /** The velocity each recognised gesture commands at dial value `speed`
      (`speed // 2` is floor division, which Dafny's `/` by 2 equals). */
  function GestureMove(g: Gesture, speed: int): Option<Move> {
    match g
    case ThumbOnly => Some(Move(UD, speed / 2))
    case PinkyUp => Some(Move(UD, speed))
    case Horns => Some(Move(UD, -speed))
    case CwPoint => Some(Move(Yaw, speed))
    case OneFinger => Some(Move(FB, speed))
    case TwoFingers => Some(Move(FB, -speed))
    case ThreeFingers => Some(Move(LR, speed))
    case FourFingers => Some(Move(LR, -speed))
    case FourFingersThumb => Some(Move(Yaw, -speed))
    case _ => None
  }

  /** The rule chain the source runs on a hand once it knows no hand is a fist:
      it starts at the thumb-only test and sets at most one axis. */
  function RuleMove(lm: Hand, speed: int): (m: Option<Move>)
    ensures !IsFist(lm) ==> m == GestureMove(Classify(lm), speed)
    ensures m.Some? ==> m.value.value == speed / 2 || m.value.value == speed || m.value.value == -speed
  {
    if ThumbExtended(lm) && CountFingers(lm) == 0 then Some(Move(UD, speed / 2))
    else if IsOnlyPinky(lm) then Some(Move(UD, speed))
    else if IsHorns(lm) then Some(Move(UD, -speed))
    else if IsCw(lm) then Some(Move(Yaw, speed))
    else
      var n := CountFingers(lm);
      if n == 1 && !ThumbExtended(lm) then Some(Move(FB, speed))
      else if n == 2 then Some(Move(FB, -speed))
      else if n == 3 then Some(Move(LR, speed))
      else if n == 4 then (if ThumbExtended(lm) then Some(Move(Yaw, -speed)) else Some(Move(LR, -speed)))
      else None
  }

  /** The move of the first hand, in detection order, that some rule matches
      (the `for hand in manos` loop leaves at the first `break`). */
  function FirstMove(hands: seq<Hand>, speed: int): (m: Option<Move>)
    ensures m.None? <==> forall i :: 0 <= i < |hands| ==> RuleMove(hands[i], speed).None?
    ensures m.Some? ==>
      exists i :: 0 <= i < |hands| && RuleMove(hands[i], speed) == m
        && forall j :: 0 <= j < i ==> RuleMove(hands[j], speed).None?
    decreases |hands|
  {
    if |hands| == 0 then None
    else if RuleMove(hands[0], speed).Some? then RuleMove(hands[0], speed)
    else
      var rest := FirstMove(hands[1..], speed);
      assert forall i :: 1 <= i < |hands| ==> hands[1..][i - 1] == hands[i];
      rest
  }

  /** The hand loop of `process_gestures_and_commands` as the source writes it:
      each rule tested in turn, leaving the loop at the first match. */
  method ScanHands(hands: seq<Hand>, speed: int) returns (m: Option<Move>)
    ensures m == FirstMove(hands, speed)
  {
    m := None;
    var i := 0;
    while i < |hands|
      invariant 0 <= i <= |hands|
      invariant m.None?
      invariant forall j :: 0 <= j < i ==> RuleMove(hands[j], speed).None?
    {
      var lm := hands[i];
      if ThumbExtended(lm) && CountFingers(lm) == 0 {
        m := Some(Move(UD, speed / 2));
        break;
      }
      if IsOnlyPinky(lm) {
        m := Some(Move(UD, speed));
        break;
      }
      if IsHorns(lm) {
        m := Some(Move(UD, -speed));
        break;
      }
      if IsCw(lm) {
        m := Some(Move(Yaw, speed));
        break;
      }
      var n := CountFingers(lm);
      if n == 1 && !ThumbExtended(lm) {
        m := Some(Move(FB, speed));
        break;
      } else if n == 2 {
        m := Some(Move(FB, -speed));
        break;
      } else if n == 3 {
        m := Some(Move(LR, speed));
        break;
      } else if n == 4 {
        if !ThumbExtended(lm) {
          m := Some(Move(LR, -speed));
        } else {
          m := Some(Move(Yaw, -speed));
        }
        break;
      }
      i := i + 1;
    }
    if m.Some? {
      FirstMoveAt(hands, speed, i);
    }
  }

  /** When hand `i` is the first one a rule matches, it decides the move. */
  lemma {:induction false} FirstMoveAt(hands: seq<Hand>, speed: int, i: nat)
    requires i < |hands|
    requires forall j :: 0 <= j < i ==> RuleMove(hands[j], speed).None?
    requires RuleMove(hands[i], speed).Some?
    ensures FirstMove(hands, speed) == RuleMove(hands[i], speed)
    decreases i
  {
    if i > 0 {
      assert forall j :: 0 <= j < i - 1 ==> hands[1..][j] == hands[j + 1];
      FirstMoveAt(hands[1..], speed, i - 1);
    }
  }

  /** A hand that is a fist has no finger up, so the count-based rules are
      never reached by it. */
  lemma FistHasNoFingerUp(lm: Hand)
    requires IsFist(lm)
    ensures CountFingers(lm) == 0
  {
  }

  /** Horns is tested before the two-finger rule, so index plus pinky descends
      instead of moving back. */
  lemma HornsBeatsTwoFingers(lm: Hand, speed: int)
    requires IsHorns(lm)
    ensures CountFingers(lm) == 2
    ensures RuleMove(lm, speed) == Some(Move(UD, -speed))
  {
  }

  /** The four-finger rule splits on the thumb: lateral left without it,
      counter-clockwise yaw with it. */
  lemma FourFingersSplit(lm: Hand, speed: int)
    requires forall f :: Up(lm, f)
    ensures ThumbExtended(lm) ==> RuleMove(lm, speed) == Some(Move(Yaw, -speed))
    ensures !ThumbExtended(lm) ==> RuleMove(lm, speed) == Some(Move(LR, -speed))
  {
  }
}
