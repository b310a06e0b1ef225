/** Value types shared by every controller script: optional values, the
    four rc velocity axes, and the commands handed to the Tello transport. */
module Types {

  datatype Option<+T> = None | Some(value: T) {
    /** The value, or `default` when there is none (Python's `try/except` fallbacks). */
    function GetOr(default: T): T {
      if Some? then value else default
    }
  }

  /** The four rc velocities: lateral, forward/back, vertical and yaw. */
  datatype Axes = Axes(lr: int, fb: int, ud: int, yaw: int)

  const Zero := Axes(0, 0, 0, 0)

  datatype Axis = LR | FB | UD | Yaw

  function Get(a: Axes, axis: Axis): int {
    match axis
    case LR => a.lr
    case FB => a.fb
    case UD => a.ud
    case Yaw => a.yaw
  }

  /** `a` with the single axis `axis` set to `value`. */
  function SetAxis(a: Axes, axis: Axis, value: int): (r: Axes)
    ensures Get(r, axis) == value
    ensures forall other :: other != axis ==> Get(r, other) == Get(a, other)
  {
    match axis
    case LR => a.(lr := value)
    case FB => a.(fb := value)
    case UD => a.(ud := value)
    case Yaw => a.(yaw := value)
  }

  /** Number of axes whose velocity is not zero. */
  function NonZeroAxes(a: Axes): nat {
    (if a.lr != 0 then 1 else 0) + (if a.fb != 0 then 1 else 0)
    + (if a.ud != 0 then 1 else 0) + (if a.yaw != 0 then 1 else 0)
  }

  datatype FlipDir = FlipForward | FlipBack | FlipLeft | FlipRight

  /** What the controller sends to the drone, in the order it sends it. */
  datatype Command = Takeoff | Land | Rc(v: Axes) | Flip(dir: FlipDir)

  /** Whether the drone is in the air after receiving `log`: the last
      takeoff or landing command decides, and a fresh drone is on the ground. */
  function Airborne(log: seq<Command>): bool
    decreases |log|
  {
    if |log| == 0 then false
    else match log[|log| - 1]
      case Takeoff => true
      case Land => false
      case _ => Airborne(log[..|log| - 1])
  }

  /** Commands that only make sense to an airborne drone. */
  predicate Moves(c: Command) {
    c.Rc? || c.Flip?
  }

  /** Every rc and flip command in `log` was sent while the drone was in
      the air. */
  predicate SentWhileAirborne(log: seq<Command>) {
    forall i :: 0 <= i < |log| && Moves(log[i]) ==> Airborne(log[..i])
  }

  /** Appending one command: how it changes the flight status and the
      airborne discipline of the log. */
  lemma AppendCommand(log: seq<Command>, c: Command)
    ensures Airborne(log + [c]) == (if c == Takeoff then true else if c == Land then false else Airborne(log))
    ensures SentWhileAirborne(log + [c]) <==> SentWhileAirborne(log) && (Moves(c) ==> Airborne(log))
  {
    var l := log + [c];
    assert l[..|log|] == log;
    assert forall i :: 0 <= i < |log| ==> l[..i] == log[..i] && l[i] == log[i];
  }
}
