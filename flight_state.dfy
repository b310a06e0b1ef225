/** The state every Tk controller script keeps in module globals, as one
    value, with the safety rules and the rc emission that all of them share.
    The scripts differ only in details, named here by `Variant`. */
module FlightState {
  import opened Types
  import opened Detection

  /** Which script's behaviour a controller follows. */
  datatype Variant =
    | GestureControl   // Practicas/3/si.py
    | FollowTracker    // Practicas/2/Tests/main_yaw_vertical_follow_tracker.py
    | YawTracker       // Practicas/2/Tests/main_yaw_tracker.py
    | ColorLabels      // Practicas/2/main.py
    | BasicKeys        // Practicas/1/main_tkinter.py
    | ArrowKeys        // Practicas/1/main_with_arrows.py

  /** The warning on display; the scripts store a message text, here its kind. */
  datatype Warning = NoWarning | LowBatteryTakeoff | CeilingReached | CriticalBattery

  /** The `manual_yaw`, `manual_ud` and `manual_fb` override flags of the
      follow tracker (the yaw tracker has only the first). */
  datatype Overrides = Overrides(yaw: bool, ud: bool, fb: bool)

  const NoOverrides := Overrides(false, false, false)

  /** The globals: the four velocities, the `flying` flag, the speed dial value,
      the warning and its timestamp, `key_active`, the `manual_*` flags, the
      fist-hold timer, the last detected target, whether the program has
      exited, and the commands sent to the drone so far. */
  datatype State = State(
    vel: Axes,
    flying: bool,
    speed: int,
    warning: Warning,
    warningTime: real,
    keyActive: bool,
    manual: Overrides,
    fistStart: Option<real>,
    fistConfirmed: bool,
    target: Option<Target>,
    exited: bool,
    log: seq<Command>)

  /** Altitude ceiling for the rise key, in centimetres. */
  const MaxHeightCm := 300
  /** Takeoff is refused at or below this battery percentage. */
  const TakeoffFloor := 15
  /** Airborne at or below this battery percentage forces a landing. */
  const LandingFloor := 10
  /** Seconds a warning stays on screen. */
  const WarningDuration := 3.0
  /** The Practicas/1 scripts move at a fixed magnitude, not a dial value. */
  const FixedSpeed := 60

  /** Initial value of the `speed` global of each script. */
  function InitialSpeed(v: Variant): int {
    if v == FollowTracker then 20 else 60
  }

  function Initial(v: Variant): State {
    State(Zero, false, InitialSpeed(v), NoWarning, 0.0, false, NoOverrides,
          None, false, None, false, [])
  }

  /** The Practicas/1 scripts only print their warnings; the others keep a
      message and a timestamp for the overlay. */
  predicate RecordsWarnings(v: Variant) {
    v != BasicKeys && v != ArrowKeys
  }

  function Warn(v: Variant, s: State, w: Warning, now: real): (r: State)
    ensures RecordsWarnings(v) ==> r == s.(warning := w, warningTime := now)
    ensures !RecordsWarnings(v) ==> r == s
  {
    s.(warning := if RecordsWarnings(v) then w else s.warning,
       warningTime := if RecordsWarnings(v) then now else s.warningTime)
  }

  /** Critical battery: airborne at or below 10 % lands at once and records
      the warning (the rule of `draw_status` / `update_frame`). */
  function ForcedLanding(v: Variant, s: State, battery: int, now: real): (r: State)
    ensures s.flying && battery <= LandingFloor ==>
      !r.flying && r.log == s.log + [Land]
      && (RecordsWarnings(v) ==> r.warning == CriticalBattery && r.warningTime == now)
    ensures !(s.flying && battery <= LandingFloor) ==> r == s
    ensures !RecordsWarnings(v) ==> r.warning == s.warning && r.warningTime == s.warningTime
    ensures r.(flying := s.flying, log := s.log, warning := s.warning, warningTime := s.warningTime) == s
  {
    if s.flying && battery <= LandingFloor then
      var w := Warn(v, s, CriticalBattery, now);
      w.(log := w.log + [Land], flying := false)
    else s
  }

  /** Agreement on the fields the vision loops own: the fist-hold timer
      and the target. */
  predicate SameVision(s: State, r: State) {
    r.fistStart == s.fistStart && r.fistConfirmed == s.fistConfirmed && r.target == s.target
  }

  /** Agreement on the dial reading, `key_active` and whether the program has ended. */
  predicate SameDial(s: State, r: State) {
    r.speed == s.speed && r.keyActive == s.keyActive && r.exited == s.exited
  }

  /** Agreement on the recorded warning and its timestamp. */
  predicate SameAlert(s: State, r: State) {
    r.warning == s.warning && r.warningTime == s.warningTime
  }

  /** rc emission: while flying, send zeros when every velocity is zero and
      the velocities otherwise; grounded, send nothing. Both branches send the
      current velocities, so the command always equals `(lr, fb, ud, yaw)`. */
  function EmitRc(s: State): (r: State)
    ensures r.log == if s.flying then s.log + [Rc(s.vel)] else s.log
    ensures r == s.(log := r.log)
  {
    if s.flying then
      if s.vel.lr == 0 && s.vel.fb == 0 && s.vel.ud == 0 && s.vel.yaw == 0 then
        s.(log := s.log + [Rc(Axes(0, 0, 0, 0))])
      else
        s.(log := s.log + [Rc(s.vel)])
    else s
  }

  /** The landing part of `clean_exit`: stop and land if airborne, then the
      program ends. */
  function Exit(s: State): (r: State)
    ensures r.exited && !r.flying
    ensures r.log == if s.flying then s.log + [Rc(Zero), Land] else s.log
    ensures r.vel == s.vel && r.manual == s.manual && r.speed == s.speed && r.keyActive == s.keyActive
    ensures SameVision(s, r) && SameAlert(s, r)
  {
    if s.flying then s.(log := s.log + [Rc(Zero), Land], flying := false, exited := true)
    else s.(exited := true)
  }

  /** What holds of every state a script can reach from its initial state:
      flags a script never touches stay at their initial values, the fist
      timer's confirmation needs a running timer, and `manual_fb` is never
      set at module level in any script. */
  predicate Inv(v: Variant, s: State) {
    && (v != GestureControl ==> !s.keyActive && s.fistStart.None? && !s.fistConfirmed)
    && (v != FollowTracker ==> !s.manual.ud)
    && (v != FollowTracker && v != YawTracker ==> !s.manual.yaw)
    && !s.manual.fb
    && (!RecordsWarnings(v) ==> s.warning == NoWarning)
    && (s.fistConfirmed ==> s.fistStart.Some?)
  }

  lemma InitialInv(v: Variant)
    ensures Inv(v, Initial(v))
    ensures !Initial(v).flying && Initial(v).log == []
  {
  }

  /** The safety rules keep the invariant. */
  lemma SafetyKeepsInv(v: Variant, s: State, battery: int, now: real)
    requires Inv(v, s)
    ensures Inv(v, ForcedLanding(v, s, battery, now))
    ensures Inv(v, EmitRc(s))
    ensures Inv(v, Exit(s))
  {
  }

  /** The `flying` flag tells the truth about the commands sent: it agrees
      with the last takeoff or landing, and every rc and flip command went to
      an airborne drone. */
  predicate LogAgrees(s: State) {
    s.flying == Airborne(s.log) && SentWhileAirborne(s.log)
  }

  /** Stopping and landing an airborne drone leaves it grounded and keeps
      the log's discipline. */
  lemma StopAndLand(log: seq<Command>)
    requires Airborne(log) && SentWhileAirborne(log)
    ensures !Airborne(log + [Rc(Zero), Land]) && SentWhileAirborne(log + [Rc(Zero), Land])
  {
    AppendCommand(log, Rc(Zero));
    AppendCommand(log + [Rc(Zero)], Land);
    assert log + [Rc(Zero), Land] == log + [Rc(Zero)] + [Land];
  }

  /** The shared per-cycle rules and `clean_exit` keep the flag truthful. */
  lemma SafetyAgrees(v: Variant, s: State, battery: int, now: real)
    requires LogAgrees(s)
    ensures LogAgrees(ForcedLanding(v, s, battery, now))
    ensures LogAgrees(EmitRc(s))
    ensures LogAgrees(Exit(s))
  {
    AppendCommand(s.log, Land);
    AppendCommand(s.log, Rc(s.vel));
    if s.flying {
      StopAndLand(s.log);
    }
  }
}

