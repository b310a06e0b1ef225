/** The `control` loop of Clases/Introduction/MainV2.py: poll a frame, read a
    key, take off, land, or drive forward and back, and send the forward
    velocity while flying. */
module IntroLoop {
  import opened Types

  /** One pass of the loop: the frame read returned nothing, or a frame was
      shown and `key` is the code `waitKey` returned (masked to a byte). */
  datatype Poll = NoFrame | Frame(key: char)

  /** The loop's locals, the commands sent, and whether the loop has ended. */
  datatype Loop = Loop(flying: bool, fb: int, log: seq<Command>, done: bool)

  const Start := Loop(false, 0, [], false)

  /** Forward/back speed of the `w` and `s` keys. */
  const DriveSpeed := 60

  /** `fb_vel` after a key: recomputed each pass, never held. */
  function DriveFor(key: char): (fb: int)
    ensures key == 'w' ==> fb == DriveSpeed
    ensures key == 's' ==> fb == -DriveSpeed
    ensures key != 'w' && key != 's' ==> fb == 0
  {
    if key == 'w' then DriveSpeed else if key == 's' then -DriveSpeed else 0
  }

  /** One pass of the loop body. */
  function Step(s: Loop, p: Poll): Loop {
    match p
    case NoFrame => s
    case Frame(key) =>
      if key == 'q' then
        // clean_exit: stop and land if airborne, then leave the loop
        s.(log := if s.flying then s.log + [Rc(Zero), Land] else s.log, done := true)
      else
        var s1 := if key == 't' && !s.flying then s.(log := s.log + [Takeoff], flying := true) else s;
        var s2 := if key == 'l' && s1.flying then s1.(log := s1.log + [Land], flying := false) else s1;
        var fb := DriveFor(key);
        s2.(fb := fb, log := if s2.flying then s2.log + [Rc(Axes(0, fb, 0, 0))] else s2.log)
  }

  /** The loop run on a finite sequence of passes; it stops at `q`. */
  function Run(s: Loop, ps: seq<Poll>): Loop
    decreases |ps|
  {
    if |ps| == 0 || s.done then s else Run(Step(s, ps[0]), ps[1..])
  }

  /** `control()`, on the passes `ps`. */
  method Control(ps: seq<Poll>) returns (s: Loop)
    ensures s == Run(Start, ps)
  {
    var flying := false;
    var fb := 0;
    var log: seq<Command> := [];
    var i := 0;
    while i < |ps|
      invariant 0 <= i <= |ps|
      invariant Run(Loop(flying, fb, log, false), ps[i..]) == Run(Start, ps)
    {
      assert ps[i..][1..] == ps[i + 1..];
      if ps[i].NoFrame? {
        i := i + 1;
        continue;
      }
      var key := ps[i].key;
      if key == 'q' {
        if flying {
          log := log + [Rc(Zero), Land];
        }
        return Loop(flying, fb, log, true);
      }
      if key == 't' {
        if !flying {
          log := log + [Takeoff];
          flying := true;
        }
      }
      if key == 'l' {
        if flying {
          log := log + [Land];
          flying := false;
        }
      }
      if key == 'w' {
        fb := DriveSpeed;
      } else if key == 's' {
        fb := -DriveSpeed;
      } else {
        fb := 0;
      }
      if flying {
        log := log + [Rc(Axes(0, fb, 0, 0))];
      }
      i := i + 1;
    }
    s := Loop(flying, fb, log, false);
  }

  // ---------------------------------------------------------------------
  // Properties
  // ---------------------------------------------------------------------

  /** A pass without a frame handles no key and changes nothing. */
  lemma NoFrameSkips(s: Loop)
    ensures Step(s, NoFrame) == s
  {
  }

  /** `t` takes off only from the ground and `l` lands only in the air;
      either is a no-op otherwise, apart from the rc command. */
  lemma TakeoffAndLand(s: Loop)
    requires !s.done
    ensures var r := Step(s, Frame('t'));
      r.flying && r.log == s.log + (if s.flying then [] else [Takeoff]) + [Rc(Axes(0, 0, 0, 0))]
    ensures var r := Step(s, Frame('l'));
      !r.flying && r.log == s.log + (if s.flying then [Land] else [])
  {
  }

  /** `fb_vel` has no memory: after a pass it depends on the key alone. */
  lemma DriveHasNoHoldState(s1: Loop, s2: Loop, key: char)
    requires key != 'q'
    ensures Step(s1, Frame(key)).fb == Step(s2, Frame(key)).fb == DriveFor(key)
  {
  }

  /** Each pass sends `(0, fb, 0, 0)` exactly when the drone is flying after
      its key was handled. */
  lemma SendsOnlyWhileFlying(s: Loop, key: char)
    requires key != 'q'
    ensures var r := Step(s, Frame(key));
      && (r.flying ==> |r.log| > 0 && r.log[|r.log| - 1] == Rc(Axes(0, r.fb, 0, 0))
                       && (r.log[..|r.log| - 1] == s.log || r.log[..|r.log| - 1] == s.log + [Takeoff]))
      && (!r.flying ==> r.log == s.log || r.log == s.log + [Land])
  {
  }

  /** Every rc command in `log` drives only forward or back. */
  predicate ForwardOnly(log: seq<Command>) {
    forall i :: 0 <= i < |log| && log[i].Rc? ==> log[i].v == Axes(0, log[i].v.fb, 0, 0)
  }

  /** What every state of the loop satisfies: `flying` agrees with the
      commands sent, every rc command was sent in the air and drives only
      forward or back, and a finished loop has landed the drone. */
  predicate Sound(s: Loop) {
    && SentWhileAirborne(s.log)
    && ForwardOnly(s.log)
    && (if s.done then !Airborne(s.log) else s.flying == Airborne(s.log))
  }

  /** Appending a command that is not a sideways, vertical or yaw rc keeps
      the log forward-only. */
  lemma AppendForward(log: seq<Command>, c: Command)
    requires ForwardOnly(log)
    requires c.Rc? ==> c.v == Axes(0, c.v.fb, 0, 0)
    ensures ForwardOnly(log + [c])
  {
    assert forall i :: 0 <= i < |log| ==> (log + [c])[i] == log[i];
  }

  /** `q` from a sound running state lands an airborne drone and ends the loop. */
  lemma QuitSound(s: Loop)
    requires Sound(s) && !s.done
    ensures Sound(Step(s, Frame('q')))
  {
    if s.flying {
      AppendCommand(s.log, Rc(Zero));
      AppendForward(s.log, Rc(Zero));
      AppendCommand(s.log + [Rc(Zero)], Land);
      AppendForward(s.log + [Rc(Zero)], Land);
      assert s.log + [Rc(Zero), Land] == s.log + [Rc(Zero)] + [Land];
    }
  }

  /** Any other key keeps a running state sound: takeoff, land, then the
      forward command in the air. */
  lemma KeySound(s: Loop, key: char)
    requires Sound(s) && !s.done && key != 'q'
    ensures Sound(Step(s, Frame(key)))
  {
    var s1 := if key == 't' && !s.flying then s.(log := s.log + [Takeoff], flying := true) else s;
    if key == 't' && !s.flying {
      AppendCommand(s.log, Takeoff);
      AppendForward(s.log, Takeoff);
    }
    assert Sound(s1);
    var s2 := if key == 'l' && s1.flying then s1.(log := s1.log + [Land], flying := false) else s1;
    if key == 'l' && s1.flying {
      AppendCommand(s1.log, Land);
      AppendForward(s1.log, Land);
    }
    assert Sound(s2);
    var c := Rc(Axes(0, DriveFor(key), 0, 0));
    if s2.flying {
      AppendCommand(s2.log, c);
      AppendForward(s2.log, c);
    }
  }

  lemma StepSound(s: Loop, p: Poll)
    requires Sound(s) && !s.done
    ensures Sound(Step(s, p))
  {
    if p.Frame? {
      if p.key == 'q' {
        QuitSound(s);
      } else {
        KeySound(s, p.key);
      }
    }
  }

  /** The loop keeps its soundness on every input, from the start onwards. */
  lemma {:induction false} RunSound(s: Loop, ps: seq<Poll>)
    requires Sound(s)
    ensures Sound(Run(s, ps))
    decreases |ps|
  {
    if |ps| > 0 && !s.done {
      StepSound(s, ps[0]);
      RunSound(Step(s, ps[0]), ps[1..]);
    }
  }

  /** After `q` the loop is over and the drone is on the ground. */
  lemma QuitLands(ps: seq<Poll>)
    ensures var r := Run(Start, ps); Sound(r) && (r.done ==> !Airborne(r.log))
  {
    RunSound(Start, ps);
  }
}
