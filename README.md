# Drone flight-control core, modelled in Dafny

The repository drives a small camera drone (a DJI Tello) from a laptop. Each
script is a control loop. It reads a video frame and some telemetry. It then
finds a target: a coloured blob (HSV segmentation and contours) or a hand
pose (hand landmarks). It turns that target into velocities on four axes:
lateral, forward/back, vertical and yaw. It merges them with the keys the
operator holds and applies two safety interlocks:

- no takeoff at or below 15 % battery;
- a forced landing at or below 10 % while airborne.

The vertical-rise key also stops at a 300 cm ceiling. Finally the script
sends one `rc` command per cycle, but only while airborne.

The model covers these scripts:

- **Practicas/3/si.py** (gesture control). Finger counting, the gesture
  rules, the fist hold (a fist held past one second toggles takeoff and land,
  or warns at low battery, at most once per hold), the keyboard, the warnings and the drone cycle.
- **Practicas/2/main.py, Practicas/2/Tests/main_yaw_tracker.py and
  Practicas/2/Tests/main_yaw_vertical_follow_tracker.py** (colour trackers).
  Contour detection, direction labels, bang-bang axis controllers, manual
  override flags and the safety cycle.
- **Practicas/1/main_tkinter.py and Practicas/1/main_with_arrows.py**
  (keyboard pilots). Their key maps, the fixed speed of 60, and flips.
- **Clases/Introduction/MainV2.py, Practicas/2/control_dron2.py and
  Clases/ColorTracking/color_tracking.py**. Their `while True` loops are
  modelled over a finite sequence of passes.

## How the model is built

**One state for all Tk scripts.** Every Tk script keeps its state in module
globals. The model gathers those globals in one value,
`FlightState.State`, parameterised by the script (`FlightState.Variant`).
The state includes a log of every command sent to the drone:
`Takeoff`, `Land`, `Rc(axes)` and `Flip(dir)`.

**Reference functions.** The Tk callbacks are pure functions on
this state: `Keyboard.KeyPress` / `KeyRelease`,
`GestureControl.GestureCycle` and the `Tracking` cycles.

**The controller object.** The class `Controller.Controller` has one field
per global. Its methods update the fields in place. Each method is proved to
leave `Snap()` equal to the matching function applied to the old state, and
to keep `Valid()`. `Valid()` is the reachable-state invariant plus
`LogAgrees`: the `flying` flag always equals what the command log implies,
and every rc or flip command was sent while airborne. This holds for runs in
which no SDK call raises (see "## Left out").

**Telemetry and time.** Telemetry (battery, height), the camera, the dial
setting (trackbar) and the clock are parameters of each operation.

**Two loop forms.** The loops of MainV2.py and control_dron2.py are `while`
methods over a sequence of passes. They are proved equal to recursive `Run`
functions, and proved sound on every input.

**Behaviours of the code the model keeps as written.**

- The follow tracker's `w`/`s` handlers assign a local `manual_fb`: the
  `global` list of `key_press` (main_yaw_vertical_follow_tracker.py:205)
  omits it. The module flag therefore never changes, and the forward
  controller keeps running while `w` or `s` is held
  (`Tracking.ManualFbNeverSuppresses`).
- With no target, the trackers' controller blocks do not run, so the
  previous velocities persist (main_yaw_vertical_follow_tracker.py:290,
  300 and 310; `Tracking.FollowWithoutTargetKeepsVelocities`).
- The thumb-only rule of si.py:267-270 needs a thumb out and no finger
  counted up. The fist test of si.py:221 runs first and sees the same hand,
  so the rule fires only when some finger tip is exactly level with its
  joint: neither counted up nor folded (`Gestures.Classify`).

## Model

| member | source | states |
|---|---|---|
| Types.SetAxis | Practicas/3/si.py:265-313 | setting one axis gives it the new value and leaves the other three axes unchanged |
| Types.AppendCommand | Practicas/3/si.py:400-411 | appending a command: takeoff makes the drone airborne, land grounds it, others keep the flight state; the log stays sound iff a movement command is sent airborne |
| DeadZone.BoundariesInside | Practicas/2/main.py:118-132 | the centre and every point within the threshold of it are labelled as centred |
| DeadZone.Monotone | Practicas/2/main.py:118-132 | the three-way direction label is monotone in the coordinate |
| DeadZone.Symmetric | Practicas/2/main.py:118-132 | mirroring a point about the centre mirrors its label |
| Detection.LastAboveIsLast | Practicas/2/Tests/main_yaw_vertical_follow_tracker.py:113-124 | no target iff every contour area is at most the minimum; otherwise the target is the last contour above it |
| Detection.Kept | Practicas/2/main.py:108-116 | the kept contours are at most the input and all pass the area filter |
| Detection.KeptExactly | Practicas/2/main.py:108-116 | a contour is kept iff it occurs and passes the filter, and each passing contour is kept as often as it occurs |
| Detection.KeptAppend | Practicas/2/main.py:109-111 | the scan keeps order: a contour seen last is kept last, exactly when it passes |
| Detection.LabelContours | Practicas/2/main.py:99-132 | the loop yields one direction label per kept contour, in order |
| Detection.LabelsAppend | Practicas/2/main.py:108-116 | one more contour adds its label exactly when it passes the filter |
| Detection.LabelsAreKept | Practicas/2/main.py:108-116 | the labels correspond one-to-one, in order, to the kept contours |
| Detection.DetectAndLabel | Practicas/2/Tests/main_yaw_vertical_follow_tracker.py:98-143 | the single detection loop returns the last contour above the minimum area and the labels of all such contours |
| Detection.Zones640 | Practicas/2/main.py:32-34 | at 640x480 a box centre is left iff x < 256, right iff x > 384, up iff y < 192, down iff y > 288 |
| AxisControl.FollowYaw | Practicas/2/Tests/main_yaw_vertical_follow_tracker.py:290-297 | turns left iff the centre is left of 224, right iff right of 416, otherwise holds still |
| AxisControl.FollowUd | Practicas/2/Tests/main_yaw_vertical_follow_tracker.py:300-307 | climbs iff the centre is above 168, descends iff below 312, otherwise holds |
| AxisControl.FollowFb | Practicas/2/Tests/main_yaw_vertical_follow_tracker.py:310-316 | advances iff the area is under 1500, retreats iff over 20000, otherwise 0; the value is always +speed, -speed or 0 |
| AxisControl.TrackYaw | Practicas/2/Tests/main_yaw_tracker.py:250-257 | yaw -15 iff the centre is left of 256, +15 iff right of 384, 0 in between |
| AxisControl.OffsetYaw | Practicas/2/control_dron2.py:60-62 | yaw is positive iff the offset exceeds +20, negative iff below -20, zero within the tolerance |
| AxisControl.OffsetUd | Practicas/2/control_dron2.py:64-66 | climbs iff the target is more than 20 px above centre, descends iff more than 20 px below |
| AxisControl.ProximityFb | Practicas/2/control_dron2.py:68-72 | advances iff the area is under 6000, retreats iff over 12000 |
| AxisControl.OffsetIsDeadZone | Practicas/2/control_dron2.py:55-66 | the offset controllers are the dead-zone classifier with a threshold of 20 |
| AxisControl.CentredTargetHolds | Practicas/2/Tests/main_yaw_vertical_follow_tracker.py:290-307 | a target at the frame centre commands no yaw and no vertical motion in every controller |
| AxisControl.YawThresholdIsStrict | Practicas/2/Tests/main_yaw_vertical_follow_tracker.py:290-297 | the follow yaw threshold is strict: one pixel past it turns, the threshold itself does not |
| Gestures.CountFingers | Practicas/3/si.py:39-42 | the count is at most 4; it is 0 iff no finger is up and 4 iff all are up |
| Gestures.Classify | Practicas/3/si.py:221-313 | fist iff every finger is down; horns and the CW pose always win over the counting rules; an unmatched hand has at most one finger up |
| Gestures.RuleMove | Practicas/3/si.py:265-313 | for a non-fist hand the rule chain gives the move of its classification, with magnitude speed/2 or speed |
| Gestures.FirstMove | Practicas/3/si.py:265-313 | no move iff no hand matches a rule; otherwise the move of the first hand that matches |
| Gestures.ScanHands | Practicas/3/si.py:265-313 | the hand loop with its early breaks computes the first matching move |
| Gestures.FirstMoveAt | Practicas/3/si.py:265-313 | the first matching hand decides the move |
| Gestures.FistHasNoFingerUp | Practicas/3/si.py:49-52 | a fist has no finger counted up |
| Gestures.HornsBeatsTwoFingers | Practicas/3/si.py:281-285 | index plus pinky counts two fingers yet descends rather than moving back |
| Gestures.FourFingersSplit | Practicas/3/si.py:306-312 | four fingers up: yaw left with the thumb out, lateral left without it |
| FlightState.Warn | Practicas/3/si.py:240-242 | warnings are recorded with their time only by the scripts that display them |
| FlightState.ForcedLanding | Practicas/3/si.py:383-397 | airborne at or below 10 %: land and ground, warning where the script records warnings; otherwise nothing changes; only flight, log and warning can change |
| FlightState.EmitRc | Practicas/3/si.py:400-411 | the current velocities are sent iff airborne; nothing else changes |
| FlightState.Exit | Practicas/3/si.py:147-173 | the program ends grounded: an airborne drone gets a stop and a land command |
| FlightState.InitialInv | Practicas/3/si.py:85-100 | the start state is grounded with an empty log and satisfies the invariant |
| FlightState.SafetyKeepsInv | Practicas/3/si.py:383-411 | the safety check, the rc send and the exit keep the invariant |
| FlightState.StopAndLand | Practicas/3/si.py:147-173 | a stop-and-land sequence from the air grounds the drone and keeps the log sound |
| FlightState.SafetyAgrees | Practicas/3/si.py:383-411 | the safety check, the rc send and the exit keep the flight flag equal to what the log implies |
| Keyboard.RoleOf | Practicas/1/main_with_arrows.py:115-177 | every movement key has a sign of ±1 and its release zeroes the same axis; only the arrow script flips |
| Keyboard.SetOverride | Practicas/2/Tests/main_yaw_vertical_follow_tracker.py:34-37 | only the named override flag changes |
| Keyboard.Hold | Practicas/3/si.py:470-477 | a held key sets its axis, raises the flag only where the script has one, and changes neither flight nor log |
| Keyboard.Touch | Practicas/3/si.py:421-433 | si.py reads the dial and marks a key active on every press; the other scripts keep both |
| Keyboard.PressTakeoff | Practicas/3/si.py:439-456 | grounded: takes off above 15 %, otherwise warns and stays down; a failed read in si.py counts as 100 % |
| Keyboard.PressLand | Practicas/3/si.py:458-468 | the land key always leaves the drone grounded, sending stop and land only from the air |
| Keyboard.PressRise | Practicas/3/si.py:478-490 | the rise key climbs below 300 cm and is clamped to 0 with a warning at or above it |
| Keyboard.PressFlip | Practicas/1/main_with_arrows.py:162-177 | a flip is sent only in the air and changes nothing else |
| Keyboard.Press | Practicas/3/si.py:421-497 | a press takes off only through the takeoff key above the floor; only the exit key exits |
| Keyboard.KeyPress | Practicas/2/main.py:189-234 | the same, for a key by name |
| Keyboard.KeyRelease | Practicas/3/si.py:499-512 | a release zeroes its own axis and clears its flag; flight and log never change |
| Keyboard.KeyMap | Practicas/1/main_with_arrows.py:115-177 | the exit, takeoff, land and rise keys of each script have those roles; letter and arrow maps differ |
| Keyboard.TakeoffInterlock | Practicas/2/main.py:197-205 | takeoff happens iff the battery is above 15 %, otherwise a low-battery warning with the press time |
| Keyboard.GestureBatteryFallback | Practicas/3/si.py:439-446 | in si.py a failed battery read lets the takeoff go ahead |
| Keyboard.TriggersInTargetStateAreNoops | Practicas/2/main.py:197-212 | takeoff while airborne and land while grounded change nothing |
| Keyboard.LandKeyLands | Practicas/2/main.py:207-212 | landing from the air sends stop then land and clears the flight flag |
| Keyboard.CeilingInterlock | Practicas/2/main.py:223-229 | climb iff below 300 cm; at or above, the vertical velocity is zeroed, a warning recorded and no flag raised |
| Keyboard.MoveKeySetsOwnAxis | Practicas/1/main_tkinter.py:155-189 | a movement key sets only its axis, and releasing it zeroes that axis again |
| Keyboard.FixedSixty | Practicas/1/main_tkinter.py:155-174 | the keyboard pilots move at 60 whatever the dial |
| Keyboard.FlipOnlyWhenFlying | Practicas/1/main_with_arrows.py:162-177 | flips are sent only in the air and touch neither velocities nor flight state |
| Keyboard.YawOverrideFlag | Practicas/2/Tests/main_yaw_tracker.py:209-224 | e/q raise the manual yaw flag in both trackers and their release clears it |
| Keyboard.UdOverrideFlag | Practicas/2/Tests/main_yaw_vertical_follow_tracker.py:233-264 | f raises the manual vertical flag, r raises it below the ceiling, and the release clears it |
| Keyboard.PressNeverRaisesManualFb | Practicas/2/Tests/main_yaw_vertical_follow_tracker.py:223-228 | no key press changes the module-level manual forward flag |
| Keyboard.ReleaseKeepsManualFb | Practicas/2/Tests/main_yaw_vertical_follow_tracker.py:251-264 | no key release changes the module-level manual forward flag |
| Keyboard.PressRaisesOnlyOwnFlags | Practicas/2/Tests/main_yaw_vertical_follow_tracker.py:204-249 | override flags rise only in the scripts that have them; the Practicas/1 pilots never warn |
| Keyboard.KeyPressKeepsInv | Practicas/3/si.py:421-497 | a key press keeps the invariant |
| Keyboard.KeyReleaseKeepsInv | Practicas/3/si.py:499-512 | a key release keeps the invariant |
| Keyboard.PressAgrees | Practicas/3/si.py:421-497 | every key role keeps the flight flag equal to what the log implies, and moves only in the air |
| Keyboard.KeyHandlersAgree | Practicas/2/main.py:189-244 | both key handlers keep that agreement |
| GestureControl.HasFist | Practicas/3/si.py:221 | the search reports whether some hand is a fist |
| GestureControl.ExpireWarning | Practicas/3/si.py:363-367 | a warning survives only for 3 s after it was recorded; nothing else changes |
| GestureControl.Toggle | Practicas/3/si.py:228-253 | a confirmed fist takes off above 15 %, warns at or below it, or lands from the air |
| GestureControl.FistCycle | Practicas/3/si.py:224-255 | the first fist starts the hold timer; after 1 s an unconfirmed hold toggles once and is confirmed; velocities unchanged |
| GestureControl.SteerCycle | Practicas/3/si.py:256-313 | a non-fist frame resets the hold, zeroes the velocities unless a key is held, then applies the first matching rule |
| GestureControl.ProcessGestures | Practicas/3/si.py:175-327 | a failed camera read changes nothing; no hand zeroes the velocities unless a key is held; a fist keeps them; otherwise the rules steer |
| GestureControl.GestureCycle | Practicas/3/si.py:330-411 | one cycle never changes the key flag, the overrides or the target |
| GestureControl.CriticalBatteryLands | Practicas/3/si.py:383-397 | at or below 10 % in the air the cycle lands, grounds the drone and warns with the cycle time |
| GestureControl.RcCarriesVelocities | Practicas/3/si.py:400-411 | above 10 % the cycle sends exactly the gesture velocities, iff airborne |
| GestureControl.FirstFistCycleStartsTimer | Practicas/3/si.py:224-227 | the first fist frame starts the timer at the current time, unconfirmed and without moving |
| GestureControl.FistToggles | Practicas/3/si.py:228-253 | a held fist past 1 s toggles takeoff or land, or warns at low battery |
| GestureControl.FistWithoutToggle | Practicas/3/si.py:224-255 | a fist that has not yet fired changes neither the timer nor the flight |
| GestureControl.AtMostOneAxis | Practicas/3/si.py:262-313 | with no key held, a gesture frame drives at most one axis: the first rule's axis |
| GestureControl.OneAxisOfZero | Practicas/3/si.py:262-313 | one axis set from rest leaves at most one axis non-zero |
| GestureControl.HeldKeySurvivesGesture | Practicas/3/si.py:262-263 | with a key held, axes no gesture touches keep their key velocities |
| GestureControl.NoHandKeepsTimer | Practicas/3/si.py:206-217 | an empty frame keeps the hold timer and zeroes the velocities unless a key is held; a failed read changes nothing |
| GestureControl.GestureCycleKeepsInv | Practicas/3/si.py:330-411 | the gesture cycle keeps the invariant |
| GestureControl.GestureCycleAgrees | Practicas/3/si.py:330-411 | the gesture cycle keeps the flight flag equal to what the log implies |
| GestureControl.GesturesAgree | Practicas/3/si.py:175-327 | gesture processing keeps that agreement |
| GestureControl.HoldCycle | Practicas/3/si.py:221-255 | while the fist is held, the timer and confirmation persist and a firing cycle confirms |
| GestureControl.ConfirmedHoldIsQuiet | Practicas/3/si.py:228-253 | a confirmed hold toggles no more, however long it lasts |
| GestureControl.OneTogglePerHold | Practicas/3/si.py:221-259 | one continuous hold toggles at most once |
| GestureControl.ShortHoldNeverToggles | Practicas/3/si.py:228 | a hold shorter than 1 s never toggles |
| GestureControl.FreshHoldTimer | Practicas/3/si.py:224-227 | starting a hold sets the timer to the cycle time and never fires in that cycle |
| Tracking.FollowSteer | Practicas/2/Tests/main_yaw_vertical_follow_tracker.py:290-316 | lateral never changes; grounded or without a target the velocities are kept |
| Tracking.FollowCycle | Practicas/2/Tests/main_yaw_vertical_follow_tracker.py:272-320 | the cycle sets the dial speed and the last contour target, and changes no flag or hold state |
| Tracking.YawSteer | Practicas/2/Tests/main_yaw_tracker.py:250-257 | only yaw changes, and not when grounded, without a target or under manual yaw |
| Tracking.YawCycle | Practicas/2/Tests/main_yaw_tracker.py:232-261 | the cycle sets the dial speed and the last target above 307.2, changing no flag |
| Tracking.LabelCycle | Practicas/2/main.py:252-275 | the labelling cycle keeps the velocities and sets only the dial speed |
| Tracking.BasicCycle | Practicas/1/main_tkinter.py:105-115 | the pilot cycle changes no velocity, speed or warning |
| Tracking.FollowTracksLastContour | Practicas/2/Tests/main_yaw_vertical_follow_tracker.py:272-320 | airborne above 10 %, each axis without a flag follows the last contour and the commanded velocities are sent |
| Tracking.FollowWithoutTargetKeepsVelocities | Practicas/2/Tests/main_yaw_vertical_follow_tracker.py:286-316 | without a target, or grounded, the previous velocities are kept |
| Tracking.FollowCriticalBattery | Practicas/2/Tests/main_yaw_vertical_follow_tracker.py:173-177 | at or below 10 % in the air the tracker lands and grounds the drone |
| Tracking.FollowOverridesHold | Practicas/2/Tests/main_yaw_vertical_follow_tracker.py:290-307 | an axis with its manual flag keeps its key velocity |
| Tracking.ManualFbNeverSuppresses | Practicas/2/Tests/main_yaw_vertical_follow_tracker.py:223-228 | after w or s the forward axis is still driven by the area controller when a target is seen |
| Tracking.YawTracksLastContour | Practicas/2/Tests/main_yaw_tracker.py:232-261 | airborne above 10 % with no manual yaw, yaw follows the last contour |
| Tracking.YawHeldWithoutControl | Practicas/2/Tests/main_yaw_tracker.py:250-257 | grounded, under manual yaw or without a target, the velocities are kept |
| Tracking.YawCriticalBattery | Practicas/2/Tests/main_yaw_tracker.py:147-151 | at or below 10 % in the air the yaw tracker lands |
| Tracking.KeyboardCyclesOnlyEmit | Practicas/1/main_tkinter.py:105-115 | the labelling and pilot cycles only land at low battery and send the held velocities |
| Tracking.BasicCycleDoesNotRecord | Practicas/1/main_tkinter.py:105-108 | the pilots' forced landing records no warning |
| Tracking.CyclesKeepInv | Practicas/2/main.py:252-289 | every tracker and pilot cycle keeps the invariant |
| Tracking.FollowCycleAgrees | Practicas/2/Tests/main_yaw_vertical_follow_tracker.py:272-320 | the follow cycle keeps the flight flag equal to what the log implies |
| Tracking.YawCycleAgrees | Practicas/2/Tests/main_yaw_tracker.py:232-261 | the yaw cycle keeps that agreement |
| Tracking.KeyboardCyclesAgree | Practicas/1/main_tkinter.py:105-115 | the labelling and pilot cycles keep that agreement |
| Controller.Controller.constructor | Practicas/3/si.py:85-100 | a new controller holds the script's initial state and is valid |
| Controller.Controller.HoldAxis | Practicas/3/si.py:470-477 | the fields change as a held movement key specifies |
| Controller.Controller.TryTakeoff | Practicas/3/si.py:439-456 | the fields change as the takeoff key specifies |
| Controller.Controller.TryRise | Practicas/3/si.py:478-490 | the fields change as the rise key specifies |
| Controller.Controller.Shutdown | Practicas/3/si.py:147-173 | the fields change as the program exit specifies |
| Controller.Controller.LandNow | Practicas/3/si.py:458-468 | the fields change as the land key specifies |
| Controller.Controller.FlipNow | Practicas/1/main_with_arrows.py:162-177 | the fields change as a flip key specifies |
| Controller.Controller.Act | Practicas/3/si.py:421-497 | the fields change as the key's role specifies |
| Controller.Controller.PressKey | Practicas/3/si.py:421-497 | `key_press` updates the fields as the press function specifies and keeps the controller valid |
| Controller.Controller.ReleaseKey | Practicas/3/si.py:499-512 | `key_release` updates the fields as specified and keeps the controller valid |
| Controller.Controller.Release | Practicas/3/si.py:499-512 | the fields change as the release of the key specifies |
| Controller.Controller.SafetyLanding | Practicas/3/si.py:383-397 | the fields change as the forced landing specifies |
| Controller.Controller.SendRc | Practicas/3/si.py:400-411 | the log grows as the rc send specifies |
| Controller.Controller.FistHold | Practicas/3/si.py:224-255 | the fields change as the fist branch specifies |
| Controller.Controller.HandleGestures | Practicas/3/si.py:175-327 | the fields change as gesture processing specifies |
| Controller.Controller.SteerByHands | Practicas/3/si.py:256-313 | the fields change as the steering branch specifies |
| Controller.Controller.ExpireStep | Practicas/3/si.py:363-367 | the warning expires as specified |
| Controller.Controller.GestureFrame | Practicas/3/si.py:330-418 | `update_frame` of si.py updates the fields as the gesture cycle specifies and keeps the controller valid |
| Controller.Controller.FollowFrame | Practicas/2/Tests/main_yaw_vertical_follow_tracker.py:272-330 | the follow tracker's frame updates the fields as specified, returns the labels of every contour above the area minimum, and keeps the controller valid |
| Controller.Controller.FollowUpdate | Practicas/2/Tests/main_yaw_vertical_follow_tracker.py:272-320 | the fields change as the follow cycle specifies, and the labels are those of every contour above the area minimum |
| Controller.Controller.FollowSteps | Practicas/2/Tests/main_yaw_vertical_follow_tracker.py:290-316 | only the velocities change, to the follow controllers' output |
| Controller.Controller.YawFrame | Practicas/2/Tests/main_yaw_tracker.py:232-270 | the yaw tracker's frame updates the fields as specified, returns the labels, and keeps the controller valid |
| Controller.Controller.YawUpdate | Practicas/2/Tests/main_yaw_tracker.py:232-261 | the fields change as the yaw cycle specifies, and the labels are those of every contour above 307.2 |
| Controller.Controller.LabelFrame | Practicas/2/main.py:252-289 | the labelling frame updates the fields as specified, returns the labels, and keeps the controller valid |
| Controller.Controller.BasicFrame | Practicas/1/main_tkinter.py:76-122 | the pilot frame updates the fields as specified and keeps the controller valid |
| IntroLoop.DriveFor | Clases/Introduction/MainV2.py:71-76 | w drives forward at 60, s back at 60, any other key stops |
| IntroLoop.Control | Clases/Introduction/MainV2.py:28-78 | the loop computes the run of its passes |
| IntroLoop.NoFrameSkips | Clases/Introduction/MainV2.py:36-37 | a pass without a frame changes nothing |
| IntroLoop.TakeoffAndLand | Clases/Introduction/MainV2.py:58-69 | t takes off only from the ground and l lands only from the air |
| IntroLoop.DriveHasNoHoldState | Clases/Introduction/MainV2.py:71-76 | the forward velocity depends on the current key alone |
| IntroLoop.SendsOnlyWhileFlying | Clases/Introduction/MainV2.py:58-78 | a pass sends its forward velocity exactly when the drone is airborne after its key |
| IntroLoop.AppendForward | Clases/Introduction/MainV2.py:71-78 | appending a takeoff, a land or a forward/back rc keeps every rc of the log forward/back only |
| IntroLoop.QuitSound | Clases/Introduction/MainV2.py:54-56 | q ends the loop with an airborne drone stopped and landed, keeping the loop sound |
| IntroLoop.KeySound | Clases/Introduction/MainV2.py:58-78 | every other key keeps the loop sound |
| IntroLoop.StepSound | Clases/Introduction/MainV2.py:28-78 | one pass keeps the loop sound: flag agrees with the log, rc only in the air and only forward/back |
| IntroLoop.RunSound | Clases/Introduction/MainV2.py:28-78 | every run keeps the loop sound |
| IntroLoop.QuitLands | Clases/Introduction/MainV2.py:54-56 | after q the loop has ended with the drone on the ground |
| AutoLoop.Trunc | Practicas/2/control_dron2.py:44-45 | conversion to int truncates toward zero |
| AutoLoop.Largest | Practicas/2/control_dron2.py:38 | the index of the first largest contour |
| AutoLoop.Pursue | Practicas/2/control_dron2.py:58 | the autonomous command never moves sideways |
| AutoLoop.FindLargest | Practicas/2/control_dron2.py:37-39 | the scan finds the first largest contour |
| AutoLoop.MainLoop | Practicas/2/control_dron2.py:22-112 | the loop computes the run of its passes |
| AutoLoop.LookUsesLargest | Practicas/2/control_dron2.py:37-45 | a target exists iff the largest area exceeds 500 and has a centroid; no blob above 500 means nothing is seen |
| AutoLoop.PursuitDirections | Practicas/2/control_dron2.py:51-72 | yaw, climb and approach each follow the offset with a 20 px tolerance and the 6000–12000 band |
| AutoLoop.AutonomousThenStop | Practicas/2/control_dron2.py:74-77 | the autonomous command is sent only in the air, followed at once by a stop |
| AutoLoop.YawLeftIsUnreachable | Practicas/2/control_dron2.py:105-106 | the yaw-left key branch is dead: no key sends that command, because the `q` that ends the loop is tested first |
| AutoLoop.KeyDispatch | Practicas/2/control_dron2.py:84-112 | t and l act unconditionally; other keys only in the air; an unknown key in the air sends a stop |
| AutoLoop.StepSound | Practicas/2/control_dron2.py:22-112 | one pass keeps the flight flag equal to what the log implies, with rc only in the air |
| AutoLoop.RunSound | Practicas/2/control_dron2.py:22-112 | every run keeps that soundness |
| AutoLoop.QuitLeavesFlight | Practicas/2/control_dron2.py:86-87 | q ends the loop without landing the drone |
| ColorTracking.TrackLoop | Clases/ColorTracking/color_tracking.py:50-142 | the loop outputs the labelling of every processed frame |
| ColorTracking.FramesStop | Clases/ColorTracking/color_tracking.py:50-142 | each output is the labels of the frame read at that pass; the loop stops at the first failed read or after the first q |
| ColorTracking.ColorZones | Clases/ColorTracking/color_tracking.py:9-10 | at 800x600 the horizontal band is 320–480 and the vertical 220–380; contours under 24000 are labelled |

## Left out

- Video capture, MediaPipe hand landmarks, OpenCV segmentation and drawing, the Tello SDK, Tk windows, trackbars, overlays and scheduling. These are external collaborators. Contours and hand landmarks are inputs; drone commands are appended to a log.
- `time.sleep` pauses between commands are not modelled; only the order of the commands is.
- Telemetry that raises: in the key handlers it is an `Option` (si.py falls back to 100 % battery / 0 cm height). A raise inside `update_frame` goes to `clean_exit`, which is not modelled; its per-cycle battery is a plain integer.
- clean_exit: only its landing part is modelled (`FlightState.Exit`); stream shutdown, window teardown and `sys.exit` are left out. `FlightState.Exit` clears `flying` for every script. Only si.py (si.py:153-160) and Practicas/1 (main_tkinter.py:57-70, main_with_arrows.py:44-52) clear it; Practicas/2/main.py:175-187, main_yaw_tracker.py:165-176 and main_yaw_vertical_follow_tracker.py:191-202 land and leave it set, which no later step can observe because `sys.exit()` follows.
- SDK calls that raise: the model assumes every SDK call returns normally. In si.py, the landing sequences of clean_exit (si.py:154-159), the fist landing (si.py:245-250) and the `l` key (si.py:461-466) sit in `try … except Exception: pass`. A raising `send_rc_control` there skips `drone.land()`, yet `flying` is still cleared. In Practicas/2/main.py:204-205, the trackers (main_yaw_tracker.py:189, main_yaw_vertical_follow_tracker.py:215) and Practicas/1 (main_tkinter.py:143, main_with_arrows.py:129), a raising `drone.takeoff()` aborts the handler and leaves `flying` false. The model logs both commands and updates `flying` as if each call succeeded, so `FlightState.LogAgrees` and `Controller.Controller.Valid` describe runs in which no SDK call raises.
- si.py calls `time.time()` several times per cycle; the model takes one clock value per cycle.
- Key codes: `waitKey` masking and Tk keysym names become characters and a small `Key` datatype; non-ASCII keys are `OtherKey`.
- Keyboard.RoleOf: key dispatch is stated per role rather than as one `if` chain per script.
- Contour geometry: areas and bounding boxes are inputs. `approxPolyDP` and the moments are not computed.
- Areas and timestamps are reals; the float rounding of the source is not modelled.
- HSV bounds and colour masks (configuration of the segmentation) are left out.
- The text labels drawn on frames become a pair of zones per contour.
- control_dron2.py: a blob above 500 with a zero moment crashes `cv2.circle` with `None`. The model ends the loop there, marked crashed.
- Clases/Introduction/MainV2.py: the `KeyboardInterrupt` handler is not modelled.
- Practicas/2/main.py and the trackers display the warning overlay without clearing it; only si.py clears expired warnings (modelled as `GestureControl.ExpireWarning`).
- Practicas/1/main.py, Practicas/1/test.py, Practicas/1/Camera_Tkinter.py and Clases/AI are not part of this model.
- The follow tracker's `follow_yaw` flag (main_yaw_vertical_follow_tracker.py:34) is a constant `True` that no code changes; the controller guards leave it out.
- The infinite loops are modelled on finite sequences of passes; nothing is said about non-termination.
