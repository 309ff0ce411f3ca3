# Robot arm control core, modelled in Dafny

This project models the control core of a four-joint SCARA-style robot arm with a gripper. The
arm's joints are field-oriented-control motor controllers reached over serial ports. The host
talks to each one in short ASCII lines: a command such as `MC2` goes out, and the controller
echoes a value back. The host accepts an operation only when the echo confirms it.

The model covers these parts:

- **Motor interface** (`hardware/FOCMC_interface.py`, module `MotorModel`, class `Motors.Motor`).
  Every exchange writes a command line and reads one reply. The reply is stripped and converted
  to the requested type, and the exchange goes into a bounded log. Each setter then accepts only
  its expected echo. The motor's `m_id`, `offset` and `control_mode` change only when the reply
  confirms.
- **Older motor interface** (`hardware/FOCMCInterface.py`, module `LegacyModel`, class
  `LegacyMotors.Motor`). The camel-case predecessor of the same protocol: no log, and a different
  exception policy. Lemmas relate it to the current interface.
- **End effectors** (`hardware/FOCBLDCEndEffector.py` and `hardware/ServoInterface.py`; modules
  `GripperModel` and `EndEffectors`). The motor-driven gripper accepts only a controller whose id
  is 5 and maps 0..100 onto motor angles. The hobby servo clamps its target to 10..150 and writes
  it as a line.
- **System** (`lib/system.py`; modules `SystemModel`, `HomingModel`, `Homing`, `Kinematics` and
  `RobotSystem`). Covered here:
  - port discovery, which registers controllers with ids 1-4 as joints;
  - the gripper search over the remaining ports;
  - binding and configuration of the four joints;
  - `motors_enabled` and `load_motors` with its calibration files;
  - the three homing procedures;
  - forward and inverse kinematics;
  - `jog`;
  - `smooth_move`, with its easing interpolation and convergence polling.
- **Helpers:**
  - the cubic Bezier easing of `lib/bezier.py` (module `Bezier`);
  - the G-code word reader and writer of `lib/gcode.py` (module `Gcode`, over `Text` and
    `Numerals`);
  - the numeric helpers and the per-report target update of `lib/gamepad.py` (module `Gamepad`);
  - the circular prioritised replay buffer and `unpack_batch` of `lib/mllib/common.py` (module
    `Replay`).

Design:

- Each stateful operation exists twice:
  - as a pure function over a value state (`MotorState`, `Arm`, `Ring`);
  - as a method of a class whose fields the source mutates.
  Each method's `ensures` ties the new state and the result to the function applied to `old`
  state. The properties the source promises are proved as lemmas about those functions.
- Python exceptions are `Result` failures carrying a `Fault` that names the exception and its
  message.
- A serial controller is a `Protocol.Device`. It holds the queue of replies it will give and the
  lines it was sent. An exhausted queue answers with the empty line, as a `readline` timeout does.
- Float formatting, float parsing and `round(x, 3)` are function values of a `Codec`.
  Trigonometry is a `Trig` of function values plus the identities the proofs need.
- `lib/system.py` imports `Motor` from `hardware/FOCMCInterface.py`, but it calls `set_voltage_limit`,
  `set_PIDs` and `set_control_mode`, which only `hardware/FOCMC_interface.py` defines. The system
  model therefore drives the current interface. The older class is modelled on its own.
  `hardware/FOCBLDCEndEffector.py` has the same import, and its constructor likewise calls
  `set_control_mode` and `set_voltage_limit`, so `GripperModel` also drives the current interface.
- The log bound follows the code rather than the documented capacity of 100. `_log_entry` drops
  the oldest entry only once the log already holds more than `LOG_SIZE` entries, so the log
  reaches 101 entries.

## Model

| member | source | states |
|---|---|---|
| Protocol.Device.WriteRead | hardware/FOCMC_interface.py:94-95 | one exchange appends the line to what the controller received and returns its next reply, the empty line once its replies run out |
| Protocol.ParseAs | hardware/FOCMC_interface.py:101-107 | a successful conversion yields a value of the requested Python type |
| Protocol.BoolAndStrNeverRaise | hardware/FOCMC_interface.py:177 | `str` and `bool` conversions never raise; `bool` is true for every non-empty reply, "0" included |
| Protocol.IntEchoReadsBack | hardware/FOCMC_interface.py:240-242 | an integer written with `str` is read back by `int` as the same integer |
| Protocol.Prefix3 | hardware/FOCMC_interface.py:363 | `s[:3]` is a prefix of `s` of length min(3, len s) |
| Protocol.ModesDistinguished | hardware/FOCMC_interface.py:358-363 | distinct modes have distinct `MC<d>` commands and distinct three-letter name prefixes |
| Protocol.Zip | hardware/FOCMC_interface.py:283 | `zip` pairs elements index by index, up to the shorter list |
| Protocol.PidTerms | hardware/FOCMC_interface.py:281-283 | positional gains are named P, I, D, R, L, F in order (extras dropped), followed by the keyword terms in order |
| Numerals.NatToString | hardware/ServoInterface.py:37-38 | `str(n)` for a natural number is a run of decimal digits |
| Numerals.NatRoundTrip | hardware/ServoInterface.py:37-38 | the digits written for n have value n |
| Numerals.IntRoundTrip | hardware/FOCMC_interface.py:103 | `int(str(n)) == n` for every integer |
| Numerals.ParseIntRejects | hardware/FOCMC_interface.py:102-107 | empty text, or text that starts with neither a sign nor a digit, is not an integer |
| Text.StripLeftFacts | lib/gcode.py:5 | `lstrip` removes exactly a whitespace prefix and stops at the first other character |
| Text.StripRightFacts | lib/gcode.py:5 | `rstrip` removes exactly a whitespace suffix and stops at the last other character |
| Text.StripInside | lib/gcode.py:5 | the stripped text is the infix right after the leading whitespace |
| Text.StripTrailing | lib/gcode.py:5 | everything after the stripped infix is whitespace |
| Text.StripEnds | lib/gcode.py:5 | the stripped text has no whitespace at either end |
| Text.StripIsTrimmedInfix | lib/gcode.py:5 | `strip` returns the infix surrounded only by whitespace, with no whitespace at either end |
| Text.StripIdempotent | lib/gcode.py:5 | stripping twice is stripping once |
| Text.StripNoSpace | lib/gcode.py:5 | text without whitespace strips to itself |
| Text.Split | lib/gcode.py:5 | `split(sep)` gives at least one piece, and no piece holds the separator |
| Text.SplitCons | lib/gcode.py:5 | a non-separator character at the front extends the first piece |
| Text.SplitPrefix | lib/gcode.py:5 | a separator-free word at the front extends the first piece |
| Text.SplitJoin | lib/gcode.py:5-12 | joining separator-free words and splitting again gives the words back |
| Text.JoinSplit | lib/gcode.py:5-12 | splitting and joining again gives the text back |
| Text.JoinHead | lib/gcode.py:12 | prefixing the first word prefixes the joined line |
| MotorModel.WindowAppend | hardware/FOCMC_interface.py:66-70 | `_log_entry` keeps the log equal to the most recent LOG_SIZE + 1 entries of the complete history |
| MotorModel.LogBounded | hardware/FOCMC_interface.py:44-70 | the log never exceeds 101 entries, is a suffix of the history in arrival order, and ends with the latest exchange |
| MotorModel.Send | hardware/FOCMC_interface.py:74-109 | a successful `_send_command` returns a value of the requested type, or None when no type is requested |
| MotorModel.SendEffect | hardware/FOCMC_interface.py:91-109 | one exchange writes `cmd + "\n"`, logs command and stripped reply, and raises MotorException (naming command, reply and id) on a bad conversion or NotImplementedError on a serial failure; ids, offset and mode never change |
| MotorModel.SendKeepsLog | hardware/FOCMC_interface.py:66-96 | every exchange keeps the log equal to the window of the history |
| MotorModel.ConnectSetsId | hardware/FOCMC_interface.py:111-121 | `connect` opens the port, sends `I`, and stores the integer reply as `m_id`; a port that cannot be opened sends nothing |
| MotorModel.DisconnectCloses | hardware/FOCMC_interface.py:124-133 | `disconnect` disables first and closes the port exactly when the disable was confirmed |
| MotorModel.EnabledIsNonEmptyReply | hardware/FOCMC_interface.py:166-179 | `enabled` is true exactly when the stripped reply is non-empty |
| MotorModel.ReadingsAndOffset | hardware/FOCMC_interface.py:181-209 | `position` sends `MMG6` and returns the reading minus `offset`; `velocity` sends `MMG5` and returns it raw |
| MotorModel.PrecisionGuard | hardware/FOCMC_interface.py:211-230 | a precision outside 1..15 fails the assertion before anything is sent; otherwise success requires the number echoed |
| MotorModel.EnableEchoes | hardware/FOCMC_interface.py:232-254 | `enable` succeeds exactly on the integer echo 1, `disable` exactly on 0; other integers raise MotorException |
| MotorModel.LimitsEcho | hardware/FOCMC_interface.py:292-341 | each limit setter sends `MLC`/`MLU`/`MLV` plus the limit and succeeds exactly when the same float comes back; on a closed port nothing is sent and the motor reports itself disconnected |
| MotorModel.ControlModeOnlyOnConfirm | hardware/FOCMC_interface.py:343-367 | `MC0`/`MC1`/`MC2` is sent; the mode changes exactly when the reply's first three characters match the mode name, and a mismatch carries the reply |
| MotorModel.MoveConfirms | hardware/FOCMC_interface.py:369-387 | `move` sends `round(pos + offset, 3)` in angle mode and `pos` otherwise, and raises MotorException (received and expected values) exactly on a different echo; on a closed port nothing is sent and the motor reports itself disconnected |
| MotorModel.PidLines | hardware/FOCMC_interface.py:283-286 | the lines `set_PIDs` writes are `M<stage><name><value>`, one per term, in order |
| MotorModel.PidStep | hardware/FOCMC_interface.py:284-290 | each PID command moves the link one exchange on and succeeds exactly on its echo |
| MotorModel.PidsAllSent | hardware/FOCMC_interface.py:256-290 | when every term is echoed, `set_PIDs` sends all lines in order and succeeds |
| MotorModel.PidsStopAtMismatch | hardware/FOCMC_interface.py:283-290 | when term k is the first not echoed, exactly the first k + 1 lines were sent and MotorException is raised |
| Motors.Motor.constructor | hardware/FOCMC_interface.py:58-61 | the object starts with class defaults: id -1, offset 0, torque mode, empty log, port closed |
| Motors.Motor.AddLogEntry | hardware/FOCMC_interface.py:66-70 | the log field becomes the evicting append, the history grows by the entry, and nothing else changes |
| Motors.Motor.SendCommand | hardware/FOCMC_interface.py:74-109 | the method's new state and result are `MotorModel.Send` on the old state |
| Motors.Motor.SendConfirm | hardware/FOCMC_interface.py:305-307 | a setter's exchange followed by the echo check, as `MotorModel.Confirm` |
| Motors.Motor.Connect | hardware/FOCMC_interface.py:111-121 | as `MotorModel.Connect` on the old state |
| Motors.Motor.Disconnect | hardware/FOCMC_interface.py:124-133 | as `MotorModel.Disconnect` on the old state |
| Motors.Motor.ComPrecision | hardware/FOCMC_interface.py:151-164 | as `MotorModel.ComPrecision` on the old state |
| Motors.Motor.Enabled | hardware/FOCMC_interface.py:166-179 | as `MotorModel.Enabled` on the old state |
| Motors.Motor.Position | hardware/FOCMC_interface.py:181-194 | as `MotorModel.Position` on the old state |
| Motors.Motor.Velocity | hardware/FOCMC_interface.py:196-209 | as `MotorModel.Velocity` on the old state |
| Motors.Motor.SetComPrecision | hardware/FOCMC_interface.py:211-230 | as `MotorModel.SetComPrecision` on the old state |
| Motors.Motor.Enable | hardware/FOCMC_interface.py:232-242 | as `MotorModel.Enable` on the old state |
| Motors.Motor.Disable | hardware/FOCMC_interface.py:244-254 | as `MotorModel.Disable` on the old state |
| Motors.Motor.SetPids | hardware/FOCMC_interface.py:256-290 | the loop over the zipped and keyword terms ends in the state and result of `MotorModel.SetPids` |
| Motors.Motor.SetCurrentLimit | hardware/FOCMC_interface.py:292-307 | as `MotorModel.SetCurrentLimit` on the old state |
| Motors.Motor.SetVoltageLimit | hardware/FOCMC_interface.py:309-324 | as `MotorModel.SetVoltageLimit` on the old state |
| Motors.Motor.SetVelocityLimit | hardware/FOCMC_interface.py:326-341 | as `MotorModel.SetVelocityLimit` on the old state |
| Motors.Motor.SetControlMode | hardware/FOCMC_interface.py:343-367 | as `MotorModel.SetControlMode` on the old state |
| Motors.Motor.Move | hardware/FOCMC_interface.py:369-387 | as `MotorModel.Move` on the old state |
| Motors.Open | hardware/FOCMC_interface.py:47-63 | `Motor(port)` is a fresh object whose state and result are `connect` on a fresh motor over that controller |
| LegacyModel.Send | hardware/FOCMCInterface.py:54-82 | a successful `_sendCommand` returns a value of the requested type |
| LegacyModel.SendFailures | hardware/FOCMCInterface.py:73-82 | only a failed conversion becomes MotorException; a serial failure escapes as SerialException; nothing is logged |
| LegacyModel.ConnectSetsId | hardware/FOCMCInterface.py:84-94 | a port that cannot be opened raises SerialException; otherwise `I` is sent, and `connect` succeeds exactly on an integer reply, which becomes `m_id`; a missing reply (SerialException) becomes NotImplementedError, while a non-integer reply stays a MotorException |
| LegacyModel.DisconnectDisablesFirst | hardware/FOCMCInterface.py:96-101 | `ME0` is sent first and the port is closed only once it was confirmed |
| LegacyModel.SendAgrees | hardware/FOCMCInterface.py:54-82 | the older and the current exchange write the same line, move the link alike and read the same value |
| LegacyModel.PidsAgree | hardware/FOCMCInterface.py:231-240 | both versions of `setPIDs` send the same lines, read the same replies and agree on success and settings |
| LegacyModel.MoveAgrees | hardware/FOCMCInterface.py:319-337 | both versions of `move` agree on the wire, on success and on the fields they set |
| LegacyModel.ControlModeAgrees | hardware/FOCMCInterface.py:293-317 | both versions of the mode setter agree, the stored mode included |
| LegacyModel.SettersAgree | hardware/FOCMCInterface.py:163-204 | both versions of `enable`, `disconnect` and the precision setter agree, including the failed precision assertion |
| LegacyModel.PositionAgrees | hardware/FOCMCInterface.py:140-149 | both versions read the same position, the reading minus the offset |
| LegacyModel.MoveConfirms | hardware/FOCMCInterface.py:332-337 | the older `move` commands `round(pos + offset, 3)` in angle mode and fails exactly on a different echo; on a closed port it raises SerialException with nothing sent |
| LegacyModel.ControlModeOnlyOnConfirm | hardware/FOCMCInterface.py:308-317 | the older mode setter changes the mode exactly when the three-character prefix matches |
| LegacyMotors.Motor.constructor | hardware/FOCMCInterface.py:41-50 | the object starts with class defaults and a closed port |
| LegacyMotors.Motor.SendCommand | hardware/FOCMCInterface.py:54-82 | as `LegacyModel.Send` on the old state |
| LegacyMotors.Motor.SendConfirm | hardware/FOCMCInterface.py:178-180 | a setter's exchange and echo check, as `LegacyModel.Confirm` |
| LegacyMotors.Motor.Connect | hardware/FOCMCInterface.py:84-94 | as `LegacyModel.Connect` on the old state |
| LegacyMotors.Motor.Disconnect | hardware/FOCMCInterface.py:96-101 | as `LegacyModel.Disconnect` on the old state |
| LegacyMotors.Motor.ComPrecision | hardware/FOCMCInterface.py:116-125 | as `LegacyModel.ComPrecision` on the old state |
| LegacyMotors.Motor.Enabled | hardware/FOCMCInterface.py:128-137 | as `LegacyModel.Enabled` on the old state |
| LegacyMotors.Motor.Position | hardware/FOCMCInterface.py:140-149 | as `LegacyModel.Position` on the old state |
| LegacyMotors.Motor.Velocity | hardware/FOCMCInterface.py:152-161 | as `LegacyModel.Velocity` on the old state |
| LegacyMotors.Motor.SetComPrecision | hardware/FOCMCInterface.py:163-180 | as `LegacyModel.SetComPrecision` on the old state |
| LegacyMotors.Motor.Enable | hardware/FOCMCInterface.py:182-192 | as `LegacyModel.Enable` on the old state |
| LegacyMotors.Motor.Disable | hardware/FOCMCInterface.py:194-204 | as `LegacyModel.Disable` on the old state |
| LegacyMotors.Motor.SetPids | hardware/FOCMCInterface.py:206-240 | the command loop ends in the state and result of `LegacyModel.SetPids` |
| LegacyMotors.Motor.SetCurrentLimit | hardware/FOCMCInterface.py:242-257 | as `LegacyModel.SetCurrentLimit` on the old state |
| LegacyMotors.Motor.SetVoltageLimit | hardware/FOCMCInterface.py:259-274 | as `LegacyModel.SetVoltageLimit` on the old state |
| LegacyMotors.Motor.SetVelocityLimit | hardware/FOCMCInterface.py:276-291 | as `LegacyModel.SetVelocityLimit` on the old state |
| LegacyMotors.Motor.SetControlMode | hardware/FOCMCInterface.py:293-317 | as `LegacyModel.SetControlMode` on the old state |
| LegacyMotors.Motor.Move | hardware/FOCMCInterface.py:319-337 | as `LegacyModel.Move` on the old state |
| LegacyMotors.Open | hardware/FOCMCInterface.py:41-52 | `Motor(port)` is a fresh object whose state and result are the older `connect` |
| GripperModel.InitAcceptsOnlyId5 | hardware/FOCBLDCEndEffector.py:11-19 | construction succeeds only when `I` is answered with 5, after which exactly `I`, `MC2` and `MLU6` were sent, in that order; another integer id raises the "does not conform" error after `I` alone; a non-integer reply raises the "could not ascertain" error; a port that cannot be opened raises SerialException with nothing sent |
| GripperModel.MotorTargetMonotone | hardware/FOCBLDCEndEffector.py:21-48 | `9*(target-50)/20` is strictly increasing, maps 50 to 0, maps the value range ends 0 and 100 to -22.5 and 22.5, and is odd about 50 |
| GripperModel.MoveWraps | hardware/FOCBLDCEndEffector.py:44-50 | `move` commands the mapped angle without clamping; only a MotorException is rewrapped as EndEffectorException |
| GripperModel.ConnectionWraps | hardware/FOCBLDCEndEffector.py:25-36 | `connect` and `disconect` succeed exactly when the motor's do; every failure becomes EndEffectorException |
| EndEffectors.Gripper.constructor | hardware/FOCBLDCEndEffector.py:13 | the gripper wraps the given motor |
| EndEffectors.Gripper.Reconnect | hardware/FOCBLDCEndEffector.py:25-29 | as `GripperModel.Reconnect` on the motor's old state |
| EndEffectors.Gripper.Disconnect | hardware/FOCBLDCEndEffector.py:31-36 | as `GripperModel.Disconnect` on the motor's old state |
| EndEffectors.Gripper.Enable | hardware/FOCBLDCEndEffector.py:38-39 | the motor's own `enable`, unwrapped |
| EndEffectors.Gripper.Disable | hardware/FOCBLDCEndEffector.py:41-42 | the motor's own `disable`, unwrapped |
| EndEffectors.Gripper.Move | hardware/FOCBLDCEndEffector.py:44-50 | as `GripperModel.Move` on the motor's old state |
| EndEffectors.OpenGripper | hardware/FOCBLDCEndEffector.py:11-19 | `FOCBLDC(port)` leaves a fresh motor whose state and result are `GripperModel.Init` on a fresh motor over that controller |
| EndEffectors.ServoTarget | hardware/ServoInterface.py:16-18 | the written target lies in [10, 150], equals the target when in range, and is the nearer bound otherwise |
| EndEffectors.ServoTargetIdempotent | hardware/ServoInterface.py:38 | clamping a clamped target writes the same value |
| EndEffectors.ServoLine | hardware/ServoInterface.py:37-38 | the line written ends with a newline after at least one character |
| EndEffectors.ServoLineReadsBack | hardware/ServoInterface.py:37-38 | the text before the newline reads back as the clamped target |
| EndEffectors.Servo.constructor | hardware/ServoInterface.py:11-13 | a closed port with nothing written |
| EndEffectors.Servo.Connect | hardware/ServoInterface.py:20-22 | opening succeeds exactly when the port exists and is not already open, else SerialException; nothing is written |
| EndEffectors.Servo.Disconnect | hardware/ServoInterface.py:24-26 | the port ends closed and nothing is written |
| EndEffectors.Servo.Enable | hardware/ServoInterface.py:28-30 | returns True |
| EndEffectors.Servo.Disable | hardware/ServoInterface.py:32-34 | returns True |
| EndEffectors.Servo.Move | hardware/ServoInterface.py:36-39 | on an open port appends the clamped target's line and returns True; on a closed one raises SerialException and writes nothing |
| EndEffectors.OpenServo | hardware/ServoInterface.py:11-14 | `Servo(port)` is fresh, has written nothing, and is open exactly when the port exists |
| HomingModel.Rethrow | lib/system.py:231-232 | a MotorException becomes NotImplementedError with the given message, and no MotorException is left; any other outcome is unchanged |
| HomingModel.Settle | lib/system.py:208-209 | the wait ends only on a velocity reading whose magnitude is at most `zeroSpeed` |
| HomingModel.SettlePolls | lib/system.py:208-209 | waiting sends only `MMG5` queries, at least one, and keeps the settings and the open port |
| HomingModel.SettleIsQuiet | lib/system.py:208-209 | waiting for rest keeps id, offset and mode |
| HomingModel.RestIsQuiet | lib/system.py:208-213 | taking a rest reading (wait, `move(0)`, `position`) keeps id, offset and mode |
| HomingModel.RestEffect | lib/system.py:208-213 | a rest reading that succeeds was taken on an open port after a velocity reading within `zeroSpeed`, and wrote velocity queries (at least one), then `move(0)`, then one `MMG6` |
| HomingModel.DriveKeepsOffset | lib/system.py:201-204 | the sweep's start (voltage limit, velocity mode, `move(-speed)`, enable) keeps id and offset |
| HomingModel.SweepKeepsOffset | lib/system.py:201-224 | driving both ways and taking both rest readings keeps id and offset |
| HomingModel.SweepReadsRests | lib/system.py:201-224 | a successful sweep returns, in order, the rest reading after driving at `-speed` and the one after `move(speed)` |
| HomingModel.CentreEffect | lib/system.py:226-230 | centring sets the offset to the midpoint and angle mode, writes `MC2` then the move to 0 relative to that offset, and returns both positions with the midpoint |
| HomingModel.CalibrationCentres | lib/system.py:198-232 | on success `(low, high, offset)` holds the sweep's two rest readings and their midpoint, the offset is that midpoint, the mode is angle, the id is kept, and `MC2` then the move to 0 relative to the new offset were the last lines sent; a MotorException becomes NotImplementedError('Failed to calibrate motor.') and no MotorException escapes |
| HomingModel.AimSends | lib/system.py:260-262 | on an open port, a successful aim sends `MC2`, the move to the offset and `ME1` in that order and ends in angle mode with the offset kept |
| HomingModel.AimEffect | lib/system.py:260-262 | `MC2`, the move to the offset and `ME1` are sent in that order; on success the mode is angle and the offset is kept; on a closed port nothing is sent and the motor reports itself disconnected |
| HomingModel.HomeChoosesOffset | lib/system.py:250-265 | `absolute_home` reads the position once, sets the offset to the centre inside [low, high] and a turn away otherwise, then aims; `MMG6`, `MC2`, the move and `ME1` are sent in that order; on a closed port nothing is sent; a MotorException becomes NotImplementedError('Failed to home motor.') and no MotorException escapes |
| HomingModel.HomeUndoesOneTurn | lib/system.py:252-258 | for a calibrated range narrower than a turn, a reading equal to a position q of the range, or one turn below or above it, is homed as q: the reading less the chosen offset is q less the centre |
| HomingModel.PressKeepsOffset | lib/system.py:295-297 | torque mode, `move(voltage)` and enable keep the id and the offset, and end in torque mode on success |
| HomingModel.FinishEffect | lib/system.py:308-313 | when active the reading becomes the offset, `MC2` and the move to `centerOffset` relative to it are sent, and the mode is angle; otherwise only `ME0` is sent and the settings are kept |
| HomingModel.EndHomeSteps | lib/system.py:292-315 | a successful single-ended homing is a successful press, rest reading and finish, and returns that reading |
| HomingModel.EndHomeReturnsRest | lib/system.py:292-315 | single-ended homing returns the rest reading taken after the press; after it, `MC2` and the move to `centerOffset` relative to that reading are sent when active, and only `ME0` otherwise |
| HomingModel.EndHomeSetsOffset | lib/system.py:268-317 | when active the offset becomes the returned reading in angle mode; otherwise the motor ends in torque mode with the offset kept; the id is kept; a MotorException becomes NotImplementedError('Failed to home motor.') and no MotorException escapes |
| HomingModel.ActiveHomeTakesReading | lib/system.py:308-311 | active single-ended homing takes the returned reading as the offset and ends in angle mode |
| Homing.WaitForRest | lib/system.py:208-209 | the polling loop ends in the state and result of `HomingModel.Settle` |
| Homing.Rest | lib/system.py:208-213 | as `HomingModel.Rest` |
| Homing.Drive | lib/system.py:201-204 | as `HomingModel.Drive` |
| Homing.Sweep | lib/system.py:201-224 | as `HomingModel.Sweep` |
| Homing.Centre | lib/system.py:226-230 | as `HomingModel.Centre` |
| Homing.Calibrate | lib/system.py:198-230 | as `HomingModel.Calibrate` |
| Homing.AutoCalibrate | lib/system.py:175-232 | as `HomingModel.AutoCalibrate` |
| Homing.AbsoluteHome | lib/system.py:235-265 | as `HomingModel.AbsoluteHome` |
| Homing.EndHome | lib/system.py:292-315 | as `HomingModel.EndHome` |
| Homing.SingleEndedHome | lib/system.py:268-317 | as `HomingModel.SingleEndedHome` |
| Kinematics.Forward | lib/system.py:319-337 | `polar_to_cartesian`; it has no contract of its own, and `Kinematics.ForwardWithinReach` states where its poses lie |
| Kinematics.Inverse | lib/system.py:339-384 | `cartesian_to_dual_polar`; it has no contract of its own, and `Kinematics.FarTargetStretchesTowardIt`, `NearTargetPushedOut`, `AcosArgumentsInDomain` and `ElbowMirrors` state its three branches |
| Kinematics.ReprojectedRadius | lib/system.py:360-364 | the point re-solved for a near target has radius `minimum_radius + 0.1`, beyond the minimum |
| Kinematics.AcosArgumentsInDomain | lib/system.py:35-37 | on the law-of-cosines branch (15 < r <= l1 + l2) both `acos` arguments lie in [-1, 1] |
| Kinematics.TwoLinkReach | lib/system.py:335-337 | two unit vectors scaled by l1 and l2 add to a length between l1 - l2 and l1 + l2 |
| Kinematics.ForwardWithinReach | lib/system.py:319-337 | every pose `polar_to_cartesian` produces lies between radii l1 - l2 and l1 + l2 |
| Kinematics.FarTargetStretchesTowardIt | lib/system.py:365-366 | a target beyond reach gets `(atan2(y, x), 0)`, whose forward position is the straight arm on the target's bearing |
| Kinematics.NearTargetPushedOut | lib/system.py:360-364 | a near target is solved as the point on the same bearing at radius 15.1, which is on the law-of-cosines branch |
| Kinematics.NearTargetScaled | lib/system.py:362-363 | away from the origin that point is the target scaled by 15.1 over its radius |
| Kinematics.ElbowMirrors | lib/system.py:368-384 | targets at the same radius mirrored in the x axis get opposite elbow angles and opposite shoulder offsets from their bearings |
| Bezier.Bezier | lib/bezier.py:4-19 | `bezier` evaluated at a supplied real root; it has no contract of its own, and `Bezier.BezierIsOnCurve` states that the result is the curve's y at the requested x |
| Bezier.PowerBasisIsBernstein | lib/bezier.py:9-18 | the coefficients are the Bernstein x-curve shifted by x in the power basis, and the y formula is the Bernstein y-curve |
| Bezier.BezierIsOnCurve | lib/bezier.py:4-19 | at a supplied real root the curve's x is the requested x, and the result is the curve's y there |
| Bezier.YEndpoints | lib/bezier.py:18 | y is y0 at t = 0 and y3 at t = 1 |
| Bezier.EaseCubic | lib/system.py:456-466 | the easing call's x-cubic has the coefficients of control points (0, s), (D/2, s), (D/2, g), (D, g) |
| Bezier.EaseIncreasing | lib/bezier.py:16-17 | for D > 0 that cubic is strictly increasing |
| Bezier.EaseRootUnique | lib/bezier.py:16-17 | so its real root is unique, and "the first real root" is that root |
| Bezier.EaseRootInUnit | lib/bezier.py:16-17 | for 0 <= x <= D the root lies in [0, 1], at 0 for x = 0 and at 1 for x = D |
| Bezier.Ease | lib/system.py:456-466 | the easing y is the Bezier y-polynomial with control values s, s, g, g |
| Bezier.EaseBetween | lib/system.py:453-469 | on [0, 1] the eased value stays between the start and the goal |
| Bezier.SampleCall | lib/bezier.py:22-23 | the module's sample call has its root in [0, 1] and a result in [0, 1] |
| Gcode.ReadGcodeLine | lib/gcode.py:4-8 | `readGcodeLine`: strip, split on spaces, read the tokens; it has no contract of its own, and `Gcode.ReadTokensYieldsInOrder` and `Gcode.WriteThenRead` state what it yields |
| Gcode.ReadTokens | lib/gcode.py:4-8 | the reader yields at most one pair per token |
| Gcode.ReadTokensYieldsInOrder | lib/gcode.py:4-8 | each yielded pair is the token's first character and the number after it, in token order; the reader stops at the first bad token with that token's error and raises nothing exactly when every token is a word |
| Gcode.BlankLineFails | lib/gcode.py:5-6 | a blank line is one empty token and raises IndexError; it does not yield nothing |
| Gcode.NonAlphaRefused | lib/gcode.py:7 | a word whose letter is not alphabetic raises AssertionError naming it |
| Gcode.WriteGcodeLine | lib/gcode.py:11-12 | the intended `writeGcodeLine`, over the dict's items; it has no contract of its own, and `Gcode.WriteThenRead` states that reading its line back returns the commands |
| Gcode.Words | lib/gcode.py:12 | one word per pair, in order, each the command followed by the formatted value |
| Gcode.Keys | lib/gcode.py:12 | the keys of the pairs, in order |
| Gcode.Letters | lib/gcode.py:6 | the pairs a well-formed command sequence reads back as |
| Gcode.WordsClean | lib/gcode.py:6-12 | a well-formed word has no space, no whitespace at either end, and is its letter then its number |
| Gcode.ReadWords | lib/gcode.py:4-12 | reading clean words yields their letters and numbers with nothing raised |
| Gcode.WriteThenRead | lib/gcode.py:4-12 | a line written from one-letter alphabetic commands with a round-tripping number format reads back as the same pairs, in order, with nothing raised |
| Gcode.WriteGcodeLineAsWritten | lib/gcode.py:11-12 | the as-written writer succeeds exactly when every key has two characters |
| Gcode.AsWrittenRefusesOneLetterCommand | lib/gcode.py:11-12 | `{'X': 1.0}` cannot be written as written, while the intended line is `X` followed by the formatted 1.0 |
| Gamepad.MapRange | lib/gamepad.py:21-22 | `map_range`; it has no contract of its own, and `Gamepad.MapRangeAffine` and `Gamepad.MapRangeFails` state its behaviour |
| Gamepad.Threshold | lib/gamepad.py:25-26 | `threshold`; it has no contract of its own, and `Gamepad.ThresholdDeadZone` states its behaviour |
| Gamepad.Clamp | lib/gamepad.py:29-30 | `clamp`; it has no contract of its own, and `Gamepad.ClampProperties` states its behaviour |
| Gamepad.SignedCeil | lib/gamepad.py:33-35 | `_signed_ceil`; it has no contract of its own, and `Gamepad.SignedCeilRoundsOutward` states its behaviour |
| Gamepad.NextTargets | lib/gamepad.py:46-109 | one report's target update in `event_loop`; it has no contract of its own, and `Gamepad.SticksAreMapRange`, `TargetsClamped` and `DeadZoneHolds` state its behaviour |
| Gamepad.MapRangeAffine | lib/gamepad.py:21-22 | with distinct input ends, `map_range` sends each input end to the matching output end and is affine between them |
| Gamepad.MapRangeFails | lib/gamepad.py:21-22 | it fails (division by zero) exactly when the input ends coincide |
| Gamepad.ThresholdDeadZone | lib/gamepad.py:25-26 | `threshold` passes a value whose magnitude exceeds the threshold and returns the offset otherwise |
| Gamepad.ClampProperties | lib/gamepad.py:29-30 | with ordered bounds the result lies within them, keeps values already inside, snaps to the nearer bound, and is idempotent; with crossed bounds it is the upper one |
| Gamepad.TruncBounds | lib/gamepad.py:34-35 | `int(x)` moves toward zero by less than one |
| Gamepad.SignedCeilRoundsOutward | lib/gamepad.py:33-35 | `_signed_ceil` is the ceiling for positive values and the floor otherwise, keeps integers, and moves by less than one |
| Gamepad.SticksAreMapRange | lib/gamepad.py:46-99 | the stick and trigger rates are the loop's `map_range` calls, with their ranges, passed through their dead zones |
| Gamepad.TargetsClamped | lib/gamepad.py:46-101 | every target handed to `update_targets` lies in its range (x in [0, 30], y in [-30, 30], z in [0, 160], r in [-1.57, 1.57], e in [0, 100]), and a whole gripper target stays whole |
| Gamepad.GripperStaysWhole | lib/gamepad.py:91-101 | a whole gripper target moved by a whole step and clamped is whole |
| Gamepad.DeadZoneHolds | lib/gamepad.py:46-109 | with every stick and trigger in its dead zone, targets already in range do not move |
| Replay.Empty | lib/mllib/common.py:10-16 | a new buffer is well formed: no slots, zero priorities, position 0 |
| Replay.Pushed | lib/mllib/common.py:21-28 | `push` on the buffer's value; it has no contract of its own, and `Replay.PushEffect`, `KeepsMostRecent` and `WindowStep` state its behaviour |
| Replay.PushEffect | lib/mllib/common.py:21-28 | `push` keeps the buffer well formed, fails (IndexError, since the empty buffer has no slot to write) exactly at capacity 0 without change, and otherwise stores the experience and resolved priority at the old position, grows only below capacity, and advances the position modulo capacity |
| Replay.WriteStores | lib/mllib/common.py:24-28 | writing at the position of a grown-or-full buffer keeps it well formed and changes only that slot |
| Replay.PushAll | lib/mllib/common.py:21-28 | pushes in sequence keep the buffer well formed with its capacity and maximum priority |
| Replay.KeepsMostRecent | lib/mllib/common.py:21-28 | after any run of pushes into an empty buffer, it holds the most recent `capacity` experiences, each at its slot index modulo capacity, with the default priority |
| Replay.WindowStep | lib/mllib/common.py:26-28 | one more push overwrites the oldest experience's slot with the newest |
| Replay.Cap | lib/mllib/common.py:48 | `min(max_priority, prio)` is at most both and equal to one of them |
| Replay.Update | lib/mllib/common.py:46-49 | the priority array keeps its length |
| Replay.UpdateMatchesLastWriter | lib/mllib/common.py:46-49 | `update_priorities` succeeds exactly when every zipped index is a valid numpy index, and then each slot holds the capped priority of the last pair that writes it, or its old value |
| Replay.LaterDuplicateWins | lib/mllib/common.py:47-49 | a later pair for the same slot overrides an earlier one |
| Replay.PriorityBuffer.constructor | lib/mllib/common.py:10-16 | the object's view is `Empty(capacity, max_priority)` |
| Replay.PriorityBuffer.Length | lib/mllib/common.py:18-19 | `len` is the number of slots |
| Replay.PriorityBuffer.Push | lib/mllib/common.py:21-28 | the object's new view and result are `Pushed` of the old view |
| Replay.PriorityBuffer.UpdatePriorities | lib/mllib/common.py:46-49 | the loop leaves the array and result that `Update` gives for the zipped pairs |
| Replay.UnpackBatch | lib/mllib/common.py:70-83 | five columns as long as the batch, in batch order; `dones[i]` is 1 exactly when there is no next state, and then `next_states[i]` is the state itself |
| SystemModel.JointsMapIsBijective | lib/system.py:68-93 | t1, t2, z and r name the inner, outer, vertical and end motors, distinct and covering all four; ids 1-4 name one joint each |
| SystemModel.ScriptRunsPerJoint | lib/system.py:96-111 | a script of motor calls succeeds exactly when each joint's own calls succeed, leaving each joint where its own calls take it, and never touches the gripper |
| SystemModel.ScriptStopsAtFirstFailure | lib/system.py:96-111 | a script that raises stopped at the call that raised; later calls were never made |
| SystemModel.JogCalls | lib/system.py:420-424 | `jog` makes exactly one call per joint: the move to its target |
| SystemModel.JogScriptRuns | lib/system.py:420-424 | the joint moves of a jog succeed exactly when each joint accepts its move, and each joint then holds that move's state |
| SystemModel.JogMovesEachJointOnce | lib/system.py:397-427 | the inner rotation goes to t1, the end rotation to `r - t1`, the outer to t2 and the vertical to z; the jog succeeds exactly when these and, when `e` is given, the gripper's move succeed; the gripper moves last and only when `e` is given |
| SystemModel.PositionsAreJointReadings | lib/system.py:386-395 | `get_all_pos` reads t1, t2, z and r in that order, each the joint's own `position`, and succeeds exactly when all four do |
| SystemModel.PowerScript | lib/system.py:170-172 | the same call on every motor of `self.motors`, in dict order |
| SystemModel.PowerCalls | lib/system.py:170-172 | each listed joint gets exactly one enable (or disable) call |
| SystemModel.MotorsEnabledEach | lib/system.py:161-172 | for an order naming each joint at most once, `motors_enabled` succeeds exactly when each listed motor accepts, and exactly those motors took the call |
| SystemModel.ConfigurationCalls | lib/system.py:96-111 | each joint's calls during configuration are its own setup list, in order |
| SystemModel.ConfigurationTerms | lib/system.py:96-108 | every joint gets the 12 V limit first; PID terms go to the 'vel' stage (V), then the 'angle' stage (A) |
| SystemModel.InnerRotationTerms | lib/system.py:102-103 | the inner rotation's gains are named P, I then R, F, and P then D, R, F |
| SystemModel.ConfigurationPerJoint | lib/system.py:96-111 | configuration succeeds exactly when each joint accepts its setup list, leaves each joint where that list takes it, and never touches the gripper |
| SystemModel.ProbeRegistersJointIds | lib/system.py:48-56 | a port is registered exactly when `I` is answered with 1..4, under that id with its port open; other ids are disconnected; a non-integer reply only skips the port |
| SystemModel.RegisterLastWins | lib/system.py:50-52 | an id is in `self.motors` exactly when some port reported it, and it names the last such port |
| SystemModel.OrderListsKeysOnce | lib/system.py:51 | the dict's key order lists each registered id exactly once, in order of first registration |
| SystemModel.ProbesRegisterJointIds | lib/system.py:50 | only ids 1 to 4 are registered, each by a motor that reports it |
| SystemModel.RegisterIndices | lib/system.py:50-52 | each registered id names a port that reported it |
| SystemModel.SearchFrom | lib/system.py:59-65 | a gripper found by the search from port i sits on a port at or after i |
| SystemModel.SearchFindsFirst | lib/system.py:59-65 | the gripper is on the first unused port where construction succeeds, every earlier one having been passed over |
| SystemModel.BindNeedsEveryJoint | lib/system.py:67-83 | binding succeeds exactly when ids 1-4 are all registered and a gripper was found; a KeyError names the smallest missing id, and a missing gripper is an AttributeError |
| SystemModel.FirstAbort | lib/system.py:47-56 | the first port from i whose probe raised something other than MotorException |
| SystemModel.FirstAbortIsFirst | lib/system.py:47-56 | discovery stops at the first port that aborts it and runs to the end when none does |
| SystemModel.JointWithId | lib/system.py:68-71 | the joint bound to an id has that id |
| SystemModel.JointOrder | lib/system.py:170-171 | the joints of `self.motors` in dict order |
| SystemModel.OrderIsJointOrder | lib/system.py:47-56 | the keys of `self.motors` are ids 1-4, each once; with all four present they order the four joints, each once |
| SystemModel.StartupPlan | lib/system.py:39-83 | when `__init__`, starting from an empty `motors`, gets past binding, no probe aborted, every joint id was registered by some port, and the gripper sits on a port discovery did not keep, where its construction succeeded; the dict's keys are all ids 1-4 |
| SystemModel.CalibrationNeedsThreeNumbers | lib/system.py:136-140 | a calibration file is read exactly when its first three lines are numbers; a short file is a ValueError |
| SystemModel.PrepareLeavesRotations | lib/system.py:127-133 | the preparation of `load_motors` touches only the vertical motor and the gripper's motor |
| SystemModel.PrepareStartsWithVertical | lib/system.py:127-133 | the vertical motor ends as its single-ended homing left it, the rotations are untouched, and the preparation succeeds only if that homing did |
| SystemModel.LoadMotorsFallsBack | lib/system.py:114-158 | after preparation, a missing file or bad number calls `onFail` when given and raises NotImplementedError otherwise; a homing failure escapes; on success each rotation was absolute-homed with its own file's numbers |
| SystemModel.StartPoseHoldsStill | lib/system.py:447-451 | the first jog of a smooth move sends every joint to the position it just reported |
| SystemModel.WaypointsStayBetween | lib/system.py:453-469 | within the duration every waypoint lies between start and target on each axis, equals the start at time 0, and is the target at the end |
| SystemModel.WaypointNamesMissingAxis | lib/system.py:454-468 | a missing target axis fails the first waypoint with a KeyError naming it, before any joint moves |
| SystemModel.ConvergedIsWithin | lib/system.py:476-481 | the convergence test passes exactly when every axis (r in the world frame) is within epsilon; with every axis given it never raises, and a KeyError names a missing axis |
| SystemModel.AwaitTarget | lib/system.py:471-486 | the polling loop succeeds only with a reading within epsilon of the target; a loop that reads nothing times out; the gripper is never touched |
| SystemModel.SmoothMoveOutcomes | lib/system.py:429-491 | a smooth move never lets a MotorException out; a MotorException in the first read becomes 'Failed to smooth move.'; a missing gripper target fails with a KeyError before anything moves; a move that returns has seen a reading within epsilon |
| RobotSystem.System.constructor | lib/system.py:88-93 | the object holds the given joint motors, gripper, dict order and number format |
| RobotSystem.System.RunScript | lib/system.py:96-111 | the loop over a script ends in the arm and result of `SystemModel.RunScript` |
| RobotSystem.System.Jog | lib/system.py:397-427 | as `SystemModel.Jog` on the old arm |
| RobotSystem.System.ReadAt | lib/system.py:395 | one joint's `position`, as `SystemModel.ReadAt` |
| RobotSystem.System.Positions | lib/system.py:386-395 | as `SystemModel.Positions` on the old arm |
| RobotSystem.System.MotorsEnabled | lib/system.py:161-172 | as `SystemModel.MotorsEnabled` over the object's dict order |
| RobotSystem.System.Configure | lib/system.py:96-111 | as `SystemModel.Configure` on the old arm |
| RobotSystem.System.Prepare | lib/system.py:127-133 | as `SystemModel.Prepare` on the old arm |
| RobotSystem.System.HomeFromFile | lib/system.py:136-152 | as `SystemModel.HomeFromFile` on the old arm |
| RobotSystem.System.LoadMotors | lib/system.py:114-158 | as `SystemModel.LoadMotors` on the old arm |
| RobotSystem.System.Interpolate | lib/system.py:452-469 | the tick loop ends in the arm and result of `SystemModel.Interpolate` |
| RobotSystem.System.Poll | lib/system.py:472-482 | one read and test of the polling loop, with one read fewer left |
| RobotSystem.System.AwaitTarget | lib/system.py:471-486 | the polling loop ends in the arm and result of `SystemModel.AwaitTarget` |
| RobotSystem.System.SmoothMoveBody | lib/system.py:446-486 | as `SystemModel.SmoothMoveBody` on the old arm |
| RobotSystem.System.SmoothMove | lib/system.py:429-491 | as `SystemModel.SmoothMove` on the old arm |
| RobotSystem.ProbeStep | lib/system.py:48-56 | `Motor(port)` and the id test leave the port's controller, and return the probe, as `ProbeOf` of its prior state |
| RobotSystem.Visit | lib/system.py:48-56 | probing port i changes no other port and keeps the motors registered so far |
| RobotSystem.Admit | lib/system.py:50-52 | a motor with a joint id goes into `self.motors` (replacing an earlier one), its id joins the keys once, and its port joins `ports_used` |
| RobotSystem.Discover | lib/system.py:45-56 | starting from an empty `self.motors`, the discovery loop ends with `self.motors`, its key order and `ports_used` as `Register`, `Order` and `Used` of the probes, or with the first aborting exception |
| RobotSystem.TryPort | lib/system.py:61-65 | one gripper try on an unused port gives that port's `TryOn` result |
| RobotSystem.SearchGripper | lib/system.py:59-65 | the search loop ends as `SearchFrom` of the tries, leaving the kept ports alone |
| RobotSystem.Assemble | lib/system.py:67-111 | the object built from the registered motors and the found gripper, configured, is `Configure` of the assembled arm |
| RobotSystem.Start | lib/system.py:39-111 | for a `System()` whose class-level `motors` is still empty, construction raises exactly as `StartupPlan` says; otherwise the object is the configured assembled arm |
| RobotSystem.StartWithMotors | lib/system.py:59-83 | after discovery, the search and binding end as `StartupPlan` says |
| RobotSystem.StartWithGripper | lib/system.py:67-111 | after the search, binding and configuration end as `StartupPlan` says |

## Left out

- RobotSystem.Start: `System.motors` is a class attribute (`lib/system.py:34`) that every instance shares and `__init__` only adds to, but the model starts each construction from an empty registry. A second `System()` in the same process, as `lib/app.py:14` and `lib/app.py:35` construct, keeps the earlier construction's motors for ids that no port reports this time. Binding then succeeds where `StartupPlan` says KeyError, and those stale motors are configured and reach `motors_enabled`. Modelling this would need the earlier `Motor` objects as inputs, and these may share a serial device with the newly probed ones.
- RobotSystem.Discover: for the same reason, the loop starts from `map[]`, with an empty key order. Its result is `Register`, `Order` and `Used` of this construction's probes alone, not those probes applied over the registry an earlier `System()` left behind.
- SystemModel.StartupPlan: `Register` and `Order` likewise describe a registry that starts empty, so the plan is `__init__`'s behaviour for the first `System()` in a process only.
- Threads, the per-motor `Lock`, the `log_informer` Condition and the fire-and-forget log thread: `_log_entry` is a synchronous append, and calls never interleave.
- Wall-clock time and `sleep`: the velocity-polling loops run over the controller's finite reply queue. The `smooth_move` duration and timeout are a supplied sequence of tick times and a count of polls.
- The wall-clock timestamp of each log entry, because it depends on the clock.
- The `print` warning of `_send_command` when no type is requested, and the `messagebox` dialogs of `lib/system.py`: both are user interface with no effect on state.
- Serial transport and `comports()`: ports are `Protocol.Device` responders in a given order, and a serial failure is a `Broken` reply.
- Float formatting and parsing and `round(x, 3)`: these are abstract functions of a `Codec`. The only fact assumed is that the empty string does not parse.
- Trigonometry and `abs(complex(x, y))`: these are abstract functions of a `Trig`. Only the identities the proofs use are required of them, so the forward/inverse round trip is not stated. `math.pi` is not abstract: it is the constant `Kinematics.Pi`, the double nearest to pi.
- IEEE double arithmetic: every float sum, product and quotient outside the `Codec` is an exact `real`. Rounding is therefore not modelled in the gripper's `9 * (target - 50) / 20` and its monotonicity, the calibration midpoint `(low + high) / 2`, the kinematics, or the Bezier easing.
- `str.isalpha` beyond ASCII: `Gcode.IsAlpha` accepts only `A`-`Z` and `a`-`z`, so a token such as `é1`, which Python accepts, is refused here.
- Integer arguments: wherever the source passes a Python int, Python writes int text, while the model passes reals and formats them with `c.show`, so it does not tell an int's text from a float's. This covers every int argument, among them: the limits in `lib/system.py` (`set_voltage_limit(12)`, `set_voltage_limit(6)`, `set_velocity_limit(4)`, `set_velocity_limit(12)`, `set_velocity_limit(999)`, and `set_voltage_limit(2)` through `auto_calibrate(voltage=2)`); every integer PID gain (20, 10, 2, 200, 125, 4, 3 and 100, written as e.g. `MVI20`); the move targets `move(0)`, `move(-speed)` with `speed=15` and `move(voltage)` with -4; the int defaults `voltage = 3` and `speed = 1` of `auto_calibrate`; and `round(pos + offset, 3)` with the int class-default offset 0 of `hardware/FOCMC_interface.py`. Echo checks are unaffected, because Python compares `12.0 == 12` as equal.
- `np.roots`: the real root is supplied to `Bezier.Bezier` as a parameter that satisfies the cubic.
- `GamePadDelegate.event_loop`'s infinite loop and its HID read: one report's target update is `Gamepad.NextTargets`. The device read and `update_targets` are not part of this model.
- `PriorityBuffer.sample`, `DQN`, `calc_losses` and `choose_action`: random sampling and neural-network arithmetic.
- The numpy array types in `unpack_batch`: the columns are sequences, and `dones` holds 0/1 as `uint8` does.
- `hardware/EndEffector.py`: an abstract interface with no behaviour. Note that it names `valueRange` while `FOCBLDC` defines `value_range`, and that it spells `disconect` as its subclasses do.
- `Motor.alive`: a read of the port's open flag that no core code calls.
- The GUI, the calibration wizards (their file format is covered through `load_motors`), the networking widgets and the scripts.
- Homing.WaitForRest: termination rests on the controller's finite reply queue. A controller that keeps reporting motion until its queue runs out ends the wait on the empty reply, which no longer parses as a float. An endless loop on real hardware is therefore not modelled.

## Findings

| source | as written | input that shows it | evidently intended | confidence | as-written member | corrected member |
|---|---|---|---|---|---|---|
| lib/gcode.py:11-12 | `for command, value in commands` iterates the dict's keys and unpacks each key string into two characters | `{'X': 1.0}` raises ValueError (a one-character key cannot unpack into two); a two-character key is written without its value | iterate `commands.items()`, writing each command followed by its value | not executed | Gcode.AsWrittenRefusesOneLetterCommand | Gcode.WriteThenRead |
