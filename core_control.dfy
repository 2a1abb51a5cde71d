/**
 * The car's decision tables (embeded/core.py): from one sensor reading or one controller command
 * to at most one call on the motion wrapper. The readings and the command are parameters; each
 * decision is the call it makes, as an `Action`.
 */
module CoreControl {
  import opened Common
  import Motion

  /** The one call on the motion wrapper a decision makes, if any. */
  datatype Action =
    | NoCommand
    | Stop(sleep: real)                     // `stop(sleep_time)`; `stop()` sleeps 0
    | Move(pattern: seq<int>, speed: int)   // `move(pattern, speed_pwm)`

  /** The distance below which the car stops, in centimetres. */
  const StopDistance: real := 40.0

  /**
   * `free_obstacle_avoidance` as written: a zero distance (the sensor's timeout) does nothing, a
   * near obstacle stops the car, and otherwise it calls `set_speed`, which the motion wrapper
   * does not define.
   */
  function ObstacleAvoidance(distance: real, speed: int, stopTime: real): (r: Result<Action>)
    ensures distance == 0.0 <==> r == Ok(NoCommand)
    ensures distance != 0.0 && distance < StopDistance <==> r == Ok(Stop(stopTime))
    ensures r.Err? <==> distance != 0.0 && distance >= StopDistance
    ensures r.Err? ==> r.error == AttributeError
  {
    if distance == 0.0 then Ok(NoCommand)
    else if distance < StopDistance then Ok(Stop(stopTime))
    else Err(AttributeError)
  }

  /** An obstacle-free reading of 50 cm makes the car fail instead of driving on. */
  lemma ObstacleAvoidanceFailsWhenClear(speed: int, stopTime: real)
    ensures ObstacleAvoidance(50.0, speed, stopTime) == Err(AttributeError)
  {
  }

  /**
   * `free_obstacle_avoidance` as evidently meant: with the road clear, drive forward at
   * `speed_pwm`. It drives exactly when the reading is neither the timeout nor an obstacle nearer
   * than the stop distance, and then only forward.
   */
  function ObstacleAvoidanceIntended(distance: real, speed: int, stopTime: real): (a: Action)
    ensures a.Move? <==> distance != 0.0 && distance >= StopDistance
    ensures a.Move? ==> a == Move(Motion.Forward, speed)
    ensures a.Stop? ==> a.sleep == stopTime
  {
    if distance == 0.0 then NoCommand
    else if distance < StopDistance then Stop(stopTime)
    else Move(Motion.Forward, speed)
  }

  /**
   * The intended decision agrees with the written one wherever that one succeeds, never fails,
   * drives forward at the requested speed exactly when the road is clear, and never drives with
   * an obstacle nearer than the stop distance.
   */
  lemma ObstacleAvoidanceIntendedAgrees(distance: real, speed: int, stopTime: real)
    ensures ObstacleAvoidance(distance, speed, stopTime).Ok? ==>
      ObstacleAvoidanceIntended(distance, speed, stopTime) == ObstacleAvoidance(distance, speed, stopTime).value
    ensures ObstacleAvoidanceIntended(distance, speed, stopTime) == Move(Motion.Forward, speed) <==>
      distance != 0.0 && distance >= StopDistance
    ensures 0.0 < distance < StopDistance ==> !ObstacleAvoidanceIntended(distance, speed, stopTime).Move?
  {
  }

  /** `TrackingPatterns`: the left and right sensor levels. */
  const OnPath := (0, 0)
  const LeftOffPath := (0, 1)
  const RightOffPath := (1, 0)
  const OffPath := (1, 1)

  /**
   * `tracking_path`: steer back towards the line, go straight on it, stop when it is lost. A
   * move uses one of the motion patterns at the given speed; a stop does not sleep; a reading
   * that is not two binary levels does nothing.
   */
  function TrackingPath(reading: (int, int), speed: int): (a: Action)
    ensures a.Move? ==> a.pattern in Motion.Patterns && a.speed == speed
    ensures a.Stop? ==> a.sleep == 0.0
    ensures !(0 <= reading.0 <= 1 && 0 <= reading.1 <= 1) ==> a == NoCommand
  {
    if reading == LeftOffPath then Move(Motion.RightDeflection, speed)
    else if reading == RightOffPath then Move(Motion.LeftRotation, speed)
    else if reading == OnPath then Move(Motion.Forward, speed)
    else if reading == OffPath then Stop(0.0)
    else NoCommand
  }

  /** The tracking table read both ways: each action comes from exactly one reading. */
  lemma TrackingTable(reading: (int, int), speed: int)
    ensures TrackingPath(reading, speed) == Move(Motion.RightDeflection, speed) <==> reading == (0, 1)
    ensures TrackingPath(reading, speed) == Move(Motion.LeftRotation, speed) <==> reading == (1, 0)
    ensures TrackingPath(reading, speed) == Move(Motion.Forward, speed) <==> reading == (0, 0)
    ensures TrackingPath(reading, speed) == Stop(0.0) <==> reading == (1, 1)
    ensures TrackingPath(reading, speed) == NoCommand <==> !(0 <= reading.0 <= 1 && 0 <= reading.1 <= 1)
  {
  }

  /**
   * `manual_control`: the controller's command names a pattern, or stops the car. A move uses one
   * of the motion patterns at the given speed, a stop does not sleep, and an empty command does
   * nothing.
   */
  function ManualControl(command: string, speed: int): (a: Action)
    ensures a.Move? ==> a.pattern in Motion.Patterns && a.speed == speed
    ensures a.Stop? ==> a.sleep == 0.0
    ensures command == "" ==> a == NoCommand
  {
    if command == "FORWARD" then Move(Motion.Forward, speed)
    else if command == "BACKWARD" then Move(Motion.Backward, speed)
    else if command == "LEFT" then Move(Motion.LeftRotation, speed)
    else if command == "RIGHT" then Move(Motion.RightRotation, speed)
    else if command == "STOP" then Stop(0.0)
    else NoCommand
  }

  /** The manual table read both ways; any other command, lower case included, does nothing. */
  lemma ManualTable(command: string, speed: int)
    ensures ManualControl(command, speed) == Move(Motion.Forward, speed) <==> command == "FORWARD"
    ensures ManualControl(command, speed) == Move(Motion.Backward, speed) <==> command == "BACKWARD"
    ensures ManualControl(command, speed) == Move(Motion.LeftRotation, speed) <==> command == "LEFT"
    ensures ManualControl(command, speed) == Move(Motion.RightRotation, speed) <==> command == "RIGHT"
    ensures ManualControl(command, speed) == Stop(0.0) <==> command == "STOP"
    ensures ManualControl(command, speed) == NoCommand <==> command !in {"FORWARD", "BACKWARD", "LEFT", "RIGHT", "STOP"}
  {
  }

  /**
   * Every move these decisions make names one of the motion patterns, so `move` accepts it
   * (four signs) instead of failing its assertion.
   */
  lemma MovesAreWellFormed(distance: real, reading: (int, int), command: string, speed: int, stopTime: real)
    ensures forall a :: a in {ObstacleAvoidanceIntended(distance, speed, stopTime), TrackingPath(reading, speed), ManualControl(command, speed)} && a.Move? ==>
      a.pattern in Motion.Patterns && Motion.WellFormed(a.pattern)
  {
  }
}
