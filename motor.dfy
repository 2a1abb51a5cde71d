/**
 * The UM242 stepper motor driver (src/motor.py): a pulse pin, a direction pin read back to decide
 * which way the step counter moves, an optional active-low enable pin, and the pulse interval
 * for a speed in revolutions per minute.
 *
 * Pins are levels held in fields; the pulses emitted on the pulse pin are counted in `pulses`.
 * Delays are left out.
 */
module Motor {
  import opened Common

  /** `StepperDirection`: the direction pin reads 0 for up and 1 for down. */
  const Up: int := 0
  const Down: int := 1

  /** The level an output pin reads back after `value(v)`: high for any nonzero `v`. */
  function Level(v: int): (l: int)
    ensures l == 0 || l == 1
    ensures l == 0 <==> v == 0
  {
    if v != 0 then 1 else 0
  }

  /** The shortest pulse interval `set_rpm` hands out, in microseconds. */
  const MinInterval: real := 20.0

  /** Microseconds per minute, the numerator of the pulse interval. */
  const MicrosPerMinute: real := 60_000_000.0

  class StepperMotor {
    const stepsPerRev: int
    var pul: int
    var dir: int
    /** The enable pin's level, or `None` when the motor was built without one. */
    var ena: Option<int>
    var position: int
    var pulses: nat

    /**
     * `__init__`: pulse and direction low, position 0; an enable pin exists only for a truthy pin
     * id (0 counts as none) and starts high, which disables the driver.
     */
    constructor (enaPin: Option<int>, stepsPerRev: int)
      ensures this.stepsPerRev == stepsPerRev
      ensures pul == 0 && dir == Up && position == 0 && pulses == 0
      ensures ena == (if enaPin.Some? && enaPin.value != 0 then Some(1) else None)
    {
      this.stepsPerRev := stepsPerRev;
      pul := 0;
      dir := Up;
      position := 0;
      pulses := 0;
      ena := if enaPin.Some? && enaPin.value != 0 then Some(1) else None;
    }

    /** `enable`: drive the enable pin low to enable and high to disable; without one, nothing. */
    method Enable(enable: bool)
      modifies this`ena
      ensures old(ena).None? ==> ena.None?
      ensures old(ena).Some? ==> ena == Some(if enable then 0 else 1)
    {
      if ena.Some? {
        ena := Some(if enable then 0 else 1);
      }
    }

    /**
     * `step`: set the direction pin if a direction is given, read it back, emit one pulse per
     * step (none for a count of zero or less) and move the counter up or down by `steps`.
     */
    method Step(steps: int, direction: Option<int>)
      modifies this`pul, this`dir, this`position, this`pulses
      ensures dir == (if direction.Some? then Level(direction.value) else old(dir))
      ensures pulses == old(pulses) + (if steps > 0 then steps else 0)
      ensures position == old(position) + (if dir == Up then steps else -steps)
      ensures pul == (if steps > 0 then 0 else old(pul))
    {
      if direction.Some? {
        dir := Level(direction.value);
      }
      var actual := dir;
      var count := if steps > 0 then steps else 0;
      for i := 0 to count
        invariant pulses == old(pulses) + i
        invariant dir == actual && position == old(position)
        invariant pul == (if i > 0 then 0 else old(pul))
      {
        pul := 1;
        pulses := pulses + 1;
        pul := 0;
      }
      position := position + (if actual == Up then steps else -steps);
    }

    /**
     * `set_rpm`: the pulse interval in microseconds for `rpm` revolutions per minute, never below
     * the floor; a speed that is not positive fails the assertion, and a motor with zero steps
     * per revolution divides by zero.
     */
    function SetRpm(rpm: real): (r: Result<real>)
      ensures rpm <= 0.0 <==> r == Err(AssertionError)
      ensures rpm > 0.0 && stepsPerRev == 0 <==> r == Err(ZeroDivisionError)
      ensures r.Ok? ==> r.value >= MinInterval
      ensures r.Ok? ==> r.value == MinInterval || r.value * (stepsPerRev as real * rpm) == MicrosPerMinute
    {
      if rpm <= 0.0 then Err(AssertionError)
      else if stepsPerRev == 0 then Err(ZeroDivisionError)
      else
        var interval := MicrosPerMinute / (stepsPerRev as real * rpm);
        Ok(if interval >= MinInterval then interval else MinInterval)
    }

    /** `get_position`: the step counter. */
    method GetPosition() returns (p: int)
      ensures p == position
    {
      p := position;
    }

    /** `reset_position`: the counter goes back to 0; the pins are left as they are. */
    method ResetPosition()
      modifies this`position
      ensures position == 0
    {
      position := 0;
    }
  }

  /**
   * For a motor with a positive number of steps per revolution, the interval is a minute divided
   * by the steps taken per minute while that is at least the floor, that is for
   * `steps_per_rev * rpm` up to 3,000,000; above that it is the floor.
   */
  lemma SetRpmExact(m: StepperMotor, rpm: real)
    requires m.stepsPerRev > 0 && rpm > 0.0
    ensures m.stepsPerRev as real * rpm <= 3_000_000.0 ==> m.SetRpm(rpm) == Ok(MicrosPerMinute / (m.stepsPerRev as real * rpm))
    ensures m.stepsPerRev as real * rpm > 3_000_000.0 ==> m.SetRpm(rpm) == Ok(MinInterval)
  {
    var d := m.stepsPerRev as real * rpm;
    assert d > 0.0;
    if d <= 3_000_000.0 {
      assert MicrosPerMinute / d >= MicrosPerMinute / 3_000_000.0;
    } else {
      assert MicrosPerMinute / d < MicrosPerMinute / 3_000_000.0;
    }
  }
}
