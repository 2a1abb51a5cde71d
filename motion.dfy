/**
 * The car's motion layer (embeded/motion.py; src/motion.py has the same controller, patterns and
 * wrapper): a PWM controller over a fixed list of pins whose `set_duty` clamps the requested
 * pulse width into [1000, 2000] before applying it, the table of four-wheel motion patterns, and
 * a wrapper whose `start`, `stop` and `move` drive the first four pins.
 *
 * A pin's state is its frequency and the pulse width last applied to it (0 while it still has the
 * duty of 0 it was created with); the duty-cycle arithmetic is left out. `writes` records every
 * pulse width applied, in order.
 */
module Motion {
  import opened Common

  const MinPwm := 1000
  const MaxPwm := 2000
  const BasePwm := 1500

  /** `max(MIN_PWM, min(MAX_PWM, pwm))`. */
  function Clamp(pwm: int): (r: int)
    ensures MinPwm <= r <= MaxPwm
    ensures MinPwm <= pwm <= MaxPwm ==> r == pwm
    ensures pwm < MinPwm ==> r == MinPwm
    ensures pwm > MaxPwm ==> r == MaxPwm
  {
    if pwm < MinPwm then MinPwm else if pwm > MaxPwm then MaxPwm else pwm
  }

  /** The clamp band is symmetric about the base width: opposite offsets land opposite. */
  lemma ClampMirror(offset: int)
    ensures Clamp(BasePwm + offset) + Clamp(BasePwm - offset) == 2 * BasePwm
  {
  }

  datatype Pin = Pin(freq: int, pwm: int)

  /** One applied pulse width: the pin index and the clamped width. */
  datatype Write = Write(pin: nat, pwm: int)

  /** The writes of a loop over the first `|targets|` pin indices, keeping those the controller has. */
  function Writes(pins: nat, targets: seq<int>): (w: seq<Write>)
    ensures |w| == if pins < |targets| then pins else |targets|
    ensures forall i :: 0 <= i < |w| ==> w[i] == Write(i, targets[i])
  {
    seq(if pins < |targets| then pins else |targets|, i requires 0 <= i < |targets| => Write(i, targets[i]))
  }

  class MotionController {
    const pins: array<Pin>
    var freq: int
    var writes: seq<Write>

    /** One pin per pin id, each at `freq` with duty 0. */
    constructor (count: nat, freq: int)
      ensures pins.Length == count && fresh(pins) && this.freq == freq && writes == []
      ensures forall i :: 0 <= i < count ==> pins[i] == Pin(freq, 0)
    {
      pins := new Pin[count](_ => Pin(freq, 0));
      this.freq := freq;
      writes := [];
    }

    /** `set_freq`: store the frequency and apply it to every pin, keeping their widths. */
    method SetFreq(f: int)
      modifies this`freq, pins
      ensures freq == f
      ensures forall i :: 0 <= i < pins.Length ==> pins[i] == old(pins[i]).(freq := f)
    {
      freq := f;
      for i := 0 to pins.Length
        invariant freq == f
        invariant forall k :: 0 <= k < i ==> pins[k] == old(pins[k]).(freq := f)
        invariant forall k :: i <= k < pins.Length ==> pins[k] == old(pins[k])
      {
        pins[i] := pins[i].(freq := freq);
      }
    }

    /** `set_duty`: an index in range gets the clamped width; any other index writes nothing. */
    method SetDuty(index: int, pwm: int)
      modifies this`writes, pins
      ensures 0 <= index < pins.Length ==>
        && pins[..] == old(pins[..])[index := old(pins[index]).(pwm := Clamp(pwm))]
        && writes == old(writes) + [Write(index, Clamp(pwm))]
      ensures !(0 <= index < pins.Length) ==> pins[..] == old(pins[..]) && writes == old(writes)
    {
      if 0 <= index < pins.Length {
        var clamped := Clamp(pwm);
        pins[index] := pins[index].(pwm := clamped);
        writes := writes + [Write(index, clamped)];
      }
    }
  }

  // ---------------------------------------------------------------------------------------------
  // The patterns

  /** `MotionPatterns`, in declaration order. */
  const Forward := [1, -1, 1, -1]
  const Backward := [-1, 1, -1, 1]
  const Left := [-1, -1, 1, 1]
  const Right := [1, 1, -1, -1]
  const LeftForward := [0, -1, 1, 0]
  const RightForward := [1, 0, 0, -1]
  const LeftBackward := [0, 1, -1, 0]
  const RightBackward := [-1, 0, 0, 1]
  const LeftRotation := [-1, -1, -1, -1]
  const RightRotation := [1, 1, 1, 1]
  const LeftDeflection := [0, 0, -1, -1]
  const RightDeflection := [1, 1, 0, 0]

  const Patterns: seq<seq<int>> := [
    Forward, Backward, Left, Right, LeftForward, RightForward,
    LeftBackward, RightBackward, LeftRotation, RightRotation, LeftDeflection, RightDeflection
  ]

  /** Four signs, each -1, 0 or 1. */
  predicate WellFormed(pattern: seq<int>)
  {
    |pattern| == 4 && forall i :: 0 <= i < 4 ==> -1 <= pattern[i] <= 1
  }

  lemma PatternsWellFormed()
    ensures forall k :: 0 <= k < |Patterns| ==> WellFormed(Patterns[k])
  {
  }

  function Negate(pattern: seq<int>): (r: seq<int>)
    ensures |r| == |pattern| && forall i :: 0 <= i < |r| ==> r[i] + pattern[i] == 0
  {
    seq(|pattern|, i requires 0 <= i < |pattern| => -pattern[i])
  }

  /** Each backward or right-hand pattern but the right deflection is the sign-flip of its partner. */
  lemma OppositePatterns()
    ensures Backward == Negate(Forward) && Right == Negate(Left)
    ensures LeftBackward == Negate(LeftForward) && RightBackward == Negate(RightForward)
    ensures RightRotation == Negate(LeftRotation)
    ensures RightDeflection != Negate(LeftDeflection)
  {
    assert Negate(LeftDeflection)[0] == 0;
  }

  /** What `set_duty` makes of each requested width. */
  function Clamped(values: seq<int>): (r: seq<int>)
    ensures |r| == |values| && forall i :: 0 <= i < |r| ==> MinPwm <= r[i] <= MaxPwm
  {
    seq(|values|, i requires 0 <= i < |values| => Clamp(values[i]))
  }

  function Abs(x: int): nat
  {
    if x < 0 then -x else x
  }

  /**
   * The widths `move` requests for the four wheels: the base width plus sign times speed, so
   * with signs in -1..1 each lies within `|speed|` of the base width.
   */
  function Requested(pattern: seq<int>, speed: int): (r: seq<int>)
    requires |pattern| == 4
    ensures |r| == 4
    ensures WellFormed(pattern) ==> forall i :: 0 <= i < 4 ==> BasePwm - Abs(speed) <= r[i] <= BasePwm + Abs(speed)
  {
    seq(4, i requires 0 <= i < 4 => BasePwm + pattern[i] * speed)
  }

  /** The widths `move` applies: always within the pins' range, and the base width everywhere at speed 0. */
  function MoveWidths(pattern: seq<int>, speed: int): (w: seq<int>)
    requires |pattern| == 4
    ensures |w| == 4 && forall i :: 0 <= i < 4 ==> MinPwm <= w[i] <= MaxPwm
    ensures speed == 0 ==> forall i :: 0 <= i < 4 ==> w[i] == BasePwm
  {
    Clamped(Requested(pattern, speed))
  }

  /** The opposite pattern at the same speed drives every wheel to the mirror width. */
  lemma MoveOpposite(pattern: seq<int>, speed: int)
    requires |pattern| == 4
    ensures forall i :: 0 <= i < 4 ==> MoveWidths(Negate(pattern), speed)[i] + MoveWidths(pattern, speed)[i] == 2 * BasePwm
  {
    forall i | 0 <= i < 4
      ensures MoveWidths(Negate(pattern), speed)[i] + MoveWidths(pattern, speed)[i] == 2 * BasePwm
    {
      assert Negate(pattern)[i] * speed == -(pattern[i] * speed);
      ClampMirror(pattern[i] * speed);
    }
  }

  /** At speed 0, or with a wheel's sign 0, a wheel gets the base width; within ±500 the width is exact. */
  lemma MoveWidthsExact(pattern: seq<int>, speed: int)
    requires WellFormed(pattern)
    ensures forall i :: 0 <= i < 4 && pattern[i] * speed == 0 ==> MoveWidths(pattern, speed)[i] == BasePwm
    ensures -500 <= speed <= 500 ==> forall i :: 0 <= i < 4 ==> MoveWidths(pattern, speed)[i] == BasePwm + pattern[i] * speed
  {
    if -500 <= speed <= 500 {
      forall i | 0 <= i < 4 ensures MinPwm <= BasePwm + pattern[i] * speed <= MaxPwm {
        assert pattern[i] == -1 || pattern[i] == 0 || pattern[i] == 1;
      }
    }
  }

  // ---------------------------------------------------------------------------------------------
  // The wrapper

  class MotionWrapper {
    const controller: MotionController

    constructor (count: nat, freq: int)
      ensures fresh(controller) && fresh(controller.pins) && controller.pins.Length == count
      ensures controller.freq == freq && controller.writes == []
      ensures forall i :: 0 <= i < count ==> controller.pins[i] == Pin(freq, 0)
    {
      controller := new MotionController(count, freq);
    }

    /** `set_duty(i, values[i])` for `i` in `range(4)`; pins the controller lacks are skipped. */
    method DriveFour(values: seq<int>)
      requires |values| == 4
      modifies controller`writes, controller.pins
      ensures controller.writes == old(controller.writes) + Writes(controller.pins.Length, Clamped(values))
      ensures forall i :: 0 <= i < controller.pins.Length ==>
        controller.pins[i] == if i < 4 then old(controller.pins[i]).(pwm := Clamp(values[i])) else old(controller.pins[i])
    {
      var n := controller.pins.Length;
      ghost var widths := Clamped(values);
      for i := 0 to 4
        invariant controller.writes == old(controller.writes) + Writes(n, widths[..i])
        invariant forall k :: 0 <= k < n ==>
          controller.pins[k] == if k < i then old(controller.pins[k]).(pwm := widths[k]) else old(controller.pins[k])
      {
        controller.SetDuty(i, values[i]);
        assert widths[..i + 1] == widths[..i] + [widths[i]];
      }
      assert widths[..4] == widths;
    }

    /** `start`: every wheel to the minimum width, then every wheel to the base width. */
    method Start()
      modifies controller`writes, controller.pins
      ensures var n := controller.pins.Length;
        controller.writes == old(controller.writes) + Writes(n, [MinPwm, MinPwm, MinPwm, MinPwm])
                                                   + Writes(n, [BasePwm, BasePwm, BasePwm, BasePwm])
      ensures forall i :: 0 <= i < controller.pins.Length ==>
        controller.pins[i] == if i < 4 then old(controller.pins[i]).(pwm := BasePwm) else old(controller.pins[i])
    {
      DriveFour([MinPwm, MinPwm, MinPwm, MinPwm]);
      assert Clamped([MinPwm, MinPwm, MinPwm, MinPwm]) == [MinPwm, MinPwm, MinPwm, MinPwm];
      DriveFour([BasePwm, BasePwm, BasePwm, BasePwm]);
      assert Clamped([BasePwm, BasePwm, BasePwm, BasePwm]) == [BasePwm, BasePwm, BasePwm, BasePwm];
    }

    /** `stop`: every wheel to the base width. */
    method Stop()
      modifies controller`writes, controller.pins
      ensures controller.writes == old(controller.writes) + Writes(controller.pins.Length, [BasePwm, BasePwm, BasePwm, BasePwm])
      ensures forall i :: 0 <= i < controller.pins.Length ==>
        controller.pins[i] == if i < 4 then old(controller.pins[i]).(pwm := BasePwm) else old(controller.pins[i])
    {
      DriveFour([BasePwm, BasePwm, BasePwm, BasePwm]);
      assert Clamped([BasePwm, BasePwm, BasePwm, BasePwm]) == [BasePwm, BasePwm, BasePwm, BasePwm];
    }

    /** `move`: a pattern of other than four signs fails its assertion before any write. */
    method Move(pattern: seq<int>, speed: int) returns (r: Result<Unit>)
      modifies controller`writes, controller.pins
      ensures |pattern| != 4 ==>
        (r == Err(AssertionError) && controller.writes == old(controller.writes) && controller.pins[..] == old(controller.pins[..]))
      ensures |pattern| == 4 ==>
        (r == Ok(Unit) && controller.writes == old(controller.writes) + Writes(controller.pins.Length, MoveWidths(pattern, speed)))
      ensures |pattern| == 4 ==> forall i :: 0 <= i < controller.pins.Length ==>
        controller.pins[i] == if i < 4 then old(controller.pins[i]).(pwm := MoveWidths(pattern, speed)[i]) else old(controller.pins[i])
    {
      if |pattern| != 4 {
        return Err(AssertionError);
      }
      DriveFour(Requested(pattern, speed));
      return Ok(Unit);
    }
  }
}
