/**
 * The PS2 controller's button word (src/ps2.py): sixteen active-low bits, one per button, and
 * the queries `PS2ButtonState` answers from the current and previous words.
 */
module Ps2Buttons {
  import opened Common

  /** `PS2Buttons`: one bit per button in the 16-bit button word. */
  const Select: bv16 := 0x0001
  const L3: bv16 := 0x0002
  const R3: bv16 := 0x0004
  const StartButton: bv16 := 0x0008
  const Up: bv16 := 0x0010
  const Right: bv16 := 0x0020
  const Down: bv16 := 0x0040
  const Left: bv16 := 0x0080
  const L2: bv16 := 0x0100
  const R2: bv16 := 0x0200
  const L1: bv16 := 0x0400
  const R1: bv16 := 0x0800
  const Triangle: bv16 := 0x1000
  const Circle: bv16 := 0x2000
  const Cross: bv16 := 0x4000
  const Square: bv16 := 0x8000

  /** A mask with exactly one bit set. */
  predicate SingleBit(m: bv16)
  {
    m != 0 && m & (m - 1) == 0
  }

  /**
   * Each button is a single bit and together they cover the whole word; sixteen single bits
   * covering sixteen bits are pairwise distinct.
   */
  lemma ButtonBits()
    ensures SingleBit(Select) && SingleBit(L3) && SingleBit(R3) && SingleBit(StartButton)
    ensures SingleBit(Up) && SingleBit(Right) && SingleBit(Down) && SingleBit(Left)
    ensures SingleBit(L2) && SingleBit(R2) && SingleBit(L1) && SingleBit(R1)
    ensures SingleBit(Triangle) && SingleBit(Circle) && SingleBit(Cross) && SingleBit(Square)
    ensures Select | L3 | R3 | StartButton | Up | Right | Down | Left
          | L2 | R2 | L1 | R1 | Triangle | Circle | Cross | Square == 0xFFFF
  {
  }

  /**
   * `is_pressed`: the button's bits are low (active low). The empty mask is always pressed, and
   * the whole-word mask is pressed only by the all-low word.
   */
  predicate Pressed(state: bv16, mask: bv16): (down: bool)
    ensures mask == 0 ==> down
    ensures mask == 0xFFFF ==> (down <==> state == 0)
  {
    state & mask == 0
  }

  /**
   * `has_changed`: the masked bits differ for a nonzero mask; the whole word for none or 0. A
   * change in the masked bits is a change of the word.
   */
  predicate Changed(previous: bv16, current: bv16, mask: Option<bv16>): (changed: bool)
    ensures changed ==> previous != current
    ensures mask.None? ==> (changed <==> previous != current)
  {
    if mask.Some? && mask.value != 0 then previous & mask.value != current & mask.value
    else previous != current
  }

  class Ps2ButtonState {
    var current: bv16
    var previous: bv16

    constructor ()
      ensures current == 0 && previous == 0
    {
      current := 0;
      previous := 0;
    }

    /** `update`: the current word becomes the previous one. */
    method Update(newState: bv16)
      modifies this
      ensures previous == old(current) && current == newState
    {
      previous := current;
      current := newState;
    }

    /** `is_pressed` on the current word: no mask bit is high. */
    predicate IsPressed(mask: bv16)
      reads this
    {
      Pressed(current, mask)
    }

    /** `is_released` tests the same condition as `is_pressed`. */
    predicate IsReleased(mask: bv16)
      reads this
    {
      Pressed(current, mask)
    }

    /** `has_changed` since the last `update`, on the two stored words. */
    predicate HasChanged(mask: Option<bv16>)
      reads this
    {
      Changed(previous, current, mask)
    }

    /** `was_pressed`: pressed now, and the masked bits changed in the last update. */
    predicate WasPressed(mask: bv16)
      reads this
    {
      IsPressed(mask) && HasChanged(Some(mask))
    }

    /** `was_released` as written: since `is_released` is `is_pressed`, it is `was_pressed`. */
    predicate WasReleased(mask: bv16)
      reads this
    {
      IsReleased(mask) && HasChanged(Some(mask))
    }
  }

  /**
   * What the queries on a button state promise: the empty mask is pressed, a pressed mask has no
   * bit high in the current word, and neither `has_changed` nor `was_pressed` holds unless the
   * last `update` changed the word.
   */
  lemma ButtonStateQueries(s: Ps2ButtonState, mask: bv16)
    ensures mask == 0 ==> s.IsPressed(mask)
    ensures s.IsPressed(mask) ==> s.current & mask == 0
    ensures s.HasChanged(Some(mask)) ==> s.previous != s.current
    ensures s.WasPressed(mask) ==> s.IsPressed(mask) && s.previous != s.current
  {
  }

  /** As written, `is_released` and `was_released` hold exactly when `is_pressed` and `was_pressed` do. */
  lemma ReleasedMirrorsPressed(s: Ps2ButtonState, mask: bv16)
    ensures s.IsReleased(mask) <==> s.IsPressed(mask)
    ensures s.WasReleased(mask) <==> s.WasPressed(mask)
  {
  }

  /**
   * For one button, `was_pressed` holds exactly when the button's bit went from high (released)
   * to low (pressed) in the last update.
   */
  lemma WasPressedIsFallingEdge(previous: bv16, current: bv16, b: bv16)
    requires SingleBit(b)
    ensures Pressed(current, b) && Changed(previous, current, Some(b)) <==> previous & b != 0 && current & b == 0
  {
    SingleBitMasks(previous, b);
    SingleBitMasks(current, b);
    if current & b == 0 {
      if previous & b == 0 {
        assert !Changed(previous, current, Some(b));
      } else {
        assert Changed(previous, current, Some(b));
      }
    }
  }

  /** Masking with one bit leaves either nothing or that bit. */
  lemma SingleBitMasks(x: bv16, b: bv16)
    requires SingleBit(b)
    ensures x & b == 0 || x & b == b
  {
  }

  /** The mask 0 and no mask both compare the whole word. */
  lemma ZeroMaskIsWholeWord(previous: bv16, current: bv16)
    ensures Changed(previous, current, Some(0)) == Changed(previous, current, None)
    ensures Changed(previous, current, None) <==> previous != current
  {
  }

  /**
   * As written, `was_released` fires when a button goes down, exactly as `was_pressed` does, and
   * never when it comes back up.
   */
  lemma WasReleasedFiresOnPress(s: Ps2ButtonState, b: bv16)
    requires SingleBit(b)
    ensures s.WasReleased(b) <==> s.previous & b != 0 && s.current & b == 0
  {
    WasPressedIsFallingEdge(s.previous, s.current, b);
  }

  /** What `is_released` evidently means: not pressed, so some masked bit is high. */
  predicate ReleasedIntended(state: bv16, mask: bv16)
  {
    !Pressed(state, mask)
  }

  /** `was_released` built on the intended `is_released`. */
  predicate WasReleasedIntended(previous: bv16, current: bv16, mask: bv16)
  {
    ReleasedIntended(current, mask) && Changed(previous, current, Some(mask))
  }

  /**
   * With the intended `is_released`, `was_released` holds exactly on the rising edge of the
   * button's bit, and never together with `was_pressed`.
   */
  lemma WasReleasedIntendedIsRisingEdge(previous: bv16, current: bv16, b: bv16)
    requires SingleBit(b)
    ensures WasReleasedIntended(previous, current, b) <==> previous & b == 0 && current & b != 0
    ensures !(WasReleasedIntended(previous, current, b) && Pressed(current, b) && Changed(previous, current, Some(b)))
  {
    SingleBitMasks(previous, b);
    SingleBitMasks(current, b);
    if current & b != 0 {
      if previous & b == 0 {
        assert Changed(previous, current, Some(b));
      } else {
        assert !Changed(previous, current, Some(b));
      }
    }
  }
}
