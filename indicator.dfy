/**
 * The beeper and the status LED (src/indicator.py). Each drives one output pin; the levels
 * written to it are kept in order in `writes`. The clock `toggle` reads is a parameter, and the
 * delays of `loop` are left out.
 */
module Indicator {

  /** The levels `count` beeps write: on, off, on, off, ... */
  function Beeps(count: nat): (w: seq<int>)
    ensures |w| == 2 * count
    ensures forall i :: 0 <= i < |w| ==> w[i] == (if i % 2 == 0 then 1 else 0)
  {
    if count == 0 then [] else Beeps(count - 1) + [1, 0]
  }

  class BeepIndicator {
    const pinId: int
    var writes: seq<int>

    constructor (pinId: int)
      ensures this.pinId == pinId && writes == []
    {
      this.pinId := pinId;
      writes := [];
    }

    /** `on`: drive the pin high. */
    method On()
      modifies this`writes
      ensures writes == old(writes) + [1]
    {
      writes := writes + [1];
    }

    /** `off`: drive the pin low. */
    method Off()
      modifies this`writes
      ensures writes == old(writes) + [0]
    {
      writes := writes + [0];
    }

    /** `loop`: `count` beeps, each the pin high then low; a count of zero or less writes nothing. */
    method Loop(count: int)
      modifies this`writes
      ensures writes == old(writes) + Beeps(if count > 0 then count else 0)
      ensures count > 0 ==> writes[|writes| - 1] == 0
    {
      var n := if count > 0 then count else 0;
      for i := 0 to n
        invariant writes == old(writes) + Beeps(i)
      {
        On();
        Off();
      }
    }
  }

  /** What `toggle` reads and updates: the LED's state, its last toggle time and the pin's writes. */
  datatype Led = Led(state: bool, last: int, writes: seq<int>)

  /**
   * `toggle` at time `now`: once a full period has passed since the last toggle, flip the state,
   * drive the pin to match and remember the time; before that, nothing changes.
   */
  function Toggled(l: Led, period: int, now: int): (t: Led)
    ensures t.state != l.state <==> now - l.last >= period
    ensures t.state != l.state ==> t.last == now && t.writes == l.writes + [if t.state then 1 else 0]
    ensures t.state == l.state ==> t == l
  {
    if now - l.last >= period then
      var s := !l.state;
      Led(s, now, l.writes + [if s then 1 else 0])
    else l
  }

  /**
   * Successive calls of `toggle` at the given times: the pin's earlier writes are kept, and each
   * call adds at most one.
   */
  function Blink(l: Led, period: int, times: seq<int>): (b: Led)
    ensures |l.writes| <= |b.writes| <= |l.writes| + |times|
    ensures b.writes[..|l.writes|] == l.writes
    decreases |times|
  {
    if times == [] then l else Blink(Toggled(l, period, times[0]), period, times[1..])
  }

  /** The pin shows the state: nothing written yet and off, or the last write is the state's level. */
  predicate PinShowsState(l: Led)
  {
    if l.writes == [] then !l.state else l.writes[|l.writes| - 1] == (if l.state then 1 else 0)
  }

  class LedIndicator {
    const pinId: int
    const periodNs: int
    var state: bool
    var lastToggle: int
    var writes: seq<int>

    /** `__init__`: the period is given in milliseconds and kept in nanoseconds; off, never toggled. */
    constructor (pinId: int, periodMs: int)
      ensures this.pinId == pinId && periodNs == periodMs * 1_000_000
      ensures Snapshot() == Led(false, 0, []) && PinShowsState(Snapshot())
    {
      this.pinId := pinId;
      periodNs := periodMs * 1_000_000;
      lastToggle := 0;
      state := false;
      writes := [];
    }

    function Snapshot(): Led
      reads this
    {
      Led(state, lastToggle, writes)
    }

    method On()
      modifies this`writes
      ensures writes == old(writes) + [1]
    {
      writes := writes + [1];
    }

    method Off()
      modifies this`writes
      ensures writes == old(writes) + [0]
    {
      writes := writes + [0];
    }

    /** `toggle`, with the clock's reading in nanoseconds as `now`. */
    method Toggle(now: int)
      modifies this
      ensures Snapshot() == Toggled(old(Snapshot()), periodNs, now)
    {
      if now - lastToggle >= periodNs {
        state := !state;
        if state {
          On();
        } else {
          Off();
        }
        lastToggle := now;
      }
    }
  }

  /** A toggle keeps the pin showing the state. */
  lemma ToggledShowsState(l: Led, period: int, now: int)
    requires PinShowsState(l)
    ensures PinShowsState(Toggled(l, period, now))
  {
  }

  /**
   * A toggle that flipped the LED is followed by none within the next period: the LED changes at
   * most once per period.
   */
  lemma AtMostOncePerPeriod(l: Led, period: int, now: int, later: int)
    requires Toggled(l, period, now).state != l.state
    requires later - now < period
    ensures Toggled(Toggled(l, period, now), period, later) == Toggled(l, period, now)
  {
  }

  /**
   * Calls spaced a full period apart, the first a period after the last toggle, each flip the LED:
   * after `n` of them it is on exactly when it started off and `n` is odd, and each wrote once.
   */
  lemma {:induction false} BlinkSpaced(l: Led, period: int, times: seq<int>)
    requires times != [] ==> times[0] - l.last >= period
    requires forall i :: 0 < i < |times| ==> times[i] - times[i - 1] >= period
    ensures Blink(l, period, times).state == (l.state != (|times| % 2 == 1))
    ensures |Blink(l, period, times).writes| == |l.writes| + |times|
    ensures times != [] ==> Blink(l, period, times).last == times[|times| - 1]
    decreases |times|
  {
    if times != [] {
      var next := Toggled(l, period, times[0]);
      assert next.last == times[0];
      assert forall i :: 0 < i < |times[1..]| ==> times[1..][i] == times[i + 1] && times[1..][i - 1] == times[i];
      BlinkSpaced(next, period, times[1..]);
      if |times| > 1 {
        assert times[1..][|times[1..]| - 1] == times[|times| - 1];
      }
    }
  }

  /** Along any calls of `toggle`, the pin keeps showing the state. */
  lemma {:induction false} BlinkShowsState(l: Led, period: int, times: seq<int>)
    requires PinShowsState(l)
    ensures PinShowsState(Blink(l, period, times))
    decreases |times|
  {
    if times != [] {
      ToggledShowsState(l, period, times[0]);
      BlinkShowsState(Toggled(l, period, times[0]), period, times[1..]);
    }
  }
}
