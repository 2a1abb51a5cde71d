/**
 * The touch screen of the earlier app script (service/app.py): states INITING/INITED/INPUT, a
 * latch `is_in_pressed` that a press sets and a handler clears, and handlers that run on a
 * reading taken after the press has ended, at that reading's coordinates.
 *
 * The screen size is a parameter; drawing and `last_x`/`last_y` (written, never read) are left out.
 */
module TouchApp {
  import opened Common
  import opened Touch

  datatype State = Initing | Inited | Input

  /** The labels the two guarded home buttons are compared against. */
  const LtLabel := "RUN"
  const RbLabel := "EXIT"

  /**
   * The 4x4 keypad grid: cells of `width // 4` by `height // 4`, but with the columns at
   * `0, width // 4, width // 2, width * 3 // 4` (and the rows likewise), which are not multiples
   * of the cell width when the width is not a multiple of 4.
   */
  function InputGrid(width: nat, height: nat): Grid
  {
    Grid([0, width / 4, width / 2, width * 3 / 4], [0, height / 4, height / 2, height * 3 / 4], width / 4, height / 4)
  }

  /** The labels of the keypad's back and confirm buttons; the rest of the drawing is `KeypadDrawing`'s. */
  const BackLabel := "<<"
  const ConfirmLabel := "OK"
  const Drawn := KeypadDrawing(BackLabel, ConfirmLabel)

  /** The globals: the screen, the input buffer, the press latch and the exit flag. */
  datatype Ui = Ui(curr: State, input: string, latch: bool, exit: bool)

  /**
   * `on_clicked`: nothing without the latch; otherwise clear it and act on the home button hit.
   * The home screen never edits the buffer, leaves only for the keypad, and raises the exit flag
   * only for a press on the bottom-right quadrant.
   */
  function ClickInited(u: Ui, width: nat, height: nat, px: int, py: int): (v: Ui)
    ensures !u.latch ==> v == u
    ensures u.latch ==> !v.latch
    ensures v.input == u.input && (v.curr == u.curr || v.curr == Input)
    ensures v.exit && !u.exit ==> IsInBtn(px, py, CellRect(HomeGrid(width, height), 1, 1))
  {
    if !u.latch then u
    else
      var v := u.(latch := false);
      var hit := FirstHit(HomeGrid(width, height), HomeButtons, px, py);
      if hit == Some(Lt) then (if LtLabel == "RUN" then v.(curr := Input) else v)
      else if hit == Some(Rb) then (if RbLabel == "EXIT" then v.(exit := true) else v)
      else v
  }

  /**
   * `on_input_clicked`: nothing without the latch; otherwise clear it and act on the key hit. A
   * click types at most one character, leaves only for INITED (with the buffer cleared), and never
   * touches the exit flag.
   */
  function ClickInput(u: Ui, width: nat, height: nat, px: int, py: int): (v: Ui)
    ensures !u.latch ==> v == u
    ensures u.latch ==> !v.latch
    ensures |v.input| <= |u.input| + 1 && v.exit == u.exit
    ensures v.curr != u.curr ==> v.curr == Inited && v.input == ""
  {
    if !u.latch then u
    else
      var v := u.(latch := false);
      var hit := FirstHit(InputGrid(width, height), KeypadButtons, px, py);
      if hit == None then v
      else if hit == Some(Back) then v.(input := "", curr := Inited)
      else v.(input := Edit(v.input, hit.value))
  }

  /**
   * The `match current_state` run on a released reading while the latch is set: leaving INITING
   * keeps the latch, and only the home screen can raise the exit flag.
   */
  function Release(u: Ui, width: nat, height: nat, px: int, py: int): (v: Ui)
    ensures u.curr == Initing ==> v.curr == Inited && v.latch == u.latch
    ensures v.exit && !u.exit ==> u.curr == Inited
  {
    match u.curr
    case Initing => u.(curr := Inited)
    case Inited => ClickInited(u, width, height, px, py)
    case Input => ClickInput(u, width, height, px, py)
  }

  /** One `touch.read()`: the coordinates and whether the screen is pressed. */
  datatype Reading = Reading(x: int, y: int, pressed: bool)

  /**
   * One pass of the loop: `last_pressed` follows the reading; a press sets the latch; a reading
   * without a press while the latch is set dispatches.
   */
  function Poll(u: Ui, last: bool, width: nat, height: nat, t: Reading): (r: (Ui, bool))
    ensures r.1 == t.pressed
    ensures t.pressed ==> r.0 == u.(latch := true)
    ensures !t.pressed && !u.latch ==> r.0 == u
  {
    var last2 := if t.pressed != last then t.pressed else last;
    if t.pressed then (u.(latch := true), last2)
    else if u.latch then (Release(u, width, height, t.x, t.y), last2)
    else (u, last2)
  }

  /**
   * The loop over successive readings, which ends once the exit flag is set: with the flag set it
   * does nothing, and a run the flag did not stop ends with the press flag of the last reading.
   */
  function Replay(u: Ui, last: bool, width: nat, height: nat, readings: seq<Reading>): (r: (Ui, bool))
    ensures u.exit ==> r == (u, last)
    ensures !r.0.exit && readings != [] ==> r.1 == readings[|readings| - 1].pressed
    decreases |readings|
  {
    if readings == [] || u.exit then (u, last)
    else
      var (u2, last2) := Poll(u, last, width, height, readings[0]);
      Replay(u2, last2, width, height, readings[1..])
  }

  /** The script's globals and the handlers that update them. */
  class TouchApp {
    const width: nat
    const height: nat
    var curr: State
    var input: string
    var latch: bool
    var lastPressed: bool
    var exit: bool

    function Snapshot(): Ui
      reads this
    {
      Ui(curr, input, latch, exit)
    }

    constructor (width: nat, height: nat)
      ensures this.width == width && this.height == height
      ensures Snapshot() == Ui(Initing, "", false, false) && !lastPressed
    {
      this.width := width;
      this.height := height;
      curr := Initing;
      input := "";
      latch := false;
      lastPressed := false;
      exit := false;
    }

    method OnClicked(px: int, py: int)
      modifies this`curr, this`latch, this`exit
      ensures Snapshot() == ClickInited(old(Snapshot()), width, height, px, py)
    {
      if !latch {
        return;
      }
      latch := false;
      var hit := FirstHit(HomeGrid(width, height), HomeButtons, px, py);
      if hit == Some(Lt) {
        if LtLabel == "RUN" {
          curr := Input;
        }
      } else if hit == Some(Rt) {
      } else if hit == Some(Lb) {
      } else if hit == Some(Rb) {
        if RbLabel == "EXIT" {
          exit := true;
        }
      }
    }

    method OnInputClicked(px: int, py: int)
      modifies this`curr, this`input, this`latch
      ensures Snapshot() == ClickInput(old(Snapshot()), width, height, px, py)
    {
      if !latch {
        return;
      }
      latch := false;
      var hit := FirstHit(InputGrid(width, height), KeypadButtons, px, py);
      if hit == Some(Back) {
        input := "";
        curr := Inited;
        return;
      } else if hit == Some(Confirm) {
      } else if hit.Some? && hit.value.Type? {
        input := input + [hit.value.c];
      } else if hit == Some(Delete) {
        if |input| > 0 {
          input := input[..|input| - 1];
        }
      }
      assert hit == None || !hit.value.Back?;
    }

    /** The body of the main loop for one reading. */
    method PollOnce(t: Reading)
      modifies this
      ensures (Snapshot(), lastPressed) == Poll(old(Snapshot()), old(lastPressed), width, height, t)
    {
      if t.pressed != lastPressed {
        lastPressed := t.pressed;
      }
      if t.pressed {
        latch := true;
      } else if latch {
        match curr {
          case Initing => curr := Inited;
          case Inited => OnClicked(t.x, t.y);
          case Input => OnInputClicked(t.x, t.y);
        }
      }
    }

    /** The main loop, run over the readings until they run out or the exit flag is set. */
    method Run(readings: seq<Reading>)
      modifies this
      ensures (Snapshot(), lastPressed) == Replay(old(Snapshot()), old(lastPressed), width, height, readings)
    {
      var i := 0;
      while i < |readings| && !exit
        invariant 0 <= i <= |readings|
        invariant Replay(Snapshot(), lastPressed, width, height, readings[i..])
               == Replay(old(Snapshot()), old(lastPressed), width, height, readings)
      {
        PollOnce(readings[i]);
        assert readings[i..][1..] == readings[i + 1..];
        i := i + 1;
      }
    }
  }

  // ---------------------------------------------------------------------------------------------
  // The keypad

  /**
   * The keypad's columns sit at the quarters `width * k // 4` of the width, its rows likewise; the
   * cells do not overlap, and the last ones reach the screen's edge.
   */
  lemma InputGridSpaced(width: nat, height: nat)
    ensures var g := InputGrid(width, height);
      && Spaced(g) && OnGrid(g, KeypadButtons) && |g.xs| == 4 && |g.ys| == 4
      && (forall k :: 0 <= k < 4 ==> g.xs[k] == width * k / 4 && g.ys[k] == height * k / 4)
      && g.xs[3] + g.w <= width && g.ys[3] + g.h <= height
  {
  }

  // ---------------------------------------------------------------------------------------------
  // The handlers

  /** Both handlers do nothing unless the latch is set, and clear it whenever they act. */
  lemma HandlersNeedLatch(u: Ui, width: nat, height: nat, px: int, py: int)
    ensures !u.latch ==> ClickInited(u, width, height, px, py) == u && ClickInput(u, width, height, px, py) == u
    ensures u.latch ==> !ClickInited(u, width, height, px, py).latch && !ClickInput(u, width, height, px, py).latch
  {
  }

  /**
   * On the home screen the RUN quadrant opens the keypad and the EXIT quadrant sets the exit flag;
   * the other two only clear the latch.
   */
  lemma HomeClicks(u: Ui, width: nat, height: nat, px: int, py: int)
    requires u.curr == Inited && u.latch
    ensures var g := HomeGrid(width, height); var v := ClickInited(u, width, height, px, py);
      && (Inside(px, py, CellRect(g, 0, 0)) ==> v == u.(latch := false, curr := Input))
      && (Inside(px, py, CellRect(g, 1, 0)) || Inside(px, py, CellRect(g, 0, 1)) ==> v == u.(latch := false))
      && (Inside(px, py, CellRect(g, 1, 1)) ==> v == u.(latch := false, exit := true))
  {
    var g := HomeGrid(width, height);
    if Inside(px, py, CellRect(g, 0, 0)) { HomeQuadrants(width, height, 0, 0, px, py); }
    if Inside(px, py, CellRect(g, 1, 0)) { HomeQuadrants(width, height, 1, 0, px, py); }
    if Inside(px, py, CellRect(g, 0, 1)) { HomeQuadrants(width, height, 0, 1, px, py); }
    if Inside(px, py, CellRect(g, 1, 1)) { HomeQuadrants(width, height, 1, 1, px, py); }
  }

  /** What the key the keypad's elif chain picks does to the state. */
  lemma HitKeyClicks(u: Ui, width: nat, height: nat, px: int, py: int)
    requires u.curr == Input && u.latch
    ensures var k := FirstHit(InputGrid(width, height), KeypadButtons, px, py); var v := ClickInput(u, width, height, px, py);
      && (k.Some? && k.value.Type? ==> v == u.(latch := false, input := u.input + [k.value.c]))
      && (k == Some(Delete) ==> v.curr == Input && v.input == if u.input == [] then [] else u.input[..|u.input| - 1])
      && (k == Some(Back) ==> v == u.(latch := false, input := "", curr := Inited))
      && (k == Some(Confirm) || k == None ==> v == u.(latch := false))
  {
  }

  /**
   * On the keypad screen a labelled cell types its character after the buffer, DEL drops the last
   * character, the back button clears the buffer and returns to INITED, and OK and the unlabelled
   * cells only clear the latch.
   */
  lemma KeypadClicks(u: Ui, width: nat, height: nat, col: nat, row: nat, px: int, py: int)
    requires u.curr == Input && u.latch && col < 4 && row < 4
    requires Inside(px, py, CellRect(InputGrid(width, height), col, row))
    ensures var k := DrawnKey(BackLabel, ConfirmLabel, Drawn[row][col]); var v := ClickInput(u, width, height, px, py);
      && (k.Some? && k.value.Type? ==> v == u.(latch := false, input := u.input + [k.value.c]))
      && (k == Some(Delete) ==> v.curr == Input && v.input == if u.input == [] then [] else u.input[..|u.input| - 1])
      && (k == Some(Back) ==> v == u.(latch := false, input := "", curr := Inited))
      && (k == Some(Confirm) || k == None ==> v == u.(latch := false))
  {
    var g := InputGrid(width, height);
    assert Spaced(g) && OnGrid(g, KeypadButtons) && |g.xs| == 4 && |g.ys| == 4 by {
      InputGridSpaced(width, height);
    }
    KeypadMatchesDrawing(g, BackLabel, ConfirmLabel, col, row, px, py);
    HitKeyClicks(u, width, height, px, py);
  }

  // ---------------------------------------------------------------------------------------------
  // The loop

  /** A click is a press followed by a reading without one; it acts at the coordinates of the latter. */
  lemma ClickOnRelease(u: Ui, last: bool, width: nat, height: nat, press: Reading, release: Reading)
    requires !u.exit && u.curr != Initing && press.pressed && !release.pressed
    ensures Replay(u, last, width, height, [press, release])
         == (Release(u.(latch := true), width, height, release.x, release.y), false)
  {
    var (u1, l1) := Poll(u, last, width, height, press);
    assert [press, release][1..] == [release];
    var (u2, l2) := Poll(u1, l1, width, height, release);
    assert [release][1..] == [];
    assert Replay(u2, l2, width, height, []) == (u2, l2);
  }

  /**
   * Leaving INITING does not clear the latch, so the next reading without a press, with no touch in
   * between, runs `on_clicked` at that reading's coordinates.
   */
  lemma InitingLeavesLatch(u: Ui, last: bool, width: nat, height: nat, press: Reading, r1: Reading, r2: Reading)
    requires !u.exit && u.curr == Initing && press.pressed && !r1.pressed && !r2.pressed
    ensures Replay(u, last, width, height, [press, r1, r2])
         == (ClickInited(u.(curr := Inited, latch := true), width, height, r2.x, r2.y), false)
  {
    var (u1, l1) := Poll(u, last, width, height, press);
    assert [press, r1, r2][1..] == [r1, r2];
    var (u2, l2) := Poll(u1, l1, width, height, r1);
    assert u2 == u.(curr := Inited, latch := true);
    assert [r1, r2][1..] == [r2];
    var (u3, l3) := Poll(u2, l2, width, height, r2);
    assert [r2][1..] == [];
    assert Replay(u2, l2, width, height, [r2]) == (u3, l3);
    assert Replay(u1, l1, width, height, [r1, r2]) == (u3, l3);
  }

  /** A press held over any number of readings only sets the latch. */
  lemma {:induction false} HeldPressLatches(u: Ui, last: bool, width: nat, height: nat, readings: seq<Reading>)
    requires !u.exit && readings != []
    requires forall k :: 0 <= k < |readings| ==> readings[k].pressed
    ensures Replay(u, last, width, height, readings) == (u.(latch := true), true)
    decreases |readings|
  {
    if |readings| > 1 {
      HeldPressLatches(u.(latch := true), true, width, height, readings[1..]);
    }
  }
}
