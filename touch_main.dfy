/**
 * The touch screen of the service script (service/main.py): a state machine over
 * INIT/HOME/STEP/EXEC/INPUT/MESSAGE driven by the press edges of a polled touch reading, a 2x2
 * home screen and a 4x4 keypad screen editing the pH input buffer.
 *
 * The screen size is a parameter (the display's width and height); drawing is left out, so a
 * handler's effect is its effect on `curr_state`, `prev_state`, `input_ph_str` and the exit flag.
 */
module TouchMain {
  import opened Common
  import opened Touch

  datatype State = Init | Home | Step | Exec | Input | Message

  /** The 4x4 grid: cells of `width // 4` by `height // 4`, columns at multiples of the cell width. */
  function InputGrid(width: nat, height: nat): Grid
  {
    var gw := width / 4;
    var gh := height / 4;
    Grid([0, gw, 2 * gw, 3 * gw], [0, gh, 2 * gh, 3 * gh], gw, gh)
  }

  /** The labels of the keypad's back and confirm buttons; the rest of the drawing is `KeypadDrawing`'s. */
  const BackLabel := "×"
  const ConfirmLabel := "✓"
  const Drawn := KeypadDrawing(BackLabel, ConfirmLabel)

  /** The global state the handlers update. */
  datatype Ui = Ui(curr: State, prev: State, input: string, exit: bool)

  /** `on_clicked_init`: any click shows the home screen and nothing else changes. */
  function ClickInit(u: Ui): (v: Ui)
    ensures v.curr == Home && v.(curr := u.curr) == u
  {
    u.(curr := Home)
  }

  /**
   * `on_clicked_home`: the home screen never edits the buffer; a press on no button changes
   * nothing; and the exit flag is only raised by a press on the bottom-right quadrant.
   */
  function ClickHome(u: Ui, width: nat, height: nat, px: int, py: int): (v: Ui)
    ensures v.input == u.input
    ensures FirstHit(HomeGrid(width, height), HomeButtons, px, py).None? ==> v == u
    ensures v.exit && !u.exit ==> IsInBtn(px, py, CellRect(HomeGrid(width, height), 1, 1))
  {
    var hit := FirstHit(HomeGrid(width, height), HomeButtons, px, py);
    if hit == Some(Lt) then u.(curr := Input)
    else if hit == Some(Rt) then u.(curr := Step)
    else if hit == Some(Lb) then u.(prev := u.curr, curr := Message)
    else if hit == Some(Rb) then u.(exit := true)
    else u
  }

  /**
   * `on_clicked_input`: a keypad click types at most one character, leaves only for HOME (with
   * the buffer cleared), and never touches the exit flag or the remembered screen.
   */
  function ClickInput(u: Ui, width: nat, height: nat, px: int, py: int): (v: Ui)
    ensures |v.input| <= |u.input| + 1
    ensures v.curr != u.curr ==> v.curr == Home && v.input == ""
    ensures v.exit == u.exit && v.prev == u.prev
  {
    var hit := FirstHit(InputGrid(width, height), KeypadButtons, px, py);
    if hit == None then u
    else if hit == Some(Back) then u.(input := "", curr := Home)
    else u.(input := Edit(u.input, hit.value))
  }

  /** `on_clicked_message`: return to the remembered screen, keeping the buffer and the exit flag. */
  function ClickMessage(u: Ui): (v: Ui)
    ensures v.curr == u.prev && v.input == u.input && v.exit == u.exit
  {
    u.(curr := u.prev)
  }

  /** `send_message`: remember the current screen and show the message. */
  function Messaged(u: Ui): Ui
  {
    u.(prev := u.curr, curr := Message)
  }

  /** The `match curr_state` of the main loop; STEP and EXEC have no case. */
  function Click(u: Ui, width: nat, height: nat, px: int, py: int): Ui
  {
    match u.curr
    case Init => ClickInit(u)
    case Home => ClickHome(u, width, height, px, py)
    case Input => ClickInput(u, width, height, px, py)
    case Message => ClickMessage(u)
    case Step => u
    case Exec => u
  }

  /** One `touch.read()`: the coordinates and whether the screen is pressed. */
  datatype Reading = Reading(x: int, y: int, pressed: bool)

  /**
   * One pass of the loop: dispatch on a rising edge, forget the press on a release. The press
   * flag always ends as the reading's, and only a new press changes the state.
   */
  function Poll(u: Ui, last: bool, width: nat, height: nat, t: Reading): (r: (Ui, bool))
    ensures r.1 == t.pressed
    ensures last || !t.pressed ==> r.0 == u
  {
    if t.pressed && !last then (Click(u, width, height, t.x, t.y), true)
    else if !t.pressed then (u, false)
    else (u, last)
  }

  /**
   * The loop over successive readings, which ends once the exit flag is set: with the flag set it
   * does nothing, and a run the flag did not stop ends with the press flag of the last reading.
   */
  function Replay(u: Ui, last: bool, width: nat, height: nat, readings: seq<Reading>): (r: (Ui, bool))
    ensures u.exit ==> r == (u, last)
    ensures !r.0.exit && readings != [] ==> r.1 == readings[|readings| - 1].pressed
    decreases |readings|
  {
    if readings == [] || u.exit then (u, last)
    else
      var (u2, last2) := Poll(u, last, width, height, readings[0]);
      Replay(u2, last2, width, height, readings[1..])
  }

  /** The script's globals and the handlers that update them. */
  class TouchUi {
    const width: nat
    const height: nat
    var curr: State
    var prev: State
    var input: string
    var lastPressed: bool
    var exit: bool

    function Snapshot(): Ui
      reads this
    {
      Ui(curr, prev, input, exit)
    }

    constructor (width: nat, height: nat)
      ensures this.width == width && this.height == height
      ensures Snapshot() == Ui(Init, Init, "", false) && !lastPressed
    {
      this.width := width;
      this.height := height;
      curr := Init;
      prev := Init;
      input := "";
      lastPressed := false;
      exit := false;
    }

    method OnClickedInit(px: int, py: int)
      modifies this`curr
      ensures Snapshot() == ClickInit(old(Snapshot()))
    {
      curr := Home;
    }

    method OnClickedHome(px: int, py: int)
      modifies this`curr, this`prev, this`exit
      ensures Snapshot() == ClickHome(old(Snapshot()), width, height, px, py)
    {
      var hit := FirstHit(HomeGrid(width, height), HomeButtons, px, py);
      if hit == Some(Lt) {
        curr := Input;
      } else if hit == Some(Rt) {
        curr := Step;
      } else if hit == Some(Lb) {
        prev := curr;
        curr := Message;
      } else if hit == Some(Rb) {
        exit := true;
      }
    }

    method OnClickedInput(px: int, py: int)
      modifies this`curr, this`input
      ensures Snapshot() == ClickInput(old(Snapshot()), width, height, px, py)
    {
      var hit := FirstHit(InputGrid(width, height), KeypadButtons, px, py);
      if hit == Some(Back) {
        input := "";
        curr := Home;
        return;
      } else if hit == Some(Confirm) {
      } else if hit.Some? && hit.value.Type? {
        input := input + [hit.value.c];
      } else if hit == Some(Delete) {
        if |input| > 0 {
          input := input[..|input| - 1];
        }
      }
      assert hit == None || !hit.value.Back?;
    }

    method OnClickedMessage(px: int, py: int)
      modifies this`curr
      ensures Snapshot() == ClickMessage(old(Snapshot()))
    {
      curr := prev;
    }

    method SendMessage()
      modifies this`prev, this`curr
      ensures Snapshot() == Messaged(old(Snapshot()))
    {
      prev := curr;
      curr := Message;
    }

    /** The body of the main loop for one reading. */
    method PollOnce(t: Reading)
      modifies this
      ensures (Snapshot(), lastPressed) == Poll(old(Snapshot()), old(lastPressed), width, height, t)
    {
      if t.pressed && !lastPressed {
        lastPressed := t.pressed;
        match curr {
          case Init => OnClickedInit(t.x, t.y);
          case Home => OnClickedHome(t.x, t.y);
          case Input => OnClickedInput(t.x, t.y);
          case Message => OnClickedMessage(t.x, t.y);
          case Step =>
          case Exec =>
        }
      } else if !t.pressed {
        lastPressed := t.pressed;
      }
    }

    /** The main loop, run over the readings until they run out or the exit flag is set. */
    method Run(readings: seq<Reading>)
      modifies this
      ensures (Snapshot(), lastPressed) == Replay(old(Snapshot()), old(lastPressed), width, height, readings)
    {
      var i := 0;
      while i < |readings| && !exit
        invariant 0 <= i <= |readings|
        invariant Replay(Snapshot(), lastPressed, width, height, readings[i..])
               == Replay(old(Snapshot()), old(lastPressed), width, height, readings)
      {
        PollOnce(readings[i]);
        assert readings[i..][1..] == readings[i + 1..];
        i := i + 1;
      }
    }
  }

  // ---------------------------------------------------------------------------------------------
  // The screens

  /**
   * The keypad's columns sit at multiples of the cell width `width // 4` (`GRID44_WIDTH * k`), its
   * rows likewise, so the cells are evenly spaced and may leave a strip at the right and bottom.
   */
  lemma InputGridSpaced(width: nat, height: nat)
    ensures var g := InputGrid(width, height);
      && Spaced(g) && OnGrid(g, KeypadButtons) && |g.xs| == 4 && |g.ys| == 4
      && (forall k :: 0 <= k < 4 ==> g.xs[k] == k * g.w && g.ys[k] == k * g.h)
      && 4 * g.w <= width && 4 * g.h <= height
  {
  }

  // ---------------------------------------------------------------------------------------------
  // The transitions

  /** In INIT any press shows the home screen. */
  lemma InitGoesHome(u: Ui, width: nat, height: nat, px: int, py: int)
    requires u.curr == Init
    ensures Click(u, width, height, px, py) == u.(curr := Home)
  {
  }

  /**
   * On the home screen the top-left quadrant opens the keypad, the top-right one the step screen,
   * the bottom-left one shows the message and remembers HOME, and the bottom-right one sets the
   * exit flag.
   */
  lemma HomeClicks(u: Ui, width: nat, height: nat, px: int, py: int)
    requires u.curr == Home
    ensures var g := HomeGrid(width, height); var v := Click(u, width, height, px, py);
      && (Inside(px, py, CellRect(g, 0, 0)) ==> v == u.(curr := Input))
      && (Inside(px, py, CellRect(g, 1, 0)) ==> v == u.(curr := Step))
      && (Inside(px, py, CellRect(g, 0, 1)) ==> v == u.(prev := Home, curr := Message))
      && (Inside(px, py, CellRect(g, 1, 1)) ==> v == u.(exit := true))
  {
    var g := HomeGrid(width, height);
    if Inside(px, py, CellRect(g, 0, 0)) { HomeQuadrants(width, height, 0, 0, px, py); }
    if Inside(px, py, CellRect(g, 1, 0)) { HomeQuadrants(width, height, 1, 0, px, py); }
    if Inside(px, py, CellRect(g, 0, 1)) { HomeQuadrants(width, height, 0, 1, px, py); }
    if Inside(px, py, CellRect(g, 1, 1)) { HomeQuadrants(width, height, 1, 1, px, py); }
  }

  /** What the key the keypad's elif chain picks does to the state. */
  lemma HitKeyClicks(u: Ui, width: nat, height: nat, px: int, py: int)
    requires u.curr == Input
    ensures var k := FirstHit(InputGrid(width, height), KeypadButtons, px, py); var v := Click(u, width, height, px, py);
      && (k.Some? && k.value.Type? ==> v == u.(input := u.input + [k.value.c]))
      && (k == Some(Delete) ==> v.curr == Input && v.input == if u.input == [] then [] else u.input[..|u.input| - 1])
      && (k == Some(Back) ==> v == u.(input := "", curr := Home))
      && (k == Some(Confirm) || k == None ==> v == u)
  {
  }

  /**
   * On the keypad screen a labelled cell types its character after whatever is already in the
   * buffer, however long; DEL drops the last character; the cross clears the buffer and goes home;
   * the tick and the unlabelled cells change nothing.
   */
  lemma KeypadClicks(u: Ui, width: nat, height: nat, col: nat, row: nat, px: int, py: int)
    requires u.curr == Input && col < 4 && row < 4
    requires Inside(px, py, CellRect(InputGrid(width, height), col, row))
    ensures var k := DrawnKey(BackLabel, ConfirmLabel, Drawn[row][col]); var v := Click(u, width, height, px, py);
      && (k.Some? && k.value.Type? ==> v == u.(input := u.input + [k.value.c]))
      && (k == Some(Delete) ==> v.curr == Input && v.input == if u.input == [] then [] else u.input[..|u.input| - 1])
      && (k == Some(Back) ==> v == u.(input := "", curr := Home))
      && (k == Some(Confirm) || k == None ==> v == u)
  {
    var g := InputGrid(width, height);
    assert Spaced(g) && OnGrid(g, KeypadButtons) && |g.xs| == 4 && |g.ys| == 4 by {
      InputGridSpaced(width, height);
    }
    KeypadMatchesDrawing(g, BackLabel, ConfirmLabel, col, row, px, py);
    HitKeyClicks(u, width, height, px, py);
  }

  /** A click on the message screen returns to the screen `send_message` was called from. */
  lemma MessageReturns(u: Ui, width: nat, height: nat, px: int, py: int)
    ensures Click(Messaged(u), width, height, px, py) == u.(prev := u.curr)
  {
  }

  /** STEP and EXEC have no handler: clicks leave the state as it is. */
  lemma StepExecInert(u: Ui, width: nat, height: nat, px: int, py: int)
    requires u.curr == Step || u.curr == Exec
    ensures Click(u, width, height, px, py) == u
  {
  }

  /** Once set, the exit flag stays set; it is only ever set from the home screen. */
  lemma ExitFlag(u: Ui, width: nat, height: nat, px: int, py: int)
    ensures u.exit ==> Click(u, width, height, px, py).exit
    ensures !u.exit && Click(u, width, height, px, py).exit ==> u.curr == Home
  {
  }

  // ---------------------------------------------------------------------------------------------
  // The loop

  /** A press that is held dispatches nothing, however many readings it lasts. */
  lemma {:induction false} HeldPressIdle(u: Ui, width: nat, height: nat, readings: seq<Reading>)
    requires forall k :: 0 <= k < |readings| ==> readings[k].pressed
    ensures Replay(u, true, width, height, readings) == (u, true)
  {
    if readings != [] && !u.exit {
      HeldPressIdle(u, width, height, readings[1..]);
    }
  }

  /** A press dispatches exactly once, at the coordinates of its first reading, until it is released. */
  lemma PressDispatchesOnce(u: Ui, width: nat, height: nat, t: Reading, held: seq<Reading>)
    requires !u.exit && t.pressed && !Click(u, width, height, t.x, t.y).exit
    requires forall k :: 0 <= k < |held| ==> held[k].pressed
    ensures Replay(u, false, width, height, [t] + held) == (Click(u, width, height, t.x, t.y), true)
  {
    assert ([t] + held)[1..] == held;
    HeldPressIdle(Click(u, width, height, t.x, t.y), width, height, held);
  }
}
