/**
 * What the two touch-screen scripts share: the inclusive rectangle hit test, buttons laid out on
 * the cells of a grid and tested one after another (the first one hit wins), and the keypad's
 * edit of the input buffer.
 */
module Touch {
  import opened Common

  /** A button rectangle `[x, y, w, h]`. */
  datatype Rect = Rect(x: int, y: int, w: int, h: int)

  /**
   * `is_in_btn`: all four edges belong to the button. Every point strictly inside is hit, and a
   * rectangle of negative width or height is hit nowhere.
   */
  predicate IsInBtn(px: int, py: int, r: Rect): (hit: bool)
    ensures Inside(px, py, r) ==> hit
    ensures hit ==> r.w >= 0 && r.h >= 0
  {
    r.x <= px <= r.x + r.w && r.y <= py <= r.y + r.h
  }

  /** Strictly inside: off every edge. */
  predicate Inside(px: int, py: int, r: Rect)
  {
    r.x < px < r.x + r.w && r.y < py < r.y + r.h
  }

  /** The corners of a button are hit, and so is the whole of each edge. */
  lemma IsInBtnEdges(r: Rect, px: int, py: int)
    requires r.w >= 0 && r.h >= 0
    ensures IsInBtn(r.x, r.y, r) && IsInBtn(r.x + r.w, r.y + r.h, r)
    ensures r.x <= px <= r.x + r.w ==> IsInBtn(px, r.y, r) && IsInBtn(px, r.y + r.h, r)
    ensures !IsInBtn(r.x - 1, py, r) && !IsInBtn(r.x + r.w + 1, py, r)
  {
  }

  /**
   * The left edges of the grid's columns, the top edges of its rows, and the common cell size.
   * The two scripts compute these edges differently, so they are data here.
   */
  datatype Grid = Grid(xs: seq<int>, ys: seq<int>, w: int, h: int)

  /** Cells do not overlap except along shared edges: each column starts at or after the end of every earlier one. */
  predicate Spaced(g: Grid)
  {
    && (forall i, j :: 0 <= i < j < |g.xs| ==> g.xs[i] + g.w <= g.xs[j])
    && (forall i, j :: 0 <= i < j < |g.ys| ==> g.ys[i] + g.h <= g.ys[j])
  }

  function CellRect(g: Grid, col: nat, row: nat): Rect
    requires col < |g.xs| && row < |g.ys|
  {
    Rect(g.xs[col], g.ys[row], g.w, g.h)
  }

  /** A button: the grid cell it covers and what pressing it means. */
  datatype Button<K> = Button(col: nat, row: nat, key: K)

  predicate OnGrid<K>(g: Grid, bs: seq<Button<K>>)
  {
    forall i :: 0 <= i < |bs| ==> bs[i].col < |g.xs| && bs[i].row < |g.ys|
  }

  /**
   * The `if`/`elif` chain of `is_in_btn` tests: the key of the first button hit, if any. A key it
   * finds belongs to a button that is hit.
   */
  function FirstHit<K>(g: Grid, bs: seq<Button<K>>, px: int, py: int): (k: Option<K>)
    requires OnGrid(g, bs)
    ensures k.Some? ==> exists i :: 0 <= i < |bs| && bs[i].key == k.value && IsInBtn(px, py, CellRect(g, bs[i].col, bs[i].row))
  {
    if bs == [] then None
    else if IsInBtn(px, py, CellRect(g, bs[0].col, bs[0].row)) then Some(bs[0].key)
    else FirstHit(g, bs[1..], px, py)
  }

  /** The chain finds nothing exactly when no button is hit. */
  lemma {:induction false} FirstHitNone<K>(g: Grid, bs: seq<Button<K>>, px: int, py: int)
    requires OnGrid(g, bs)
    ensures FirstHit(g, bs, px, py).None? <==>
      forall i :: 0 <= i < |bs| ==> !IsInBtn(px, py, CellRect(g, bs[i].col, bs[i].row))
  {
    if bs != [] && !IsInBtn(px, py, CellRect(g, bs[0].col, bs[0].row)) {
      FirstHitNone(g, bs[1..], px, py);
      assert forall i :: 1 <= i < |bs| ==> bs[i] == bs[1..][i - 1];
    }
  }

  /** What the chain finds is the key of a button that is hit and that no earlier button shadows. */
  lemma {:induction false} FirstHitFound<K>(g: Grid, bs: seq<Button<K>>, px: int, py: int)
    requires OnGrid(g, bs) && FirstHit(g, bs, px, py).Some?
    ensures exists i :: 0 <= i < |bs| && bs[i].key == FirstHit(g, bs, px, py).value && Unshadowed(g, bs, i, px, py)
  {
    if !IsInBtn(px, py, CellRect(g, bs[0].col, bs[0].row)) {
      FirstHitFound(g, bs[1..], px, py);
      var i :| 0 <= i < |bs[1..]| && bs[1..][i].key == FirstHit(g, bs, px, py).value && Unshadowed(g, bs[1..], i, px, py);
      assert bs[i + 1] == bs[1..][i];
      assert forall j :: 1 <= j < i + 1 ==> bs[j] == bs[1..][j - 1];
      assert Unshadowed(g, bs, i + 1, px, py);
    } else {
      assert Unshadowed(g, bs, 0, px, py);
    }
  }

  /** Button `i` is hit and no button before it is. */
  predicate Unshadowed<K>(g: Grid, bs: seq<Button<K>>, i: nat, px: int, py: int)
    requires OnGrid(g, bs) && i < |bs|
  {
    && IsInBtn(px, py, CellRect(g, bs[i].col, bs[i].row))
    && forall j :: 0 <= j < i ==> !IsInBtn(px, py, CellRect(g, bs[j].col, bs[j].row))
  }

  /** A point strictly inside one cell lies in no other cell, edges included. */
  lemma InsideExcludes(g: Grid, c: nat, r: nat, c2: nat, r2: nat, px: int, py: int)
    requires Spaced(g) && c < |g.xs| && r < |g.ys| && c2 < |g.xs| && r2 < |g.ys|
    requires Inside(px, py, CellRect(g, c, r)) && (c, r) != (c2, r2)
    ensures !IsInBtn(px, py, CellRect(g, c2, r2))
  {
    if c2 < c {
      assert g.xs[c2] + g.w <= g.xs[c];
    } else if c < c2 {
      assert g.xs[c] + g.w <= g.xs[c2];
    } else if r2 < r {
      assert g.ys[r2] + g.h <= g.ys[r];
    } else {
      assert g.ys[r] + g.h <= g.ys[r2];
    }
  }

  /**
   * A press strictly inside a button's cell is resolved to that button, whatever the order of the
   * chain, as long as no earlier button covers the same cell.
   */
  lemma {:induction false} FirstHitInside<K>(g: Grid, bs: seq<Button<K>>, i: nat, px: int, py: int)
    requires Spaced(g) && OnGrid(g, bs) && i < |bs|
    requires forall j :: 0 <= j < i ==> (bs[j].col, bs[j].row) != (bs[i].col, bs[i].row)
    requires Inside(px, py, CellRect(g, bs[i].col, bs[i].row))
    ensures FirstHit(g, bs, px, py) == Some(bs[i].key)
  {
    if i == 0 {
    } else {
      InsideExcludes(g, bs[i].col, bs[i].row, bs[0].col, bs[0].row, px, py);
      assert forall j :: 0 <= j < |bs| - 1 ==> bs[1..][j] == bs[j + 1];
      FirstHitInside(g, bs[1..], i - 1, px, py);
    }
  }

  /** A press strictly inside a cell that no button covers hits nothing. */
  lemma NoButtonInside<K>(g: Grid, bs: seq<Button<K>>, c: nat, r: nat, px: int, py: int)
    requires Spaced(g) && OnGrid(g, bs) && c < |g.xs| && r < |g.ys|
    requires forall j :: 0 <= j < |bs| ==> (bs[j].col, bs[j].row) != (c, r)
    requires Inside(px, py, CellRect(g, c, r))
    ensures FirstHit(g, bs, px, py) == None
  {
    forall j | 0 <= j < |bs| ensures !IsInBtn(px, py, CellRect(g, bs[j].col, bs[j].row)) {
      InsideExcludes(g, c, r, bs[j].col, bs[j].row, px, py);
    }
    FirstHitNone(g, bs, px, py);
  }

  // ---------------------------------------------------------------------------------------------
  // The home screen

  datatype HomeButton = Lt | Rt | Lb | Rb

  /** The 2x2 home grid of both scripts: cells of `width // 2` by `height // 2`. */
  function HomeGrid(width: nat, height: nat): Grid
  {
    Grid([0, width / 2], [0, height / 2], width / 2, height / 2)
  }

  /** The home buttons (top-left, top-right, bottom-left, bottom-right) in the order both scripts test them. */
  const HomeButtons: seq<Button<HomeButton>> :=
    [Button(0, 0, Lt), Button(1, 0, Rt), Button(0, 1, Lb), Button(1, 1, Rb)]

  lemma HomeGridSpaced(width: nat, height: nat)
    ensures Spaced(HomeGrid(width, height)) && OnGrid(HomeGrid(width, height), HomeButtons)
  {
  }

  /** A press strictly inside a quadrant of the home screen hits the button drawn there. */
  lemma HomeQuadrants(width: nat, height: nat, col: nat, row: nat, px: int, py: int)
    requires col < 2 && row < 2 && Inside(px, py, CellRect(HomeGrid(width, height), col, row))
    ensures FirstHit(HomeGrid(width, height), HomeButtons, px, py) == Some(HomeButtons[2 * row + col].key)
  {
    HomeGridSpaced(width, height);
    FirstHitInside(HomeGrid(width, height), HomeButtons, 2 * row + col, px, py);
  }

  /** On the edge the top-left button shares with its neighbours, the top-left one wins. */
  lemma HomeSharedEdge(width: nat, height: nat, px: int, py: int)
    requires (px == width / 2 && 0 <= py <= height / 2) || (py == height / 2 && 0 <= px <= width / 2)
    ensures FirstHit(HomeGrid(width, height), HomeButtons, px, py) == Some(Lt)
  {
  }

  // ---------------------------------------------------------------------------------------------
  // The keypad

  /** What a keypad button does: leave the screen, confirm, type a character, or delete. */
  datatype Key = Back | Confirm | Type(c: char) | Delete

  /** The buffer after a keypad button other than the back button. */
  function Edit(s: string, k: Key): (t: string)
    requires !k.Back?
    ensures k.Type? ==> t == s + [k.c]
    ensures k.Delete? && s != [] ==> t + [s[|s| - 1]] == s
    ensures (k.Delete? && s == []) || k.Confirm? ==> t == s
  {
    match k
    case Confirm => s
    case Type(c) => s + [c]
    case Delete => if |s| > 0 then s[..|s| - 1] else s
  }

  /** The key a drawn label stands for; the middle dot is drawn for the button that types '.'. */
  function LabelKey(text: string): Option<Key>
  {
    if text == "DEL" then Some(Delete)
    else if text == "·" then Some(Type('.'))
    else if |text| == 1 && '0' <= text[0] <= '9' then Some(Type(text[0]))
    else None
  }

  /**
   * The keypad buttons in the order both scripts test them: back and confirm in the outer cells
   * of the top row, then 1 to 9 and 0 row by row, then '.' and DEL.
   */
  const KeypadButtons: seq<Button<Key>> := [
    Button(0, 0, Back), Button(3, 0, Confirm),
    Button(0, 1, Type('1')), Button(1, 1, Type('2')), Button(2, 1, Type('3')), Button(3, 1, Type('4')),
    Button(0, 2, Type('5')), Button(1, 2, Type('6')), Button(2, 2, Type('7')), Button(3, 2, Type('8')),
    Button(0, 3, Type('9')), Button(1, 3, Type('0')), Button(2, 3, Type('.')), Button(3, 3, Delete)
  ]

  /** The index in the chain of the button covering a cell, for the cells that have one. */
  function KeypadButtonAt(col: nat, row: nat): nat
  {
    if row == 0 then col / 3 else 4 * row + col - 2
  }

  /**
   * The labels drawn on the keypad, row by row, given the labels of the back and confirm buttons;
   * the two middle cells of the top row show the buffer instead of a label.
   */
  function KeypadDrawing(back: string, confirm: string): seq<seq<string>>
  {
    [[back, "", "", confirm], ["1", "2", "3", "4"], ["5", "6", "7", "8"], ["9", "0", "·", "DEL"]]
  }

  /** The key a label drawn on the keypad stands for. */
  function DrawnKey(back: string, confirm: string, text: string): Option<Key>
  {
    if text == back then Some(Back) else if text == confirm then Some(Confirm) else LabelKey(text)
  }

  /** Back and confirm labels that cannot be taken for each other, for an empty cell, or for a typing key. */
  predicate DistinctLabels(back: string, confirm: string)
  {
    back != confirm && back != "" && confirm != "" && LabelKey(back).None? && LabelKey(confirm).None?
  }

  /** Each button sits in its own cell, and the label drawn in that cell names the button's key. */
  lemma KeypadButtonsTable(back: string, confirm: string, col: nat, row: nat)
    requires DistinctLabels(back, confirm)
    requires col < 4 && row < 4 && !(row == 0 && 0 < col < 3)
    ensures var i := KeypadButtonAt(col, row);
      && i < |KeypadButtons| && KeypadButtons[i].col == col && KeypadButtons[i].row == row
      && Some(KeypadButtons[i].key) == DrawnKey(back, confirm, KeypadDrawing(back, confirm)[row][col])
  {
  }

  /** No two buttons of the chain share a cell, and none covers the two middle cells of the top row. */
  lemma KeypadButtonsDistinct()
    ensures forall i, j :: 0 <= j < i < |KeypadButtons| ==>
      (KeypadButtons[j].col, KeypadButtons[j].row) != (KeypadButtons[i].col, KeypadButtons[i].row)
    ensures forall j :: 0 <= j < |KeypadButtons| ==> KeypadButtons[j].row != 0 || KeypadButtons[j].col % 3 == 0
  {
  }

  /**
   * On any well-spaced 4x4 grid, a press strictly inside a keypad cell does what the label drawn
   * there says; the two middle cells of the top row, which show the buffer, do nothing.
   */
  lemma KeypadMatchesDrawing(g: Grid, back: string, confirm: string, col: nat, row: nat, px: int, py: int)
    requires Spaced(g) && OnGrid(g, KeypadButtons) && |g.xs| == 4 && |g.ys| == 4
    requires DistinctLabels(back, confirm)
    requires col < 4 && row < 4 && Inside(px, py, CellRect(g, col, row))
    ensures FirstHit(g, KeypadButtons, px, py) == DrawnKey(back, confirm, KeypadDrawing(back, confirm)[row][col])
  {
    KeypadButtonsDistinct();
    if row == 0 && 0 < col < 3 {
      assert KeypadDrawing(back, confirm)[row][col] == "";
      NoButtonInside(g, KeypadButtons, col, row, px, py);
    } else {
      KeypadButtonsTable(back, confirm, col, row);
      FirstHitInside(g, KeypadButtons, KeypadButtonAt(col, row), px, py);
    }
  }
}
