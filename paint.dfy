/**
 * The split iteration of the painter (`src/paint.rs`, with its state record
 * from `src/variables.rs`): keys decode to the `KEY` enum, the palette maps
 * the ten keys C1..C0 to colours, and the cursor rules are those of the
 * single-file iteration except that the last-direction labels are swapped on
 * both sides.
 */
module Paint {
  import opened Wrappers
  import opened Colors
  import opened Grid
  import Logic

  /** `KEY`, whose discriminants 0..19 are its declaration order. */
  datatype Key = NONE | W | S | A | D | FILE | HELP | PLACE | ERASE | QUIT
               | C1 | C2 | C3 | C4 | C5 | C6 | C7 | C8 | C9 | C0

  /** `key as u32` */
  function Discriminant(k: Key): (n: nat)
    ensures n < 20
  {
    match k
    case NONE => 0
    case W => 1
    case S => 2
    case A => 3
    case D => 4
    case FILE => 5
    case HELP => 6
    case PLACE => 7
    case ERASE => 8
    case QUIT => 9
    case C1 => 10
    case C2 => 11
    case C3 => 12
    case C4 => 13
    case C5 => 14
    case C6 => 15
    case C7 => 16
    case C8 => 17
    case C9 => 18
    case C0 => 19
  }

  /** The key with discriminant `n`: what `transmute` yields for a byte below 20. */
  function KeyOf(n: nat): (k: Key)
    requires n < 20
    ensures Discriminant(k) == n
  {
    [NONE, W, S, A, D, FILE, HELP, PLACE, ERASE, QUIT, C1, C2, C3, C4, C5, C6, C7, C8, C9, C0][n]
  }

  /** Discriminants identify keys. */
  lemma KeyOfDiscriminant(k: Key)
    ensures KeyOf(Discriminant(k)) == k
  {
  }

  /**
   * `cursor_input`: `None` stands for an event that is not a character key.
   * The table is the single-file iteration's, with NONE for its ERROR.
   */
  function CursorInput(ch: Option<char>): (k: Key)
    ensures ch.None? ==> k == NONE
  {
    match ch
    case None => NONE
    case Some(c) =>
      if c == 'w' || c == 'W' then W
      else if c == 's' || c == 'S' then S
      else if c == 'a' || c == 'A' then A
      else if c == 'd' || c == 'D' then D
      else if c == 'f' || c == 'F' then FILE
      else if c == 'h' || c == 'H' then HELP
      else if c == 'p' || c == 'P' then PLACE
      else if c == 'e' || c == 'E' then ERASE
      else if c == 'q' || c == 'Q' then QUIT
      else if c == '1' then C1
      else if c == '2' then C2
      else if c == '3' then C3
      else if c == '4' then C4
      else if c == '5' then C5
      else if c == '6' then C6
      else if c == '7' then C7
      else if c == '8' then C8
      else if c == '9' then C9
      else if c == '0' then C0
      else NONE
  }

  /** Both iterations decode every character to the same code. */
  lemma DecodersAgree(c: char)
    ensures Discriminant(CursorInput(Some(c))) == Logic.CursorInput(c)
  {
  }

  // ---------------------------------------------------------------------
  // The palette

  const BROWN: Color := Rgb(170, 85, 0)

  /** The keys that select a colour: discriminants C1..C0 inclusive, so '0' too. */
  predicate IsColorKey(k: Key) {
    Discriminant(C1) <= Discriminant(k) <= Discriminant(C0)
  }

  /** `return_color`: the colour of a key, Black for any key that is not a colour key. */
  function ReturnColor(k: Key): (c: Color)
    ensures !IsColorKey(k) ==> c == Black
    ensures InPalette(c)
  {
    match k
    case C1 => Black
    case C2 => Blue
    case C3 => Green
    case C4 => Cyan
    case C5 => Red
    case C6 => Magenta
    case C7 => BROWN
    case C8 => Grey
    case C9 => Yellow
    case C0 => White
    case _ => Black
  }

  /** `return_color_int`: the key of a colour, C1 for any colour outside the table. */
  function ReturnColorInt(c: Color): (k: Key)
    ensures IsColorKey(k)
  {
    match c
    case Black => C1
    case Blue => C2
    case Green => C3
    case Cyan => C4
    case Red => C5
    case Magenta => C6
    case Rgb(r, g, b) => if (r, g, b) == (170, 85, 0) then C7 else C1
    case Grey => C8
    case Yellow => C9
    case White => C0
    case _ => C1
  }

  /** The ten colours the palette can produce. */
  predicate InPalette(c: Color) {
    c in {Black, Blue, Green, Cyan, Red, Magenta, BROWN, Grey, Yellow, White}
  }

  /** Every colour key survives encoding its colour. */
  lemma KeyRoundTrip(k: Key)
    requires IsColorKey(k)
    ensures ReturnColorInt(ReturnColor(k)) == k
  {
  }

  /**
   * A colour survives encoding exactly when it is in the palette; any other
   * colour is encoded as C1 and so comes back Black.
   */
  lemma ColorRoundTrip(c: Color)
    ensures ReturnColor(ReturnColorInt(c)) == c <==> InPalette(c)
    ensures !InPalette(c) ==> ReturnColorInt(c) == C1 && ReturnColor(ReturnColorInt(c)) == Black
  {
  }

  // ---------------------------------------------------------------------
  // Cursor movement

  predicate IsArrow(k: Key) {
    k == W || k == S || k == A || k == D
  }

  /** The one-cell move of an arrow key in the `paint` loop: W up, S down, A left, D right. */
  function ArrowMove(k: Key, x: int, y: int): (p: (int, int))
    requires IsArrow(k)
    ensures (p.0 - x) * (p.0 - x) + (p.1 - y) * (p.1 - y) == 1
    ensures k == W || k == S <==> p.0 == x
    ensures k == W || k == A <==> p.0 + p.1 < x + y
  {
    match k
    case W => (x, y - 1)
    case S => (x, y + 1)
    case A => (x - 1, y)
    case D => (x + 1, y)
  }

  /** The key the `paint` loop records for an arrow key: A and D are stored swapped. */
  function Recorded(k: Key): (r: Key)
    requires IsArrow(k)
    ensures IsArrow(r)
    ensures k == A <==> r == D
    ensures k == D <==> r == A
    ensures k == W || k == S ==> r == k
  {
    match k
    case W => W
    case S => S
    case A => D
    case D => A
  }

  /**
   * `move_cursor_blkey`: W up, S down, D left, A right, and left when no
   * arrow key was recorded.
   */
  function Continue(last: Key, x: int, y: int): (p: (int, int))
    ensures !IsArrow(last) ==> p == (x - 1, y)
  {
    match last
    case W => (x, y - 1)
    case S => (x, y + 1)
    case D => (x - 1, y)
    case A => (x + 1, y)
    case _ => (x - 1, y)
  }

  /**
   * The two swaps cancel: after an arrow key, place and erase continue the
   * cursor in that key's own direction.
   */
  lemma ContinueRepeatsArrow(k: Key, x: int, y: int)
    requires IsArrow(k)
    ensures Continue(Recorded(k), x, y) == ArrowMove(k, x, y)
  {
  }

  // ---------------------------------------------------------------------
  // Repainting

  /** The blocks `redraw_canvas` repaints: every block except those in column 0. */
  function RedrawCanvasCells(m: map<Coord, Color>): (r: set<Coord>)
    ensures forall k :: k in r <==> k in m && k.0 != 0
  {
    set k | k in m && k.0 != 0
  }

  /** The blocks `remove_old_cursor` repaints: those in the cursor's column (`cursor_x as u32`). */
  function RemoveOldCursorCells(m: map<Coord, Color>, x: int): (r: set<Coord>)
    ensures forall k :: k in r <==> k in m && k.0 == AsU32(x)
  {
    set k | k in m && k.0 == AsU32(x)
  }

  /**
   * The cursor's column is repainted by a whole redraw too, except column 0,
   * whose blocks only `remove_old_cursor` repaints.
   */
  lemma CursorColumnInRedraw(m: map<Coord, Color>, x: int)
    ensures AsU32(x) != 0 ==> RemoveOldCursorCells(m, x) <= RedrawCanvasCells(m)
    ensures AsU32(x) == 0 ==> RemoveOldCursorCells(m, x) * RedrawCanvasCells(m) == {}
  {
  }

  // ---------------------------------------------------------------------
  // The runtime state

  /** The mutable `Runtime` record (`src/variables.rs`). */
  class Runtime {
    var cursorX: int
    var cursorY: int
    var cursorColor: Color
    var color: Color
    var lastPressedKey: Key
    var placed: map<Coord, Color>

    constructor (x: int, y: int, cursorColor: Color, color: Color)
      ensures this.cursorX == x && this.cursorY == y
      ensures this.cursorColor == cursorColor && this.color == color
      ensures lastPressedKey == NONE && placed == map[]
    {
      this.cursorX, this.cursorY := x, y;
      this.cursorColor, this.color := cursorColor, color;
      lastPressedKey := NONE;
      placed := map[];
    }
  }

  /** `move_cursor_blkey` */
  method MoveCursorBlkey(runtime: Runtime)
    modifies runtime`cursorX, runtime`cursorY
    ensures (runtime.cursorX, runtime.cursorY) == Continue(runtime.lastPressedKey, old(runtime.cursorX), old(runtime.cursorY))
  {
    match runtime.lastPressedKey
    case W => runtime.cursorY := runtime.cursorY - 1;
    case S => runtime.cursorY := runtime.cursorY + 1;
    case D => runtime.cursorX := runtime.cursorX - 1;
    case A => runtime.cursorX := runtime.cursorX + 1;
    case _ => runtime.cursorX := runtime.cursorX - 1;
  }

  /** `place_new_cursor`: the bottom-margin wrap. */
  method PlaceNewCursor(canvas: Canvas, runtime: Runtime)
    requires 3 <= canvas.height <= U16_MAX
    modifies runtime`cursorY
    ensures runtime.cursorY == WrapRow(old(runtime.cursorY), canvas.height)
    decreases if AsU16(runtime.cursorY) == canvas.height - 2 then 1 else 0
  {
    if AsU16(runtime.cursorY) == canvas.height - 2 {
      runtime.cursorY := runtime.cursorY - 2;
      PlaceNewCursor(canvas, runtime);
    }
  }

  /** `place_blok`: the cursor cell takes the pending colour, replacing what was there. */
  method PlaceBlok(runtime: Runtime)
    modifies runtime`placed
    ensures runtime.placed == old(runtime.placed)[CellOf(runtime.cursorX, runtime.cursorY) := runtime.color]
    ensures U32Keys(old(runtime.placed)) ==> U32Keys(runtime.placed)
  {
    runtime.placed := runtime.placed[CellOf(runtime.cursorX, runtime.cursorY) := runtime.color];
  }

  /**
   * The repainting loop of `redraw_canvas`: the blocks it draws again, in
   * the map's order, each once; the blocks of column 0 are skipped.
   */
  method RedrawCanvas(runtime: Runtime) returns (drawn: seq<Coord>)
    ensures Ascending(drawn)
    ensures forall k :: k in drawn <==> k in RedrawCanvasCells(runtime.placed)
  {
    drawn := SelectCells(runtime.placed, (k: Coord) => k.0 != 0);
  }

  /**
   * The repainting loop of `remove_old_cursor`: the blocks of the cursor's
   * column (`cursor_x as u32`), in the map's order, each once.
   */
  method RemoveOldCursor(runtime: Runtime) returns (drawn: seq<Coord>)
    ensures Ascending(drawn)
    ensures forall k :: k in drawn <==> k in RemoveOldCursorCells(runtime.placed, runtime.cursorX)
  {
    var column := AsU32(runtime.cursorX);
    drawn := SelectCells(runtime.placed, (k: Coord) => k.0 == column);
  }
}
