/**
 * The single-file iteration of the painter (`src/logic.rs`): keys decode to
 * `u32` codes, the palette maps codes 10..18 to colours, and one pass of the
 * `logic` loop moves the cursor, places or erases a block, toggles an overlay
 * or runs a file-menu action.
 */
module Logic {
  import opened Wrappers
  import opened Colors
  import opened TextFormat
  import opened Grid
  import opened Overlay

  // `KEY as u32`
  const ERROR: nat := 0
  const W: nat := 1
  const S: nat := 2
  const A: nat := 3
  const D: nat := 4
  const FILE: nat := 5
  const HELP: nat := 6
  const PLACE: nat := 7
  const ERASE: nat := 8
  const QUIT: nat := 9
  const C1: nat := 10
  const C9: nat := 18
  const C0: nat := 19

  /** The lower-case letters of the commands W..QUIT, in code order. */
  const LETTERS: string := "wsadfhpeq"

  function Upper(c: char): char
    requires 'a' <= c <= 'z'
  {
    (c as int - 32) as char
  }

  /**
   * `cursor_input` after the character is read: each command letter in
   * either case, the digits '1'..'9' as C1..C9 and '0' as C0, anything else
   * ERROR.
   */
  function CursorInput(ch: char): (k: nat)
    ensures k <= C0
    ensures '1' <= ch <= '9' ==> k == ch as int - '1' as int + C1
    ensures k == C0 <==> ch == '0'
    ensures C1 <= k <= C0 <==> IsDigit(ch)
    ensures W <= k <= QUIT ==> ch == LETTERS[k - 1] || ch == Upper(LETTERS[k - 1])
    ensures k == ERROR <==> !IsDigit(ch) && ch !in LETTERS && ch !in "WSADFHPEQ"
  {
    if ch == 'w' || ch == 'W' then W
    else if ch == 's' || ch == 'S' then S
    else if ch == 'a' || ch == 'A' then A
    else if ch == 'd' || ch == 'D' then D
    else if ch == 'f' || ch == 'F' then FILE
    else if ch == 'h' || ch == 'H' then HELP
    else if ch == 'p' || ch == 'P' then PLACE
    else if ch == 'e' || ch == 'E' then ERASE
    else if ch == 'q' || ch == 'Q' then QUIT
    else if '1' <= ch <= '9' then ch as int - '1' as int + C1
    else if ch == '0' then C0
    else ERROR
  }

  /** Every command letter decodes to its command in both cases. */
  lemma DecodeIgnoresCase(i: nat)
    requires i < |LETTERS|
    ensures CursorInput(LETTERS[i]) == i + 1
    ensures CursorInput(Upper(LETTERS[i])) == i + 1
  {
  }

  // ---------------------------------------------------------------------
  // The palette

  const AQUA: Color := Rgb(0, 255, 255)
  const ORANGE: Color := Rgb(237, 116, 24)

  /** `return_color`: the colour of a code, Black for any code outside 10..18. */
  function ReturnColor(code: nat): (c: Color)
    ensures !(C1 <= code <= C9) ==> c == Black
    ensures InPalette(c)
  {
    if code == 10 then Black
    else if code == 11 then Grey
    else if code == 12 then Red
    else if code == 13 then Green
    else if code == 14 then Blue
    else if code == 15 then AQUA
    else if code == 16 then Yellow
    else if code == 17 then ORANGE
    else if code == 18 then White
    else Black
  }

  /** `return_color_int`: the code of a colour, 10 for any colour outside the table. */
  function ReturnColorInt(c: Color): (code: nat)
    ensures C1 <= code <= C9
  {
    match c
    case Black => 10
    case Grey => 11
    case Red => 12
    case Green => 13
    case Blue => 14
    case Yellow => 16
    case White => 18
    case Rgb(r, g, b) =>
      if (r, g, b) == (0, 255, 255) then 15
      else if (r, g, b) == (237, 116, 24) then 17
      else 10
    case _ => 10
  }

  /** The nine colours the palette can produce. */
  predicate InPalette(c: Color) {
    c in {Black, Grey, Red, Green, Blue, AQUA, Yellow, ORANGE, White}
  }

  /** Every code of the table survives encoding its colour. */
  lemma CodeRoundTrip(code: nat)
    requires C1 <= code <= C9
    ensures ReturnColorInt(ReturnColor(code)) == code
  {
  }

  /**
   * A colour survives encoding exactly when it is in the palette; any other
   * colour is saved as code 10 and so comes back Black.
   */
  lemma ColorRoundTrip(c: Color)
    ensures ReturnColor(ReturnColorInt(c)) == c <==> InPalette(c)
    ensures !InPalette(c) ==> ReturnColorInt(c) == C1 && ReturnColor(ReturnColorInt(c)) == Black
  {
  }

  // ---------------------------------------------------------------------
  // Cursor movement

  /** The one-cell move of an arrow key in the `logic` loop: W up, S down, A left, D right. */
  function ArrowMove(key: nat, x: int, y: int): (p: (int, int))
    requires W <= key <= D
    ensures (p.0 - x) * (p.0 - x) + (p.1 - y) * (p.1 - y) == 1
    ensures key == W || key == S <==> p.0 == x
    ensures key == W || key == A <==> p.0 + p.1 < x + y
  {
    if key == W then (x, y - 1)
    else if key == S then (x, y + 1)
    else if key == A then (x - 1, y)
    else (x + 1, y)
  }

  /**
   * `move_cursor_blkey`: after a place or erase the cursor continues in the
   * direction of the last arrow key, or goes left when none was pressed.
   */
  function Continue(last: nat, x: int, y: int): (p: (int, int))
    ensures W <= last <= D ==> p == ArrowMove(last, x, y)
    ensures !(W <= last <= D) ==> p == (x - 1, y)
  {
    if last == W then (x, y - 1)
    else if last == S then (x, y + 1)
    else if last == A then (x - 1, y)
    else if last == D then (x + 1, y)
    else (x - 1, y)
  }

  // ---------------------------------------------------------------------
  // Saving and loading

  /** The text "Save as text file" leaves in `painting.txt`: no file for an empty store. */
  ghost function SavedText(m: map<Coord, Color>): (r: Option<string>)
    ensures r.None? <==> m == map[]
  {
    if m == map[] then None else Some(Lines(Rows(m, SortedKeys(m.Keys), ReturnColorInt)))
  }

  /**
   * "Open text file" on the buffer `content`: the hint for the buffer " ",
   * a panic when a token is not a `u32`, and otherwise every complete triple
   * placed in order.
   */
  function LoadText(m: map<Coord, Color>, content: string): (r: Loading<Color>)
    ensures r.effect != Loaded ==> r.placed == m
    ensures r.effect == ParsePanic <==> content != " " && ParseAll(Tokens(content)).None?
  {
    if content == " " then Loading(MissingFileHint, m)
    else match ParseAll(Tokens(content))
      case None => Loading(ParsePanic, m)
      case Some(nums) => Loading(Loaded, Fill(m, Entries(Triples(nums), ReturnColor)))
  }

  /** `file_window_actions`: the menu row under the cursor picks the action. */
  ghost function FileAction(m: map<Coord, Color>, content: string, x: int, y: int, height: nat, painting: Option<string>): (r: FileResult<Color>)
    requires 9 <= height <= U16_MAX
  {
    match MenuItemAt(x, y, height)
    case OpenText =>
      var c := Appended(content, painting);
      var l := LoadText(m, c);
      FileResult(l.effect, l.placed, c, painting)
    case SaveText => FileResult(Saved, m, content, SavedText(m))
    case OpenPng => FileResult(TodoMessage, m, content, painting)
    case SavePng => FileResult(TodoMessage, m, content, painting)
    case NoItem => FileResult(Nothing, m, content, painting)
  }

  /** Opening a buffer of whitespace places nothing. */
  lemma OpenBlank(m: map<Coord, Color>, w: string)
    requires AllWhitespace(w)
    ensures LoadText(m, w).placed == m
  {
    SkipWhitespace(w, "");
    assert w + "" == w;
  }

  /** Passing a store through the palette changes nothing when every colour is in it. */
  lemma PaletteStoreUnchanged(m: map<Coord, Color>)
    requires forall k :: k in m ==> InPalette(m[k])
    ensures Resolved(m, ReturnColorInt, ReturnColor) == m
  {
    forall k | k in m ensures ReturnColor(ReturnColorInt(m[k])) == m[k] {
      ColorRoundTrip(m[k]);
    }
  }

  /**
   * Saving a store and opening the file into an empty store, with a buffer
   * holding only whitespace, gives back every block, with its colour passed
   * through the palette (the same store when every colour is in the palette,
   * by PaletteStoreUnchanged). An empty store writes no file, and opening
   * then places nothing.
   */
  lemma SaveOpenRoundTrip(m: map<Coord, Color>, w: string)
    requires U32Keys(m) && AllWhitespace(w)
    ensures m != map[] ==> LoadText(map[], Appended(w, SavedText(m))) == Loading(Loaded, Resolved(m, ReturnColorInt, ReturnColor))
    ensures LoadText(map[], Appended(w, SavedText(m))).placed == Resolved(m, ReturnColorInt, ReturnColor)
  {
    if m == map[] {
      OpenBlank(map[], w);
    } else {
      var ts := Rows(m, SortedKeys(m.Keys), ReturnColorInt);
      StoreRoundTrip(m, w, ReturnColorInt, ReturnColor);
      TriplesOfFlatten(ts);
      var c := w + Lines(ts);
      assert Appended(w, SavedText(m)) == c;
      assert c != " " by {
        assert ts != [];
        assert |c| >= |Line(ts[0])| > 1;
      }
    }
  }

  // ---------------------------------------------------------------------
  // The runtime state

  /** The mutable `Runtime` record `logic` works on. */
  class Runtime {
    var cursorX: int
    var cursorY: int
    var color: Color
    var lastPressedKey: nat
    var placed: map<Coord, Color>

    /** `main`'s start state: colour Green, no key recorded, nothing placed. */
    constructor (x: int, y: int)
      ensures cursorX == x && cursorY == y
      ensures color == Green && lastPressedKey == 0 && placed == map[]
    {
      cursorX, cursorY := x, y;
      color := Green;
      lastPressedKey := 0;
      placed := map[];
    }

    /** `move_cursor_blkey` */
    method MoveCursorBlkey()
      modifies this`cursorX, this`cursorY
      ensures (cursorX, cursorY) == Continue(lastPressedKey, old(cursorX), old(cursorY))
    {
      if lastPressedKey == W {
        cursorY := cursorY - 1;
      } else if lastPressedKey == S {
        cursorY := cursorY + 1;
      } else if lastPressedKey == A {
        cursorX := cursorX - 1;
      } else if lastPressedKey == D {
        cursorX := cursorX + 1;
      } else {
        cursorX := cursorX - 1;
      }
    }

    /** `place_new_cursor`: the bottom-margin wrap. */
    method PlaceNewCursor(canvas: Canvas)
      requires 3 <= canvas.height <= U16_MAX
      modifies this`cursorY
      ensures cursorY == WrapRow(old(cursorY), canvas.height)
      decreases if AsU16(cursorY) == canvas.height - 2 then 1 else 0
    {
      if AsU16(cursorY) == canvas.height - 2 {
        cursorY := cursorY - 2;
        PlaceNewCursor(canvas);
      }
    }

    /** `place_blok`: the cursor cell takes the pending colour, replacing what was there. */
    method PlaceBlok()
      modifies this`placed
      ensures placed == old(placed)[CellOf(cursorX, cursorY) := color]
      ensures U32Keys(old(placed)) ==> U32Keys(placed)
    {
      placed := placed[CellOf(cursorX, cursorY) := color];
    }

    /**
     * The placing loop of "Open text file": the numbers are taken in
     * triples by position, and each complete triple places one block with
     * the cursor and colour set to it, then put back.
     */
    method PlaceNumbers(nums: seq<nat>)
      modifies this`cursorX, this`cursorY, this`color, this`placed
      ensures placed == Fill(old(placed), Entries(Triples(nums), ReturnColor))
      ensures U32Keys(old(placed)) ==> U32Keys(placed)
      ensures cursorX == old(cursorX) && cursorY == old(cursorY) && color == old(color)
    {
      var currentX, currentY, currentColor := cursorX, cursorY, color;
      var tempX, tempY, tempColor := currentX, currentY, currentColor;
      var slot := 1; // `iterator`: which member of the triple comes next
      ghost var placedTriples := 0;
      var n := 0;
      while n < |nums|
        invariant n <= |nums| && 1 <= slot <= 3
        invariant n == 3 * placedTriples + slot - 1
        invariant slot >= 2 ==> tempX == nums[3 * placedTriples]
        invariant slot == 3 ==> tempY == nums[3 * placedTriples + 1]
        invariant placed == PlacedUpTo(old(placed), nums, placedTriples, ReturnColor)
        invariant cursorX == currentX && cursorY == currentY && color == currentColor
      {
        var i := nums[n];
        if slot == 1 {
          tempX := i;
          slot := slot + 1;
        } else if slot == 2 {
          tempY := i;
          slot := slot + 1;
        } else {
          tempColor := ReturnColor(i);
          assert PlacedUpTo(old(placed), nums, placedTriples + 1, ReturnColor) == placed[CellOf(tempX, tempY) := tempColor];
          cursorX, cursorY, color := tempX, tempY, tempColor;
          PlaceBlok();
          cursorX, cursorY, color := currentX, currentY, currentColor;
          tempX, tempY, tempColor := 0, 0, ReturnColor(10);
          slot := 1;
          placedTriples := placedTriples + 1;
        }
        n := n + 1;
      }
      PlacedAll(old(placed), nums, placedTriples, ReturnColor);
      PlacedKeepsU32Keys(old(placed), nums, placedTriples, ReturnColor);
    }

    /**
     * "Save as text file": one `x y code` line per block, in the map's
     * order; the first line creates the file and the others are appended.
     */
    method SavePainting() returns (painting: Option<string>)
      ensures painting == SavedText(placed)
    {
      painting := WriteRows(placed, ReturnColorInt);
    }

    /** `file_window_actions`, with `painting.txt` passed in and its new content returned. */
    method FileWindowActions(canvas: Canvas, fileMenu: FileMenu, painting: Option<string>)
      returns (effect: FileEffect, painting': Option<string>)
      requires 9 <= canvas.height <= U16_MAX
      modifies this`placed, this`cursorX, this`cursorY, this`color, fileMenu
      ensures FileResult(effect, placed, fileMenu.fileContent, painting')
        == FileAction(old(placed), old(fileMenu.fileContent), old(cursorX), old(cursorY), canvas.height, painting)
      ensures cursorX == old(cursorX) && cursorY == old(cursorY) && color == old(color)
      ensures U32Keys(old(placed)) ==> U32Keys(placed)
    {
      var item := MenuItemAt(cursorX, cursorY, canvas.height);
      effect, painting' := Nothing, painting;
      if item == OpenText {
        fileMenu.fileContent := Appended(fileMenu.fileContent, painting);
        if fileMenu.fileContent == " " {
          effect := MissingFileHint;
        } else {
          var parsed := ParseAll(Tokens(fileMenu.fileContent));
          if parsed.None? {
            effect := ParsePanic;
          } else {
            PlaceNumbers(parsed.value);
            effect := Loaded;
          }
        }
      } else if item == SaveText {
        painting' := SavePainting();
        effect := Saved;
      } else if item == OpenPng || item == SavePng {
        effect := TodoMessage;
      }
    }
  }

  /** How a pass of the `logic` loop ended. */
  datatype Outcome = Running | Exit | Panic

  /**
   * One pass of the `logic` loop for the decoded key `key`. `painting` is the
   * content of `painting.txt` (`None`: missing), `painting'` what it is after;
   * `effect` is what a file-menu action did.
   */
  method HandleKey(canvas: Canvas, runtime: Runtime, state: State, fileMenu: FileMenu, key: nat, painting: Option<string>)
    returns (outcome: Outcome, effect: FileEffect, painting': Option<string>)
    requires 9 <= canvas.height <= U16_MAX
    modifies runtime, state, fileMenu
    ensures key != PLACE || !old(state.FileMenuOpen()) ==> painting' == painting && fileMenu.fileContent == old(fileMenu.fileContent)
    ensures key != QUIT && key != FILE && key != HELP ==> state.Value() == old(state.Value())
    ensures outcome == Exit ==> key == QUIT
    ensures W <= key <= D ==>
      var p := ArrowMove(key, old(runtime.cursorX), old(runtime.cursorY));
      runtime.cursorX == p.0 && runtime.cursorY == WrapRow(p.1, canvas.height) && runtime.lastPressedKey == key
      && runtime.placed == old(runtime.placed) && runtime.color == old(runtime.color)
    ensures key == FILE ==> state.Value() == Toggle(old(state.Value()), FILE_NAME)
    ensures key == HELP ==> state.Value() == Toggle(old(state.Value()), HELP_NAME)
    ensures key == QUIT ==> Closed(state.Value(), outcome == Exit) == Quit(old(state.Value()))
    ensures key == PLACE && old(state.FileMenuOpen()) ==>
      FileResult(effect, runtime.placed, fileMenu.fileContent, painting')
        == FileAction(old(runtime.placed), old(fileMenu.fileContent), old(runtime.cursorX), old(runtime.cursorY), canvas.height, painting)
      && runtime.cursorX == old(runtime.cursorX) && runtime.cursorY == old(runtime.cursorY)
    ensures !(key == PLACE && old(state.FileMenuOpen())) ==> effect == Nothing
    ensures outcome == Panic <==> effect == ParsePanic
    ensures (key == PLACE && !old(state.FileMenuOpen())) || key == ERASE ==>
      var p := Continue(old(runtime.lastPressedKey), old(runtime.cursorX), old(runtime.cursorY));
      var ink := if key == PLACE then old(runtime.color) else White;
      runtime.placed == old(runtime.placed)[CellOf(old(runtime.cursorX), old(runtime.cursorY)) := ink]
      && runtime.cursorX == p.0 && runtime.cursorY == WrapRow(p.1, canvas.height)
    ensures !(W <= key <= D) ==> runtime.lastPressedKey == old(runtime.lastPressedKey)
    ensures runtime.color == if C1 <= key <= C9 then ReturnColor(key) else old(runtime.color)
    ensures key == ERROR || key >= C1 || key == FILE || key == HELP || key == QUIT ==>
      runtime.placed == old(runtime.placed) && runtime.cursorX == old(runtime.cursorX) && runtime.cursorY == old(runtime.cursorY)
    ensures AboveMargin(old(runtime.cursorY), canvas.height) ==> AboveMargin(runtime.cursorY, canvas.height)
    ensures U32Keys(old(runtime.placed)) ==> U32Keys(runtime.placed)
  {
    outcome, effect, painting' := Running, Nothing, painting;
    ghost var y0 := runtime.cursorY;
    if key == W || key == S || key == A || key == D {
      if key == W {
        runtime.cursorY := runtime.cursorY - 1;
      } else if key == S {
        runtime.cursorY := runtime.cursorY + 1;
      } else if key == A {
        runtime.cursorX := runtime.cursorX - 1;
      } else {
        runtime.cursorX := runtime.cursorX + 1;
      }
      WrapKeepsAbove(y0, runtime.cursorY, canvas.height);
      runtime.PlaceNewCursor(canvas);
      runtime.lastPressedKey := key;
    } else if key == FILE {
      state.FileWindow();
    } else if key == HELP {
      state.HelpWindow();
    } else if key == PLACE {
      if state.windowOpen && state.windowOpenName == FILE_NAME {
        effect, painting' := runtime.FileWindowActions(canvas, fileMenu, painting);
        if effect == ParsePanic {
          outcome := Panic;
        }
      } else {
        runtime.PlaceBlok();
        runtime.MoveCursorBlkey();
        WrapKeepsAbove(y0, runtime.cursorY, canvas.height);
        runtime.PlaceNewCursor(canvas);
      }
    } else if key == ERASE {
      var currentColor := runtime.color;
      runtime.color := White;
      runtime.PlaceBlok();
      runtime.color := currentColor;
      runtime.MoveCursorBlkey();
      WrapKeepsAbove(y0, runtime.cursorY, canvas.height);
      runtime.PlaceNewCursor(canvas);
    } else if key == QUIT {
      var exit := state.Close();
      if exit {
        outcome := Exit;
      }
    } else if C1 <= key <= C9 {
      runtime.color := ReturnColor(key);
    }
  }
}
