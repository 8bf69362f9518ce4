/**
 * One pass of the `paint` loop of the split iteration (`src/paint.rs`): the
 * decoded key moves the cursor, toggles an overlay, places or erases a block,
 * runs the file menu, quits, or selects a colour.
 */
module PaintLoop {
  import opened Wrappers
  import opened Colors
  import opened Grid
  import opened Overlay
  import opened Paint
  import opened Window

  /**
   * How a pass of the `paint` loop ended: `Panic` for the parse error's
   * `expect`, `Undefined` for a `transmute` of a byte that is no `KEY`.
   */
  datatype Outcome = Running | Exit | Panic | Undefined

  /**
   * The four arrow branches: move one cell, wrap at the bottom margin, and
   * record the key, with A and D recorded swapped.
   */
  method ArrowKey(canvas: Canvas, runtime: Runtime, key: Key)
    requires IsArrow(key) && 3 <= canvas.height <= U16_MAX
    modifies runtime`cursorX, runtime`cursorY, runtime`lastPressedKey
    ensures var p := ArrowMove(key, old(runtime.cursorX), old(runtime.cursorY));
      runtime.cursorX == p.0 && runtime.cursorY == WrapRow(p.1, canvas.height)
    ensures runtime.lastPressedKey == Recorded(key)
    ensures AboveMargin(old(runtime.cursorY), canvas.height) ==> AboveMargin(runtime.cursorY, canvas.height)
  {
    WrapKeepsAbove(runtime.cursorY, ArrowMove(key, runtime.cursorX, runtime.cursorY).1, canvas.height);
    if key == W {
      runtime.cursorY := runtime.cursorY - 1;
      PlaceNewCursor(canvas, runtime);
      runtime.lastPressedKey := W;
    } else if key == S {
      runtime.cursorY := runtime.cursorY + 1;
      PlaceNewCursor(canvas, runtime);
      runtime.lastPressedKey := S;
    } else if key == A {
      runtime.cursorX := runtime.cursorX - 1;
      PlaceNewCursor(canvas, runtime);
      runtime.lastPressedKey := D;
    } else {
      runtime.cursorX := runtime.cursorX + 1;
      PlaceNewCursor(canvas, runtime);
      runtime.lastPressedKey := A;
    }
  }

  /** After placing or erasing: `move_cursor_blkey`, then `place_new_cursor`. */
  method StepOn(canvas: Canvas, runtime: Runtime)
    requires 3 <= canvas.height <= U16_MAX
    modifies runtime`cursorX, runtime`cursorY
    ensures var p := Continue(runtime.lastPressedKey, old(runtime.cursorX), old(runtime.cursorY));
      runtime.cursorX == p.0 && runtime.cursorY == WrapRow(p.1, canvas.height)
    ensures AboveMargin(old(runtime.cursorY), canvas.height) ==> AboveMargin(runtime.cursorY, canvas.height)
  {
    WrapKeepsAbove(runtime.cursorY, Continue(runtime.lastPressedKey, runtime.cursorX, runtime.cursorY).1, canvas.height);
    MoveCursorBlkey(runtime);
    PlaceNewCursor(canvas, runtime);
  }

  /**
   * PLACE: the file menu's actions when the file window is open, otherwise
   * the cursor cell takes the pending colour and the cursor steps on.
   */
  method PlaceKey(canvas: Canvas, runtime: Runtime, state: State, fileMenu: FileMenu, painting: Option<string>)
    returns (outcome: Outcome, effect: FileEffect, painting': Option<string>)
    requires 9 <= canvas.height <= U16_MAX
    modifies runtime`placed, runtime`cursorX, runtime`cursorY, runtime`color, fileMenu
    ensures state.FileMenuOpen() ==>
      FileResult(effect, runtime.placed, fileMenu.fileContent, painting')
        == FileAction(old(runtime.placed), old(fileMenu.fileContent), old(runtime.cursorX), old(runtime.cursorY), canvas.height, painting)
      && runtime.cursorX == old(runtime.cursorX) && runtime.cursorY == old(runtime.cursorY)
    ensures !state.FileMenuOpen() ==>
      var p := Continue(runtime.lastPressedKey, old(runtime.cursorX), old(runtime.cursorY));
      runtime.placed == old(runtime.placed)[CellOf(old(runtime.cursorX), old(runtime.cursorY)) := old(runtime.color)]
      && runtime.cursorX == p.0 && runtime.cursorY == WrapRow(p.1, canvas.height)
      && effect == Nothing && painting' == painting && fileMenu.fileContent == old(fileMenu.fileContent)
    ensures runtime.color == old(runtime.color)
    ensures outcome != Exit
    ensures outcome == Panic <==> effect == ParsePanic
    ensures outcome == Undefined <==> effect == UndefinedCode
    ensures AboveMargin(old(runtime.cursorY), canvas.height) ==> AboveMargin(runtime.cursorY, canvas.height)
    ensures U32Keys(old(runtime.placed)) ==> U32Keys(runtime.placed)
  {
    outcome, effect, painting' := Running, Nothing, painting;
    if state.windowOpen && state.windowOpenName == FILE_NAME {
      effect, painting' := FileWindowActions(canvas, runtime, fileMenu, painting);
      if effect == ParsePanic {
        outcome := Panic;
      } else if effect == UndefinedCode {
        outcome := Undefined;
      }
    } else {
      PlaceBlok(runtime);
      StepOn(canvas, runtime);
    }
  }

  /** ERASE: the cursor cell turns White, the pending colour is kept, and the cursor steps on. */
  method EraseKey(canvas: Canvas, runtime: Runtime)
    requires 3 <= canvas.height <= U16_MAX
    modifies runtime`placed, runtime`cursorX, runtime`cursorY, runtime`color
    ensures var p := Continue(runtime.lastPressedKey, old(runtime.cursorX), old(runtime.cursorY));
      runtime.placed == old(runtime.placed)[CellOf(old(runtime.cursorX), old(runtime.cursorY)) := White]
      && runtime.cursorX == p.0 && runtime.cursorY == WrapRow(p.1, canvas.height)
    ensures runtime.color == old(runtime.color)
    ensures AboveMargin(old(runtime.cursorY), canvas.height) ==> AboveMargin(runtime.cursorY, canvas.height)
    ensures U32Keys(old(runtime.placed)) ==> U32Keys(runtime.placed)
  {
    var currentColor := runtime.color;
    runtime.color := White;
    PlaceBlok(runtime);
    runtime.color := currentColor;
    StepOn(canvas, runtime);
  }

  /**
   * One pass of the `paint` loop for the decoded key `key`. `painting` is the
   * content of `painting.txt` (`None`: missing), `painting'` what it is after;
   * `effect` is what a file-menu action did.
   */
  method HandleKey(canvas: Canvas, runtime: Runtime, state: State, fileMenu: FileMenu, key: Key, painting: Option<string>)
    returns (outcome: Outcome, effect: FileEffect, painting': Option<string>)
    requires 9 <= canvas.height <= U16_MAX
    modifies runtime, state, fileMenu
    ensures key != PLACE || !old(state.FileMenuOpen()) ==> painting' == painting && fileMenu.fileContent == old(fileMenu.fileContent)
    ensures key != QUIT && key != FILE && key != HELP ==> state.Value() == old(state.Value())
    ensures outcome == Exit ==> key == QUIT
    ensures IsArrow(key) ==>
      var p := ArrowMove(key, old(runtime.cursorX), old(runtime.cursorY));
      runtime.cursorX == p.0 && runtime.cursorY == WrapRow(p.1, canvas.height) && runtime.lastPressedKey == Recorded(key)
      && runtime.placed == old(runtime.placed) && runtime.color == old(runtime.color)
    ensures key == FILE ==> state.Value() == Toggle(old(state.Value()), FILE_NAME)
    ensures key == HELP ==> state.Value() == Toggle(old(state.Value()), HELP_NAME)
    ensures key == QUIT ==> Closed(state.Value(), outcome == Exit) == Quit(old(state.Value()))
    ensures key == PLACE && old(state.FileMenuOpen()) ==>
      FileResult(effect, runtime.placed, fileMenu.fileContent, painting')
        == FileAction(old(runtime.placed), old(fileMenu.fileContent), old(runtime.cursorX), old(runtime.cursorY), canvas.height, painting)
      && runtime.cursorX == old(runtime.cursorX) && runtime.cursorY == old(runtime.cursorY)
    ensures !(key == PLACE && old(state.FileMenuOpen())) ==> effect == Nothing
    ensures outcome == Panic <==> effect == ParsePanic
    ensures outcome == Undefined <==> effect == UndefinedCode
    ensures key == PLACE && !old(state.FileMenuOpen()) ==>
      var p := Continue(old(runtime.lastPressedKey), old(runtime.cursorX), old(runtime.cursorY));
      runtime.placed == old(runtime.placed)[CellOf(old(runtime.cursorX), old(runtime.cursorY)) := old(runtime.color)]
      && runtime.cursorX == p.0 && runtime.cursorY == WrapRow(p.1, canvas.height)
    ensures key == ERASE ==>
      var p := Continue(old(runtime.lastPressedKey), old(runtime.cursorX), old(runtime.cursorY));
      runtime.placed == old(runtime.placed)[CellOf(old(runtime.cursorX), old(runtime.cursorY)) := White]
      && runtime.cursorX == p.0 && runtime.cursorY == WrapRow(p.1, canvas.height)
    ensures !IsArrow(key) ==> runtime.lastPressedKey == old(runtime.lastPressedKey)
    ensures runtime.color == if IsColorKey(key) then ReturnColor(key) else old(runtime.color)
    ensures !IsArrow(key) && key != PLACE && key != ERASE ==>
      runtime.placed == old(runtime.placed) && runtime.cursorX == old(runtime.cursorX) && runtime.cursorY == old(runtime.cursorY)
    ensures runtime.cursorColor == old(runtime.cursorColor)
    ensures AboveMargin(old(runtime.cursorY), canvas.height) ==> AboveMargin(runtime.cursorY, canvas.height)
    ensures U32Keys(old(runtime.placed)) ==> U32Keys(runtime.placed)
  {
    outcome, effect, painting' := Running, Nothing, painting;
    if IsArrow(key) {
      ArrowKey(canvas, runtime, key);
    } else if key == FILE {
      state.FileWindow();
    } else if key == HELP {
      state.HelpWindow();
    } else if key == PLACE {
      outcome, effect, painting' := PlaceKey(canvas, runtime, state, fileMenu, painting);
    } else if key == ERASE {
      EraseKey(canvas, runtime);
    } else if key == QUIT {
      var exit := state.Close();
      if exit {
        outcome := Exit;
      }
    } else if IsColorKey(key) {
      runtime.color := ReturnColor(key);
    }
  }
}
