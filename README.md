# GVPaint, modelled in Dafny

GVPaint is a terminal painter. A block cursor moves over the terminal with
W/S/A/D, and P places a block of the pending colour under it. E erases a
block by placing White there, and the digit keys pick the pending colour.
H toggles the help window and F the file window. Q closes the open window,
or exits when none is open. Placed blocks live in a `BTreeMap` from
`(u32, u32)` cells to colours. In the file window, P on a menu row either
loads `painting.txt` into the map or saves the map to it, one `x y code`
line per block.

The repository holds two iterations of the same program, and both are
modelled:

- **The single-file iteration** (`src/logic.rs`) is module `Logic`. Keys
  are `u32` codes and its palette has nine colours (codes 10..18).
- **The split iteration** has three modules.
  - Module `Paint` models `src/paint.rs`: the `KEY` enum and a ten-colour
    palette (C1..C0).
  - Module `Window` models the file menu of `src/window.rs`, which loads
    colour codes through `transmute`.
  - Module `PaintLoop` models the `paint` key loop of `src/paint.rs`.

The modules the two iterations share are:

- `TextFormat`: the text format (`u32::to_string`, `split_whitespace`,
  `parse::<u32>`, grouping into triples);
- `Grid`: cells, the saturating `as u16`/`as u32` casts, the bottom-margin
  wrap, the `BTreeMap` iteration order, map insertion and the generic save
  loop and save/load round trip;
- `Overlay`: the window toggles, Quit and the file-menu hit test;
- `Colors`: crossterm's colour type;
- `Wrappers`: `Option`.

The state records `Runtime`, `State` and `FileMenu` (`src/variables.rs`)
are classes whose methods update their fields, as the source's functions
do through `&mut`. The key loop is modelled as one `HandleKey` call per
decoded key. Its out-parameters say whether the pass:

- keeps running;
- exits (`std::process::exit(0)` in `close`);
- panics (`expect("Parsing error!")` while loading);
- or, in the split iteration, stopped on a colour code for which
  `transmute` is undefined.

`painting.txt` is passed in as an `Option<string>` and returned as one
(`None`: no file).

Notable behaviour of the code, which the model keeps:

- A trailing incomplete triple in a loaded file is not an error. Its
  numbers are dropped and every complete triple is placed
  (`TextFormat.TrailingNumbersIgnored`).
- A token that is not a `u32` panics. Nothing is placed, because every
  token is parsed before the placing loop starts.
- A colour outside the palette is saved as code 10 (`Logic`) or as key C1
  (`Paint`), not as code 0. It therefore loads back as Black.
- Saving an empty store writes no file. An existing `painting.txt` is
  still renamed away first, so afterwards there is no `painting.txt`.
- The split iteration's loop records A as D and D as A, and its
  `move_cursor_blkey` swaps them back (`Paint.ContinueRepeatsArrow`).
- The bottom margin is the only edge the cursor respects. A cursor above
  row `height - 2` stays above it after every key (`Grid.WrapKeepsAbove`,
  and the last ensures of both `HandleKey`s).
- Nothing else keeps the cursor on the canvas. Its column is unbounded in
  both directions, and its row is unbounded upwards.
  - P left of column 0 or above row 0 writes to column or row 0, through
    the saturating `as u32` cast (`Grid.AsU32`).
  - P right of the last column stores a cell beyond the canvas width.

## Model

| member | source | states |
|---|---|---|
| Grid.AsU16 | src/logic.rs:202 | `as u16` of the cursor: negatives give 0, values above 65535 give 65535, and it is the identity inside that range |
| Grid.AsU32 | src/logic.rs:220-231 | `as u32` of the cursor: negatives give 0, values above 2^32-1 give 2^32-1, and it is the identity inside that range |
| Grid.WrapKeepsAbove | src/logic.rs:197-217 | a move of at most one row from above the bottom margin, followed by the wrap, ends above the margin again |
| Grid.WrapRowSettles | src/logic.rs:197-217 | after `place_new_cursor` the cursor is never on row `height - 2`; a cursor on that row moves to `height - 4`; any other row is kept |
| Grid.SortedKeysAscending | src/logic.rs:551 | the `BTreeMap` visits its cells in strictly ascending `(x, y)` order, so each cell exactly once |
| Grid.InOrder | src/logic.rs:551 | the ordered walk yields exactly the map's cells in `BTreeMap` order |
| Grid.WhereAscending | src/paint.rs:239-247 | selecting cells from an ascending sequence keeps them ascending |
| Grid.SelectCells | src/paint.rs:239-247 | a filtered walk over the `BTreeMap` visits exactly the cells satisfying the filter, in ascending order, each once |
| Grid.FillListing | src/logic.rs:551 | inserting a map's entries, in iteration order, into an empty map rebuilds the map |
| Grid.PlacedUpToFill | src/logic.rs:506-538 | placing the first `j` triples one block at a time equals inserting their entries in order |
| Grid.PlacedKeepsU32Keys | src/logic.rs:506-538 | every block the placing loop puts down has a `u32` key (`as u32`), so a store whose keys fit `u32` keeps that property |
| Grid.Rows | src/logic.rs:551-560 | the save file has one triple per visited cell, in visit order: coordinates and the palette code of its colour |
| Grid.Entries | src/logic.rs:516-523 | each loaded triple becomes the entry `(x as u32, y as u32) -> colour of code`, in order |
| Grid.Resolved | src/logic.rs:551-560 | the store after a save and load has the same cells, each colour passed through code and palette |
| Grid.WriteRows | src/logic.rs:549-564 | the save loop writes the lines of all cells in `BTreeMap` order, the first creating the file; with no cell no file is written |
| Grid.StoreRoundTrip | src/logic.rs:490-560 | for any palette, the saved text, after leading whitespace, parses back to the saved numbers, and placing them into an empty map rebuilds the store through the palette |
| TextFormat.Tokens | src/logic.rs:490-492 | `split_whitespace` yields non-empty tokens free of whitespace |
| TextFormat.Decimal | src/logic.rs:555-559 | `to_string` of a number is a non-empty digit string with no leading zero |
| TextFormat.ParseU32 | src/logic.rs:493 | `parse::<u32>` succeeds exactly on an optional `+` followed by one or more digits whose value is below 2^32, and gives that value |
| TextFormat.ParseAll | src/logic.rs:490-494 | the numbers of a token list exist exactly when every token parses, one value per token, in order |
| TextFormat.ParseDecimal | src/logic.rs:490-494 | parsing what `to_string` wrote gives the same number back |
| TextFormat.Triples | src/logic.rs:504-538 | the placing loop's counter groups the numbers by position into `|nums| / 3` triples |
| TextFormat.TriplesOfFlatten | src/logic.rs:504-538 | grouping the flattened numbers of triples gives back the same triples |
| TextFormat.TrailingNumbersIgnored | src/logic.rs:504-538 | numbers after the last complete triple place nothing |
| TextFormat.TokensOfLines | src/logic.rs:555-560 | the tokens of saved lines are their three decimal words each, in order |
| TextFormat.DecodeLines | src/logic.rs:490-494 | saved lines, after leading whitespace, parse to exactly the saved numbers, which regroup into the saved triples |
| TextFormat.LinesNotSpace | src/logic.rs:469 | saved text is never the lone space the loader treats as "no painting" |
| Overlay.ShownOf | src/logic.rs:595-598 | the help window is shown exactly when open with name "help", the file window exactly when open with name "file" |
| Overlay.Toggle | src/window.rs:17-32 | a window's key closes it when it is the open one, and otherwise opens it in place of any other window |
| Overlay.ToggleShows | src/window.rs:89-104 | after a window's key that window is shown, unless it was shown before, and then nothing is |
| Overlay.ToggleTwice | src/window.rs:89-104 | two presses of a window's key restore the view only when that window or nothing was shown |
| Overlay.QuitClosesOrExits | src/logic.rs:589-602 | Quit exits exactly when no window is shown, and otherwise closes the shown window and keeps the state |
| Overlay.State.constructor | src/main.rs:49-52 | the program starts with no window open, named "none" |
| Overlay.State.HelpWindow | src/logic.rs:234-272 | `help_window` toggles the help window |
| Overlay.State.FileWindow | src/logic.rs:330-368 | `file_window` toggles the file window |
| Overlay.State.Close | src/logic.rs:589-602 | `close` closes the open help or file window, and otherwise reports exit |
| Overlay.State.FileMenuOpen | src/logic.rs:656 | PLACE runs the file menu exactly when the file window is shown |
| Overlay.MenuItemAt | src/logic.rs:455-585 | the menu rows are columns 23, 26, 22 or 28 up to 40 on rows `height - 9` .. `height - 6`, compared `as u16` |
| Overlay.Appended | src/window.rs:152-161 | reading the file appends it to the buffer; a missing file leaves the buffer as it was |
| Overlay.FileMenu.constructor | src/variables.rs:34-36 | the file menu holds its buffer |
| Logic.CursorInput | src/logic.rs:77-103 | each command letter decodes in either case, '1'..'9' to 10..18, '0' to 19, anything else to 0 |
| Logic.DecodeIgnoresCase | src/logic.rs:77-103 | every command letter decodes to its command in lower and in upper case |
| Logic.ReturnColor | src/logic.rs:106-134 | a code's colour is in the palette, and Black for any code outside 10..18 |
| Logic.ReturnColorInt | src/logic.rs:137-161 | a colour's code is always in 10..18 |
| Logic.CodeRoundTrip | src/logic.rs:106-161 | every palette code survives colour and back |
| Logic.ColorRoundTrip | src/logic.rs:106-161 | a colour survives code and back exactly when it is in the palette; any other colour saves as 10 and comes back Black |
| Logic.ArrowMove | src/logic.rs:629-652 | an arrow key moves the cursor by exactly one cell: W up, S down, A left, D right |
| Logic.Continue | src/logic.rs:165-172 | after place or erase the cursor repeats the last arrow's move, or goes left when none was pressed |
| Logic.SavedText | src/logic.rs:540-564 | the save writes no file exactly when the store is empty |
| Logic.LoadText | src/logic.rs:463-538 | "Open text file" panics exactly when the buffer is not " " and a token is no `u32`; short of placing, the store is unchanged |
| Logic.OpenBlank | src/logic.rs:463-538 | opening a buffer of whitespace places nothing |
| Logic.PaletteStoreUnchanged | src/logic.rs:106-161 | a store whose colours are all in the palette survives code and colour unchanged |
| Logic.SaveOpenRoundTrip | src/logic.rs:463-564 | saving a store and opening the file into an empty store gives every block back, its colour passed through the palette |
| Logic.Runtime.constructor | src/main.rs:41-47 | the start state is colour Green, no key recorded and nothing placed |
| Logic.Runtime.MoveCursorBlkey | src/logic.rs:165-172 | `move_cursor_blkey` moves the cursor as Continue says |
| Logic.Runtime.PlaceNewCursor | src/logic.rs:197-217 | `place_new_cursor` leaves the cursor on the wrapped row |
| Logic.Runtime.PlaceBlok | src/logic.rs:220-231 | `place_blok` sets the cursor's cell to the pending colour, replacing what was there; its keys keep fitting `u32` when they did before |
| Logic.Runtime.PlaceNumbers | src/logic.rs:496-538 | the placing loop inserts every complete triple in order and puts back cursor and colour; its keys keep fitting `u32` when they did before |
| Logic.Runtime.SavePainting | src/logic.rs:540-564 | the save writes the store's lines in `BTreeMap` order, and no file for an empty store |
| Logic.Runtime.FileWindowActions | src/logic.rs:448-586 | the menu row under the cursor picks open, save, the PNG message or nothing; the cursor and colour are kept; its keys keep fitting `u32` when they did before |
| Logic.HandleKey | src/logic.rs:625-683 | per key: arrows move, wrap and record; F/H toggle; P places or runs the file menu; E erases; Q closes or exits; 10..18 set the colour; everything else is unchanged; a cursor above the bottom margin stays above it; its keys keep fitting `u32` when they did before |
| Paint.Discriminant | src/paint.rs:339 | `key as u32` lies in 0..19 |
| Paint.KeyOf | src/window.rs:254 | the key of a discriminant below 20 has that discriminant |
| Paint.CursorInput | src/paint.rs:74-103 | an event that is not a character decodes to NONE |
| Paint.DecodersAgree | src/paint.rs:74-103 | the split iteration decodes every character to the same code as the single-file one |
| Paint.ReturnColor | src/paint.rs:106-124 | a key's colour is in the ten-colour palette, and Black for any key that is not a colour key |
| Paint.ReturnColorInt | src/paint.rs:127-145 | a colour's key is always a colour key, C1..C0 |
| Paint.KeyRoundTrip | src/paint.rs:106-145 | every colour key survives colour and back |
| Paint.ColorRoundTrip | src/paint.rs:106-145 | a colour survives key and back exactly when it is in the palette; any other colour is encoded as C1 and comes back Black |
| Paint.ArrowMove | src/paint.rs:285-312 | an arrow key moves the cursor by exactly one cell: W up, S down, A left, D right |
| Paint.Recorded | src/paint.rs:290-311 | the loop records W and S as themselves, A as D and D as A |
| Paint.Continue | src/paint.rs:149-157 | with no arrow recorded the cursor goes left |
| Paint.ContinueRepeatsArrow | src/paint.rs:149-157 | the two swaps cancel: place and erase continue in the direction of the last arrow pressed |
| Paint.RedrawCanvas | src/paint.rs:232-258 | `redraw_canvas` repaints every block outside column 0 and no other, in map order, each once |
| Paint.RemoveOldCursor | src/paint.rs:160-178 | `remove_old_cursor` repaints exactly the blocks in the cursor's column (`cursor_x as u32`), in map order, each once |
| Paint.CursorColumnInRedraw | src/paint.rs:160-258 | a redraw repaints the cursor column's blocks too, except in column 0, which only `remove_old_cursor` repaints |
| Paint.Runtime.constructor | src/variables.rs:18-25 | builds the record with the given cursor and colours, no key recorded (NONE) and nothing placed; the struct itself declares no initial values, so these are the model's choice |
| Paint.MoveCursorBlkey | src/paint.rs:149-157 | `move_cursor_blkey` moves the cursor as Continue says |
| Paint.PlaceNewCursor | src/paint.rs:181-199 | `place_new_cursor` leaves the cursor on the wrapped row |
| Paint.PlaceBlok | src/paint.rs:202-213 | `place_blok` sets the cursor's cell to the pending colour; its keys keep fitting `u32` when they did before |
| Window.KeyOfByte | src/window.rs:254 | `transmute(i as u8)` is defined exactly when the low byte of `i` is below 20, and gives the key with that discriminant |
| Window.CodeColor | src/window.rs:254 | a loaded code with a defined low byte gets that key's palette colour |
| Window.SaveCode | src/window.rs:293-294 | a saved code is a colour key's discriminant, 10..19 |
| Window.SaveCodeLoads | src/window.rs:254-294 | a saved code loads back as the palette colour of the colour's key |
| Window.FirstUndefined | src/window.rs:242-276 | every triple before the returned position has a defined code, and the one at it does not |
| Window.PlaceTriples | src/window.rs:242-276 | loading ends Loaded exactly when every code is defined, and UndefinedCode otherwise |
| Window.LoadText | src/window.rs:199-276 | the hint exactly for the buffer " ", a panic exactly when a token is no `u32`, and the store unchanged in both cases |
| Window.SavedText | src/window.rs:278-305 | the save writes no file exactly when the store is empty |
| Window.OpenBlank | src/window.rs:199-276 | opening a buffer of whitespace places nothing |
| Window.PaletteStoreUnchanged | src/window.rs:254-294 | a store whose colours are all in the palette survives save and load unchanged |
| Window.SaveOpenRoundTrip | src/window.rs:199-305 | saving and opening into an empty store places every block again (no saved code is undefined), its colour passed through the palette |
| Window.PlaceStops | src/window.rs:242-276 | the first undefined code ends loading with UndefinedCode, after exactly the triples before it |
| Window.PlaceEnds | src/window.rs:242-276 | with every code defined, loading ends Loaded after all complete triples |
| Window.PlaceNumbers | src/window.rs:232-276 | the placing loop yields the effect and store PlaceTriples defines, and puts back cursor and colour; its keys keep fitting `u32` when they did before |
| Window.SavePainting | src/window.rs:278-305 | the save writes the store's lines in `BTreeMap` order with key discriminants as codes, and no file for an empty store |
| Window.FileWindowActions | src/window.rs:184-327 | the menu row under the cursor picks open, save, the PNG message or nothing; the cursor and colour are kept; its keys keep fitting `u32` when they did before |
| PaintLoop.ArrowKey | src/paint.rs:285-312 | an arrow moves one cell, wraps at the bottom margin and records the key, with A and D swapped |
| PaintLoop.StepOn | src/paint.rs:321-322 | after place or erase the cursor continues as recorded and wraps |
| PaintLoop.PlaceKey | src/paint.rs:315-324 | P runs the file menu when the file window is open, and otherwise places the pending colour and steps on; its keys keep fitting `u32` when they did before |
| PaintLoop.EraseKey | src/paint.rs:325-334 | E sets the cursor cell to White, keeps the pending colour and steps on; its keys keep fitting `u32` when they did before |
| PaintLoop.HandleKey | src/paint.rs:281-344 | per key: arrows move, wrap and record swapped; F/H toggle; P places or runs the file menu; E erases; Q closes or exits; C1..C0 set the colour; everything else is unchanged, the cursor colour included; a cursor above the bottom margin stays above it; its keys keep fitting `u32` when they did before |

## Left out

- Terminal output is not modelled. This covers cursor drawing, the help and file window texts, the hint lines and "On TODO list!". Each is reduced to its effect on the state. Only the two repaint loops of `src/paint.rs`, `redraw_canvas` and `remove_old_cursor`, are modelled, as the set of cells they repaint (`Paint.RedrawCanvas`, `Paint.RemoveOldCursor`). The repaints of `src/logic.rs` (`remove_old_cursor` at lines 176-194 and the redraw on closing a window at lines 234-272 and 330-368) are left out.
- `read_user_input_character` is not modelled: it reads a terminal event. The key decoders take the character, or `None` for a non-character event.
- Start-up and the screen size are not modelled. The canvas is a parameter, and `src/main.rs`, `src/menu.rs` and `src/settings.rs` are not part of this model.
- The key loop is one `HandleKey` per key, not the endless `loop`.
- `std::process::exit(0)` is the outcome `Exit`.
- A file-read error or a missing `painting.txt` is `None`, which leaves the buffer unchanged, as `content_in_file`'s ignored `?` does. Write errors are not modelled.
- The rename of `painting.txt` to `painting2.txt` before a save is not modelled. The model only returns the new content of `painting.txt`.
- The PNG menu rows are not modelled beyond their message; the source has no PNG code.
- Grid.WrapRowSettles: on a canvas of height 2, `place_new_cursor` never returns from a row that casts to 0. Such a row stays at or below 0 after each subtraction of 2, while row 1 returns. On heights 0 and 1, `canvas.height - 2` underflows. Every member that wraps therefore requires height ≥ 3.
- Overlay.MenuItemAt: the file menu's `height - 9` underflows in `u16` below height 9, so the file menu and both `HandleKey`s require height ≥ 9.
- Overlay.State.HelpWindow: opening the help window draws at `canvas.height - 18` (src/logic.rs:277, src/window.rs:37). That `u16` subtraction panics under overflow checks when the height is below 18. The model promises the toggle for any height and does not model that panic.
- Overlay.State.HelpWindow: closing the help window repaints the canvas (`redraw_canvas` at src/window.rs:26; src/logic.rs:234-272). The toggle and both `HandleKey`s give only the new window state, not the cells repainted.
- Overlay.State.FileWindow: closing the file window repaints the canvas in the same way (src/window.rs:98; src/logic.rs:330-368), which the model does not state either.
- Overlay.State.FileWindow: opening the file window draws at `canvas.height - 16` (src/logic.rs:373, src/window.rs:109). It panics in the same way below height 16, which the model does not capture either.
- Logic.Runtime.constructor: the cursor is an `f64` in the source, starting at `width / 2.2` and `height / 2.2`. It is modelled as an integer, its whole part. Every move adds ±1.0 or −2.0 and every use casts it to `u16` or `u32`. In exact arithmetic the fraction therefore never changes which cell the cursor names, and the model is exact.
- Logic.Runtime.constructor: binary64 rounding is not modelled. When `width / 2.2` or `height / 2.2` lands just below a whole number (for example 59.99999999999999 for width 132), a +1.0 step that crosses a power of two rounds up to the next whole number (five presses of D give exactly 65.0). From then on the program's cell is one more than the model's; widths 66, 132, 198 and 220 and heights 66 and 132 start this way.
- Window.KeyOfByte: `transmute` of a byte that is no `KEY` discriminant is undefined behaviour. The model gives it the effect UndefinedCode, which stops the load after the triples before it.
