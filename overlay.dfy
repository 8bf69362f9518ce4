/**
 * The overlay windows both program iterations draw over the canvas: the help
 * window, the file window and its menu, and Quit, which closes an open
 * overlay before it ever exits. `logic.rs` and `window.rs`/`paint.rs` contain
 * the same code for these, so it is modelled once.
 */
module Overlay {
  import opened Wrappers
  import opened Grid

  /** `State.window_open` and `State.window_open_name`, as a value. */
  datatype Windows = Windows(open: bool, name: string)

  const HELP_NAME: string := "help"
  const FILE_NAME: string := "file"

  /** What the user sees: the help window, the file window, or the bare canvas (`Bare`). */
  datatype Shown = Bare | HelpShown | FileShown

  function ShownOf(w: Windows): (s: Shown)
    ensures s == HelpShown <==> w.open && w.name == HELP_NAME
    ensures s == FileShown <==> w.open && w.name == FILE_NAME
  {
    if w.open && w.name == HELP_NAME then HelpShown
    else if w.open && w.name == FILE_NAME then FileShown
    else Bare
  }

  /**
   * The toggle both `help_window` and `file_window` implement for their own
   * name: close the window when it is the one open, otherwise open it,
   * replacing whichever other window was open.
   */
  function Toggle(w: Windows, name: string): (r: Windows)
    ensures r.open <==> !(w.open && w.name == name)
    ensures r.open ==> r.name == name
    ensures !r.open ==> r.name == w.name
  {
    if w.open && w.name == name then w.(open := false) else Windows(true, name)
  }

  /** The outcome of Quit: the state afterwards and whether the program exits. */
  datatype Closed = Closed(after: Windows, exit: bool)

  /** `close`: toggle the open overlay shut, or exit when none is open. */
  function Quit(w: Windows): Closed {
    if w.open && w.name == HELP_NAME then Closed(Toggle(w, HELP_NAME), false)
    else if w.open && w.name == FILE_NAME then Closed(Toggle(w, FILE_NAME), false)
    else Closed(w, true)
  }

  /** Pressing a window's key opens that window, whatever was shown before, unless it was already shown. */
  lemma ToggleShows(w: Windows)
    ensures ShownOf(Toggle(w, HELP_NAME)) == if ShownOf(w) == HelpShown then Bare else HelpShown
    ensures ShownOf(Toggle(w, FILE_NAME)) == if ShownOf(w) == FileShown then Bare else FileShown
  {
  }

  /**
   * Pressing a window's key twice restores the view only when that window
   * was the one shown or nothing was: a different open window is replaced
   * on the first press and closed on the second.
   */
  lemma {:induction false} ToggleTwice(w: Windows, name: string)
    requires name == HELP_NAME || name == FILE_NAME
    ensures ShownOf(Toggle(Toggle(w, name), name)) == if w.open && w.name == name then ShownOf(w) else Bare
  {
    var once := Toggle(w, name);
    if w.open && w.name == name {
      assert once == w.(open := false);
    } else {
      assert once == Windows(true, name);
      assert Toggle(once, name) == Windows(false, name);
    }
  }

  /** Quit exits exactly when no overlay is shown, and otherwise leaves the bare canvas shown. */
  lemma QuitClosesOrExits(w: Windows)
    ensures Quit(w).exit <==> ShownOf(w) == Bare
    ensures !Quit(w).exit ==> ShownOf(Quit(w).after) == Bare && Quit(w).after.name == w.name
    ensures Quit(w).exit ==> Quit(w).after == w
  {
  }

  /** The mutable `State` record of the program. */
  class State {
    var windowOpen: bool
    var windowOpenName: string

    function Value(): Windows
      reads this
    {
      Windows(windowOpen, windowOpenName)
    }

    /** The state `main` starts with: no window, named "none". */
    constructor ()
      ensures Value() == Windows(false, "none")
      ensures ShownOf(Value()) == Bare
    {
      windowOpen := false;
      windowOpenName := "none";
    }

    /** `help_window` */
    method HelpWindow()
      modifies this
      ensures Value() == Toggle(old(Value()), HELP_NAME)
    {
      if windowOpen && windowOpenName == HELP_NAME {
        windowOpen := false;
        return;
      }
      windowOpen := true;
      windowOpenName := HELP_NAME;
    }

    /** `file_window` */
    method FileWindow()
      modifies this
      ensures Value() == Toggle(old(Value()), FILE_NAME)
    {
      if windowOpen && windowOpenName == FILE_NAME {
        windowOpen := false;
        return;
      }
      windowOpen := true;
      windowOpenName := FILE_NAME;
    }

    /** `close`; `exit` stands for `std::process::exit(0)`. */
    method Close() returns (exit: bool)
      modifies this
      ensures Closed(Value(), exit) == Quit(old(Value()))
    {
      exit := false;
      if windowOpen && windowOpenName == HELP_NAME {
        HelpWindow();
      } else if windowOpen && windowOpenName == FILE_NAME {
        FileWindow();
      } else {
        exit := true;
      }
    }

    /** The condition on which PLACE runs the file menu's actions instead of placing a block. */
    function FileMenuOpen(): (b: bool)
      reads this
      ensures b <==> ShownOf(Value()) == FileShown
    {
      windowOpen && windowOpenName == FILE_NAME
    }
  }

  // ---------------------------------------------------------------------
  // The file menu

  /** The menu rows of the file window, and the position that selects none. */
  datatype MenuItem = OpenText | SaveText | OpenPng | SavePng | NoItem

  /** Right edge of every menu row (`max_x`). */
  const MENU_MAX_X: nat := 40

  /**
   * The row the cursor selects in `file_window_actions`: each row is a span
   * of columns ending at column 40 on one line counted up from the bottom of
   * the canvas. Both coordinates are taken `as u16`.
   */
  function MenuItemAt(x: int, y: int, height: nat): (r: MenuItem)
    requires 9 <= height <= U16_MAX
    ensures r == OpenText <==> 23 <= AsU16(x) <= MENU_MAX_X && AsU16(y) == height - 9
    ensures r == SaveText <==> 26 <= AsU16(x) <= MENU_MAX_X && AsU16(y) == height - 8
    ensures r == OpenPng <==> 22 <= AsU16(x) <= MENU_MAX_X && AsU16(y) == height - 7
    ensures r == SavePng <==> 28 <= AsU16(x) <= MENU_MAX_X && AsU16(y) == height - 6
  {
    var cx, cy := AsU16(x), AsU16(y);
    if cx >= 23 && cx <= MENU_MAX_X && cy == height - 9 then OpenText
    else if cx >= 26 && cx <= MENU_MAX_X && cy == height - 8 then SaveText
    else if cx >= 22 && cx <= MENU_MAX_X && cy == height - 7 then OpenPng
    else if cx >= 28 && cx <= MENU_MAX_X && cy == height - 6 then SavePng
    else NoItem
  }

  /** What a file-menu action did, besides its changes to the state. */
  datatype FileEffect =
    | Nothing
      /** Loaded content equal to " ": the hint about `painting.txt` is shown. */
    | MissingFileHint
      /** Every triple of the loaded content was placed. */
    | Loaded
      /** A token did not parse as `u32`: `expect("Parsing error!")` panics. */
    | ParsePanic
      /** A colour code whose low byte is not a `KEY` discriminant reached `transmute`. */
    | UndefinedCode
      /** The store was written to `painting.txt`. */
    | Saved
      /** "On TODO list!" is shown. */
    | TodoMessage

  /** `FileMenu.file_content`: the buffer the text file is read into. */
  class FileMenu {
    var fileContent: string

    constructor (content: string)
      ensures fileContent == content
    {
      fileContent := content;
    }
  }

  /**
   * `content_in_file`: `read_to_string` appends the file to the buffer; a
   * missing or unreadable file (`None`) leaves the buffer as it was, the
   * error being ignored by the caller.
   */
  function Appended(content: string, file: Option<string>): (r: string)
    ensures file.None? ==> r == content
    ensures file.Some? ==> |r| == |content| + |file.value| && r[..|content|] == content && r[|content|..] == file.value
  {
    if file.Some? then content + file.value else content
  }

  /** What "Open text file" did and the store it left. */
  datatype Loading<V> = Loading(effect: FileEffect, placed: map<Coord, V>)

  /** What a file-menu action did, and the store, buffer and `painting.txt` it left. */
  datatype FileResult<V> = FileResult(effect: FileEffect, placed: map<Coord, V>, content: string, painting: Option<string>)
}
