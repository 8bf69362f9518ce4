/**
 * The file menu of the split iteration (`src/window.rs`): opening
 * `painting.txt` into the store and saving the store to it. Colour codes are
 * `KEY` discriminants; on opening, each code's low byte is turned into a
 * `KEY` with `transmute`, which is defined only for the twenty discriminants.
 */
module Window {
  import opened Wrappers
  import opened Colors
  import opened TextFormat
  import opened Grid
  import opened Overlay
  import opened Paint

  /** `std::mem::transmute::<u8, KEY>(i as u8)`: the key whose discriminant is the low byte of `i`, if there is one. */
  function KeyOfByte(i: nat): (r: Option<Key>)
    ensures r.Some? <==> i % 256 < 20
    ensures r.Some? ==> Discriminant(r.value) == i % 256
  {
    if i % 256 < 20 then Some(KeyOf(i % 256)) else None
  }

  /**
   * The colour a code loads as. Codes whose byte is not a discriminant never
   * reach it: loading stops before them (UndefinedCode); they are given Black.
   */
  function CodeColor(i: nat): (c: Color)
    ensures i % 256 < 20 ==> c == ReturnColor(KeyOf(i % 256))
  {
    match KeyOfByte(i)
    case Some(k) => ReturnColor(k)
    case None => Black
  }

  /** The code a colour is saved as: `return_color_int(v) as u32`. */
  function SaveCode(c: Color): (n: nat)
    ensures 10 <= n <= 19
  {
    Discriminant(ReturnColorInt(c))
  }

  /** A saved code loads back as the colour the palette gives its colour key. */
  lemma SaveCodeLoads(c: Color)
    ensures CodeColor(SaveCode(c)) == ReturnColor(ReturnColorInt(c))
  {
    KeyOfDiscriminant(ReturnColorInt(c));
  }

  predicate DefinedCode(t: Triple) {
    t.code % 256 < 20
  }

  /** The position of the first triple whose code is not a discriminant, or the length when there is none. */
  function FirstUndefined(ts: seq<Triple>): (d: nat)
    ensures d <= |ts|
    ensures forall i :: 0 <= i < d ==> DefinedCode(ts[i])
    ensures d < |ts| ==> !DefinedCode(ts[d])
  {
    if ts == [] || !DefinedCode(ts[0]) then 0 else 1 + FirstUndefined(ts[1..])
  }

  /** The placing loop: every triple before the first undefined code is placed in order. */
  function PlaceTriples(m: map<Coord, Color>, ts: seq<Triple>): (r: Loading<Color>)
    ensures r.effect == Loaded <==> forall i :: 0 <= i < |ts| ==> DefinedCode(ts[i])
    ensures r.effect == Loaded || r.effect == UndefinedCode
  {
    var d := FirstUndefined(ts);
    Loading(if d == |ts| then Loaded else UndefinedCode, Fill(m, Entries(ts[..d], CodeColor)))
  }

  /**
   * "Open text file" on the buffer `content`: the hint for the buffer " ",
   * a panic when a token is not a `u32`, and otherwise the triples placed
   * in order up to the first undefined code.
   */
  function LoadText(m: map<Coord, Color>, content: string): (r: Loading<Color>)
    ensures r.effect == MissingFileHint <==> content == " "
    ensures r.effect == ParsePanic <==> content != " " && ParseAll(Tokens(content)).None?
    ensures r.effect != Loaded && r.effect != UndefinedCode ==> r.placed == m
  {
    if content == " " then Loading(MissingFileHint, m)
    else match ParseAll(Tokens(content))
      case None => Loading(ParsePanic, m)
      case Some(nums) => PlaceTriples(m, Triples(nums))
  }

  /** The text "Save as text file" leaves in `painting.txt`: no file for an empty store. */
  ghost function SavedText(m: map<Coord, Color>): (r: Option<string>)
    ensures r.None? <==> m == map[]
  {
    if m == map[] then None else Some(Lines(Rows(m, SortedKeys(m.Keys), SaveCode)))
  }

  /** `file_window_actions`: the menu row under the cursor picks the action. */
  ghost function FileAction(m: map<Coord, Color>, content: string, x: int, y: int, height: nat, painting: Option<string>): (r: FileResult<Color>)
    requires 9 <= height <= U16_MAX
  {
    match MenuItemAt(x, y, height)
    case OpenText =>
      var c := Appended(content, painting);
      var l := LoadText(m, c);
      FileResult(l.effect, l.placed, c, painting)
    case SaveText => FileResult(Saved, m, content, SavedText(m))
    case OpenPng => FileResult(TodoMessage, m, content, painting)
    case SavePng => FileResult(TodoMessage, m, content, painting)
    case NoItem => FileResult(Nothing, m, content, painting)
  }

  /** Opening a buffer of whitespace places nothing. */
  lemma OpenBlank(m: map<Coord, Color>, w: string)
    requires AllWhitespace(w)
    ensures LoadText(m, w).placed == m
  {
    SkipWhitespace(w, "");
    assert w + "" == w;
  }

  /** Passing a store through save and load changes nothing when every colour is in the palette. */
  lemma PaletteStoreUnchanged(m: map<Coord, Color>)
    requires forall k :: k in m ==> InPalette(m[k])
    ensures Resolved(m, SaveCode, CodeColor) == m
  {
    forall k | k in m ensures CodeColor(SaveCode(m[k])) == m[k] {
      SaveCodeLoads(m[k]);
      ColorRoundTrip(m[k]);
    }
  }

  /**
   * Saving a store and opening the file into an empty store, with a buffer
   * holding only whitespace, places every block again: saved codes are
   * always discriminants, so `transmute` is defined for all of them. Each
   * colour comes back passed through the palette (the same store when every
   * colour is in the palette, by PaletteStoreUnchanged).
   */
  lemma SaveOpenRoundTrip(m: map<Coord, Color>, w: string)
    requires U32Keys(m) && AllWhitespace(w)
    ensures m != map[] ==> LoadText(map[], Appended(w, SavedText(m))) == Loading(Loaded, Resolved(m, SaveCode, CodeColor))
    ensures LoadText(map[], Appended(w, SavedText(m))).placed == Resolved(m, SaveCode, CodeColor)
  {
    if m == map[] {
      OpenBlank(map[], w);
    } else {
      SaveOpenFilled(m, w);
    }
  }

  /** The round trip above for a store holding at least one block. */
  lemma SaveOpenFilled(m: map<Coord, Color>, w: string)
    requires U32Keys(m) && AllWhitespace(w) && m != map[]
    ensures LoadText(map[], Appended(w, SavedText(m))) == Loading(Loaded, Resolved(m, SaveCode, CodeColor))
  {
    assert Appended(w, SavedText(m)) == w + Lines(Rows(m, SortedKeys(m.Keys), SaveCode));
    SavedParses(m, w);
    SavedPlaces(m);
  }

  /** The saved text, after a buffer of whitespace, parses back into the saved triples. */
  lemma SavedParses(m: map<Coord, Color>, w: string)
    requires U32Keys(m) && AllWhitespace(w) && m != map[]
    ensures LoadText(map[], w + Lines(Rows(m, SortedKeys(m.Keys), SaveCode))) == PlaceTriples(map[], Rows(m, SortedKeys(m.Keys), SaveCode))
  {
    var ts := Rows(m, SortedKeys(m.Keys), SaveCode);
    StoreRoundTrip(m, w, SaveCode, CodeColor);
    TriplesOfFlatten(ts);
    SavedNotHint(w, ts);
  }

  /** The saved triples are all placed, each block with its colour passed through the palette. */
  lemma SavedPlaces(m: map<Coord, Color>)
    requires U32Keys(m)
    ensures PlaceTriples(map[], Rows(m, SortedKeys(m.Keys), SaveCode)) == Loading(Loaded, Resolved(m, SaveCode, CodeColor))
  {
    var ts := Rows(m, SortedKeys(m.Keys), SaveCode);
    StoreRoundTrip(m, "", SaveCode, CodeColor);
    TriplesOfFlatten(ts);
    SavedCodesDefined(ts);
  }

  /** A non-empty saved text is never the buffer " " that shows the hint. */
  lemma SavedNotHint(w: string, ts: seq<Triple>)
    requires ts != []
    ensures w + Lines(ts) != " "
  {
    assert |w + Lines(ts)| >= |Line(ts[0])| > 1;
  }

  /** Placing triples whose codes are all discriminants places every one of them. */
  lemma SavedCodesDefined(ts: seq<Triple>)
    requires forall i :: 0 <= i < |ts| ==> 10 <= ts[i].code <= 19
    ensures PlaceTriples(map[], ts) == Loading(Loaded, Fill(map[], Entries(ts, CodeColor)))
  {
    assert FirstUndefined(ts) == |ts|;
    assert ts[..|ts|] == ts;
  }

  /** FirstUndefined is characterised by its contract: every earlier code defined, its own not. */
  lemma FirstUndefinedAt(ts: seq<Triple>, d: nat)
    requires d <= |ts|
    requires forall i :: 0 <= i < d ==> DefinedCode(ts[i])
    requires d < |ts| ==> !DefinedCode(ts[d])
    ensures FirstUndefined(ts) == d
  {
    var f := FirstUndefined(ts);
    if f < d {
      assert false;
    }
  }

  /** The first `j` complete triples of `nums` have codes that are discriminants. */
  predicate DefinedUpTo(nums: seq<nat>, j: nat)
    requires 3 * j <= |nums|
  {
    j == 0 || (DefinedUpTo(nums, j - 1) && nums[3 * j - 1] % 256 < 20)
  }

  /** DefinedUpTo says the first undefined code comes after the `j` triples. */
  lemma {:induction false} DefinedUpToFirst(nums: seq<nat>, j: nat)
    requires 3 * j <= |nums| && DefinedUpTo(nums, j)
    ensures FirstUndefined(Triples(nums[..3 * j])) == j
  {
    if j > 0 {
      var k := j - 1;
      assert 3 * j == 3 * k + 3;
      DefinedUpToFirst(nums, k);
      TriplesExtend(nums, k);
      var t := Triple(nums[3 * k], nums[3 * k + 1], nums[3 * k + 2]);
      DefinedAppend(Triples(nums[..3 * k]), t);
    }
  }

  /** A defined code after triples with no undefined code leaves none undefined. */
  lemma DefinedAppend(ts: seq<Triple>, t: Triple)
    requires FirstUndefined(ts) == |ts| && DefinedCode(t)
    ensures FirstUndefined(ts + [t]) == |ts| + 1
  {
    forall i | 0 <= i < |ts| + 1 ensures DefinedCode((ts + [t])[i]) {
      if i < |ts| {
        assert (ts + [t])[i] == ts[i];
      }
    }
    FirstUndefinedAt(ts + [t], |ts| + 1);
  }

  /** The first triple whose code is not a discriminant is where the placing stops. */
  lemma StopsAt(nums: seq<nat>, j: nat)
    requires 3 * j + 3 <= |nums| && DefinedUpTo(nums, j)
    requires nums[3 * j + 2] % 256 >= 20
    ensures FirstUndefined(Triples(nums)) == j
  {
    DefinedUpToFirst(nums, j);
    TriplesPrefix(nums, j);
    var ts := Triples(nums);
    forall i | 0 <= i < j ensures DefinedCode(ts[i]) {
      assert ts[i] == ts[..j][i];
    }
    assert !DefinedCode(ts[j]);
    FirstUndefinedAt(ts, j);
  }

  /** A triple whose code is not a discriminant ends the placing with UndefinedCode. */
  lemma PlaceStops(m: map<Coord, Color>, nums: seq<nat>, j: nat)
    requires 3 * j + 3 <= |nums| && DefinedUpTo(nums, j)
    requires nums[3 * j + 2] % 256 >= 20
    ensures PlaceTriples(m, Triples(nums)) == Loading(UndefinedCode, PlacedUpTo(m, nums, j, CodeColor))
  {
    StopsAt(nums, j);
    TriplesPrefix(nums, j);
    PlacedUpToFill(m, nums, j, CodeColor);
  }

  /** Running out of complete triples ends the placing with Loaded. */
  lemma PlaceEnds(m: map<Coord, Color>, nums: seq<nat>, j: nat)
    requires 3 * j <= |nums| < 3 * j + 3 && DefinedUpTo(nums, j)
    ensures PlaceTriples(m, Triples(nums)) == Loading(Loaded, PlacedUpTo(m, nums, j, CodeColor))
  {
    DefinedUpToFirst(nums, j);
    PlacedAll(m, nums, j, CodeColor);
    LoadTail(nums, j);
    var ts := Triples(nums);
    assert ts[..|ts|] == ts;
  }

  /**
   * The placing loop of "Open text file": the numbers are taken in triples
   * by position, and each complete triple places one block with the cursor
   * and colour set to it, then put back. A code whose byte is not a
   * discriminant stops the loop (`transmute` is undefined for it).
   */
  method PlaceNumbers(runtime: Runtime, nums: seq<nat>) returns (effect: FileEffect)
    modifies runtime`cursorX, runtime`cursorY, runtime`color, runtime`placed
    ensures Loading(effect, runtime.placed) == PlaceTriples(old(runtime.placed), Triples(nums))
    ensures U32Keys(old(runtime.placed)) ==> U32Keys(runtime.placed)
    ensures runtime.cursorX == old(runtime.cursorX) && runtime.cursorY == old(runtime.cursorY)
    ensures runtime.color == old(runtime.color)
  {
    var currentX, currentY, currentColor := runtime.cursorX, runtime.cursorY, runtime.color;
    var tempX, tempY, tempColor := currentX, currentY, currentColor;
    var slot := 1; // `iterator`: which member of the triple comes next
    ghost var m0, placedTriples := runtime.placed, 0;
    var n := 0;
    while n < |nums|
      invariant n <= |nums| && 1 <= slot <= 3
      invariant n == 3 * placedTriples + slot - 1
      invariant slot >= 2 ==> tempX == nums[3 * placedTriples]
      invariant slot == 3 ==> tempY == nums[3 * placedTriples + 1]
      invariant DefinedUpTo(nums, placedTriples)
      invariant runtime.placed == PlacedUpTo(m0, nums, placedTriples, CodeColor)
      invariant runtime.cursorX == currentX && runtime.cursorY == currentY && runtime.color == currentColor
    {
      var i := nums[n];
      if slot == 1 {
        tempX := i;
        slot := slot + 1;
      } else if slot == 2 {
        tempY := i;
        slot := slot + 1;
      } else {
        assert i == nums[3 * placedTriples + 2];
        var k := KeyOfByte(i);
        if k.None? {
          PlaceStops(m0, nums, placedTriples);
          PlacedKeepsU32Keys(m0, nums, placedTriples, CodeColor);
          return UndefinedCode;
        }
        tempColor := ReturnColor(k.value);
        assert tempColor == CodeColor(i);
        assert DefinedUpTo(nums, placedTriples + 1);
        assert PlacedUpTo(m0, nums, placedTriples + 1, CodeColor) == runtime.placed[CellOf(tempX, tempY) := tempColor];
        runtime.cursorX, runtime.cursorY, runtime.color := tempX, tempY, tempColor;
        PlaceBlok(runtime);
        runtime.cursorX, runtime.cursorY, runtime.color := currentX, currentY, currentColor;
        tempX, tempY, tempColor := 0, 0, Black;
        slot := 1;
        placedTriples := placedTriples + 1;
      }
      n := n + 1;
    }
    PlaceEnds(m0, nums, placedTriples);
    PlacedKeepsU32Keys(m0, nums, placedTriples, CodeColor);
    effect := Loaded;
  }

  /**
   * "Save as text file": one `x y code` line per block, in the map's order;
   * the first line creates the file and the others are appended.
   */
  method SavePainting(runtime: Runtime) returns (painting: Option<string>)
    ensures painting == SavedText(runtime.placed)
  {
    // each code is `return_color_int(v) as u32`
    painting := WriteRows(runtime.placed, SaveCode);
  }

  /** `file_window_actions`, with `painting.txt` passed in and its new content returned. */
  method FileWindowActions(canvas: Canvas, runtime: Runtime, fileMenu: FileMenu, painting: Option<string>)
    returns (effect: FileEffect, painting': Option<string>)
    requires 9 <= canvas.height <= U16_MAX
    modifies runtime`placed, runtime`cursorX, runtime`cursorY, runtime`color, fileMenu
    ensures FileResult(effect, runtime.placed, fileMenu.fileContent, painting')
      == FileAction(old(runtime.placed), old(fileMenu.fileContent), old(runtime.cursorX), old(runtime.cursorY), canvas.height, painting)
    ensures runtime.cursorX == old(runtime.cursorX) && runtime.cursorY == old(runtime.cursorY)
    ensures runtime.color == old(runtime.color)
    ensures U32Keys(old(runtime.placed)) ==> U32Keys(runtime.placed)
  {
    var item := MenuItemAt(runtime.cursorX, runtime.cursorY, canvas.height);
    effect, painting' := Nothing, painting;
    if item == OpenText {
      fileMenu.fileContent := Appended(fileMenu.fileContent, painting);
      if fileMenu.fileContent == " " {
        effect := MissingFileHint;
      } else {
        var parsed := ParseAll(Tokens(fileMenu.fileContent));
        if parsed.None? {
          effect := ParsePanic;
        } else {
          effect := PlaceNumbers(runtime, parsed.value);
        }
      }
    } else if item == SaveText {
      painting' := SavePainting(runtime);
      effect := Saved;
    } else if item == OpenPng || item == SavePng {
      effect := TodoMessage;
    }
  }
}
