/**
 * The canvas geometry and the placed-block store shared by both program
 * iterations: integer cursor positions and their conversion to screen cells,
 * the bottom-margin wrap of `place_new_cursor`, the iteration order of the
 * `BTreeMap<(u32, u32), Color>` that holds the placed blocks, and insertion
 * into it (a later write to a cell replaces an earlier one).
 */
module Grid {
  import opened Wrappers
  import opened TextFormat

  /** A screen cell, `(x, y)`: the key type of the placed-block map. */
  type Coord = (nat, nat)

  const U16_MAX: nat := 0xFFFF
  const U32_MAX: nat := 0xFFFF_FFFF

  /**
   * `cursor as u16`. The cursor is the float n + f with f in [0, 1), and
   * every move adds or subtracts a whole number; in exact arithmetic f never
   * changes, so the cursor is modelled by n. Rust's float-to-int cast
   * truncates toward zero and saturates, so n + f converts to n clamped to
   * [0, 65535]. (Binary64 rounding can break this; see the README.)
   */
  function AsU16(n: int): (r: nat)
    ensures r <= U16_MAX
    ensures 0 <= n <= U16_MAX ==> r == n
    ensures n < 0 ==> r == 0
    ensures n > U16_MAX ==> r == U16_MAX
  {
    if n < 0 then 0 else if n > U16_MAX then U16_MAX else n
  }

  /** `cursor as u32`, by the same reasoning. */
  function AsU32(n: int): (r: nat)
    ensures r <= U32_MAX
    ensures 0 <= n <= U32_MAX ==> r == n
    ensures n < 0 ==> r == 0
    ensures n > U32_MAX ==> r == U32_MAX
  {
    if n < 0 then 0 else if n > U32_MAX then U32_MAX else n
  }

  /** The map key a block placed at the cursor gets: `(cursor_x as u32, cursor_y as u32)`. */
  function CellOf(x: int, y: int): Coord {
    (AsU32(x), AsU32(y))
  }

  /** Terminal size in cells, fixed at start-up (`u16` in both dimensions). */
  datatype Canvas = Canvas(width: nat, height: nat)

  /** Every key fits `u32`, as keys made by `as u32` or by `parse::<u32>` do. */
  predicate U32Keys<V>(m: map<Coord, V>) {
    forall k :: k in m ==> k.0 <= U32_MAX && k.1 <= U32_MAX
  }

  // ---------------------------------------------------------------------
  // The bottom-margin wrap

  /**
   * The row `place_new_cursor` leaves the cursor on: when the row, as `u16`,
   * is `height - 2`, the cursor goes up two rows and the check is made again.
   * The recursion ends only when `height >= 3`: on a canvas of height 2 every
   * row at or above 0 casts to 0 == height - 2, so the source never returns.
   */
  function WrapRow(y: int, height: nat): int
    requires 3 <= height <= U16_MAX
    decreases if AsU16(y) == height - 2 then 1 else 0
  {
    if AsU16(y) != height - 2 then y else WrapRow(y - 2, height)
  }

  /**
   * After the wrap the cursor is never on row `height - 2`; a cursor that was
   * there ends on `height - 4` after a single adjustment, any other row is kept.
   */
  lemma WrapRowSettles(y: int, height: nat)
    requires 3 <= height <= U16_MAX
    ensures AsU16(WrapRow(y, height)) != height - 2
    ensures AsU16(y) != height - 2 ==> WrapRow(y, height) == y
    ensures AsU16(y) == height - 2 ==> y == height - 2 && WrapRow(y, height) == height - 4
  {
  }

  /** The cursor's row is above the bottom margin: the status rows `height - 2` and below are never entered. */
  predicate AboveMargin(y: int, height: nat) {
    AsU16(y) < height - 2
  }

  /**
   * The wrap keeps a cursor above the margin: a move of at most one row from
   * a row above it, followed by `place_new_cursor`, ends above it again.
   */
  lemma WrapKeepsAbove(y: int, y': int, height: nat)
    requires 3 <= height <= U16_MAX && y - 1 <= y' <= y + 1
    ensures AboveMargin(y, height) ==> AboveMargin(WrapRow(y', height), height)
  {
    WrapRowSettles(y', height);
  }

  // ---------------------------------------------------------------------
  // Iteration order of the placed-block map

  /** `(u32, u32)` tuples compare by x first, then by y. */
  predicate Before(a: Coord, b: Coord) {
    a.0 < b.0 || (a.0 == b.0 && a.1 < b.1)
  }

  predicate IsLeast(k: Coord, s: set<Coord>) {
    k in s && forall j :: j in s ==> j == k || Before(k, j)
  }

  lemma {:induction false} LeastExists(s: set<Coord>)
    requires s != {}
    ensures exists k :: IsLeast(k, s)
    decreases s
  {
    var x :| x in s;
    if s == {x} {
      assert IsLeast(x, s);
    } else {
      LeastExists(s - {x});
      var m :| IsLeast(m, s - {x});
      if Before(x, m) {
        forall j | j in s ensures j == x || Before(x, j) {
          if j != x {
            assert j in s - {x};
          }
        }
        assert IsLeast(x, s);
      } else {
        assert IsLeast(m, s);
      }
    }
  }

  lemma LeastUnique(a: Coord, b: Coord, s: set<Coord>)
    requires IsLeast(a, s) && IsLeast(b, s)
    ensures a == b
  {
  }

  /** The keys of a map in the order a `BTreeMap` visits them. */
  ghost function SortedKeys(s: set<Coord>): (ks: seq<Coord>)
    ensures |ks| == |s|
    ensures forall k :: k in ks <==> k in s
    decreases s
  {
    if s == {} then []
    else
      LeastExists(s);
      var k :| IsLeast(k, s);
      [k] + SortedKeys(s - {k})
  }

  /** The first key visited is the least one, whichever way it was found. */
  lemma SortedKeysUnfold(s: set<Coord>, k: Coord)
    requires IsLeast(k, s)
    ensures SortedKeys(s) == [k] + SortedKeys(s - {k})
  {
    var ks := SortedKeys(s);
    assert ks[0] in s;
    assert IsLeast(ks[0], s);
    LeastUnique(k, ks[0], s);
  }

  /** Strictly ascending in `(x, y)` order, so each cell at most once. */
  predicate Ascending(ks: seq<Coord>) {
    forall i, j :: 0 <= i < j < |ks| ==> Before(ks[i], ks[j])
  }

  /** A cell before every cell of an ascending sequence can be put in front of it. */
  lemma AscendingCons(k: Coord, rest: seq<Coord>)
    requires Ascending(rest)
    requires forall x :: x in rest ==> Before(k, x)
    ensures Ascending([k] + rest)
  {
    var ks := [k] + rest;
    forall i, j | 0 <= i < j < |ks| ensures Before(ks[i], ks[j]) {
      assert ks[j] == rest[j - 1];
      if i > 0 {
        assert ks[i] == rest[i - 1];
      }
    }
  }

  /** The keys are visited in strictly ascending `(x, y)` order, so each exactly once. */
  lemma {:induction false} SortedKeysAscending(s: set<Coord>)
    ensures Ascending(SortedKeys(s))
    decreases s
  {
    if s != {} {
      LeastExists(s);
      var k :| IsLeast(k, s);
      SortedKeysUnfold(s, k);
      var rest := SortedKeys(s - {k});
      SortedKeysAscending(s - {k});
      forall x | x in rest ensures Before(k, x) {
        assert x in s - {k};
      }
      AscendingCons(k, rest);
    }
  }

  /** The cells of `ks` that satisfy `p`, in the order of `ks`. */
  function Where(ks: seq<Coord>, p: Coord -> bool): (r: seq<Coord>)
    ensures forall k :: k in r <==> k in ks && p(k)
  {
    if ks == [] then []
    else Where(ks[..|ks| - 1], p) + (if p(ks[|ks| - 1]) then [ks[|ks| - 1]] else [])
  }

  /** Taking one more cell of `ks` adds it to the selection exactly when it satisfies `p`. */
  lemma WhereStep(ks: seq<Coord>, i: nat, p: Coord -> bool)
    requires i < |ks|
    ensures Where(ks[..i + 1], p) == Where(ks[..i], p) + (if p(ks[i]) then [ks[i]] else [])
  {
    assert ks[..i + 1][..i] == ks[..i];
  }

  /** A cell after every cell of an ascending sequence can be put at its end. */
  lemma AscendingSnoc(ks: seq<Coord>, k: Coord)
    requires Ascending(ks)
    requires forall x :: x in ks ==> Before(x, k)
    ensures Ascending(ks + [k])
  {
    var r := ks + [k];
    forall i, j | 0 <= i < j < |r| ensures Before(r[i], r[j]) {
      assert r[i] == ks[i];
      if j < |ks| {
        assert r[j] == ks[j];
      }
    }
  }

  /** Selecting from an ascending sequence keeps it ascending. */
  lemma {:induction false} WhereAscending(ks: seq<Coord>, p: Coord -> bool)
    requires Ascending(ks)
    ensures Ascending(Where(ks, p))
  {
    if ks != [] {
      var front, last := ks[..|ks| - 1], ks[|ks| - 1];
      assert Ascending(front) by {
        forall i, j | 0 <= i < j < |front| ensures Before(front[i], front[j]) {
          assert front[i] == ks[i] && front[j] == ks[j];
        }
      }
      WhereAscending(front, p);
      if p(last) {
        forall x | x in Where(front, p) ensures Before(x, last) {
          var i :| 0 <= i < |front| && front[i] == x;
          assert ks[i] == x;
        }
        AscendingSnoc(Where(front, p), last);
      }
    }
  }

  /**
   * A walk over a `BTreeMap` that acts on the cells satisfying `p`: it
   * visits them in ascending `(x, y)` order, each once, and no other cell.
   */
  method SelectCells<V>(m: map<Coord, V>, p: Coord -> bool) returns (cells: seq<Coord>)
    ensures Ascending(cells)
    ensures forall k :: k in cells <==> k in m && p(k)
  {
    var ks := InOrder(m.Keys);
    cells := [];
    for i := 0 to |ks|
      invariant cells == Where(ks[..i], p)
    {
      WhereStep(ks, i, p);
      if p(ks[i]) {
        cells := cells + [ks[i]];
      }
    }
    assert ks[..|ks|] == ks;
    SortedKeysAscending(m.Keys);
    WhereAscending(ks, p);
  }

  // ---------------------------------------------------------------------
  // Insertion

  /**
   * `BTreeMap::insert` of each `(cell, value)` pair in turn, so that a cell
   * ends with the value of the last pair naming it.
   */
  function Fill<V>(m: map<Coord, V>, es: seq<(Coord, V)>): map<Coord, V>
    decreases |es|
  {
    if es == [] then m else Fill(m[es[0].0 := es[0].1], es[1..])
  }

  /** Inserting one more pair after a sequence of pairs is a single map update. */
  lemma {:induction false} FillAppend<V>(m: map<Coord, V>, es: seq<(Coord, V)>, e: (Coord, V))
    ensures Fill(m, es + [e]) == Fill(m, es)[e.0 := e.1]
    decreases |es|
  {
    if es == [] {
      assert es + [e] == [e];
    } else {
      assert (es + [e])[0] == es[0] && (es + [e])[1..] == es[1..] + [e];
      FillAppend(m[es[0].0 := es[0].1], es[1..], e);
    }
  }

  /** The entries of `m` at the cells `ks`, in that order. */
  function ListingOf<V>(m: map<Coord, V>, ks: seq<Coord>): (es: seq<(Coord, V)>)
    requires forall i :: 0 <= i < |ks| ==> ks[i] in m
    ensures |es| == |ks|
    ensures forall i :: 0 <= i < |ks| ==> es[i] == (ks[i], m[ks[i]])
  {
    if ks == [] then [] else [(ks[0], m[ks[0]])] + ListingOf(m, ks[1..])
  }

  /** The entries of a map, in the order a `BTreeMap` visits them. */
  ghost function Listing<V>(m: map<Coord, V>): seq<(Coord, V)> {
    ListingOf(m, SortedKeys(m.Keys))
  }

  /** Inserting the entries of `m` at `ks` overrides exactly the cells `ks`, with their values in `m`. */
  lemma {:induction false} FillListingOf<V>(m0: map<Coord, V>, m: map<Coord, V>, ks: seq<Coord>)
    requires forall i :: 0 <= i < |ks| ==> ks[i] in m
    ensures forall k :: k in Fill(m0, ListingOf(m, ks)) <==> k in m0 || k in ks
    ensures forall k :: k in ks ==> Fill(m0, ListingOf(m, ks))[k] == m[k]
    ensures forall k :: k in m0 && k !in ks ==> Fill(m0, ListingOf(m, ks))[k] == m0[k]
    decreases |ks|
  {
    if ks != [] {
      var k0 := ks[0];
      var m1 := m0[k0 := m[k0]];
      var es := ListingOf(m, ks);
      assert es[0] == (k0, m[k0]) && es[1..] == ListingOf(m, ks[1..]);
      FillListingOf(m1, m, ks[1..]);
      assert Fill(m0, es) == Fill(m1, ListingOf(m, ks[1..]));
      assert forall k :: k in ks <==> k == k0 || k in ks[1..] by {
        assert ks == [k0] + ks[1..];
      }
    }
  }

  /** Inserting the entries of `m` at a list of all its cells into an empty map rebuilds `m`. */
  lemma FillAllCells<V>(m: map<Coord, V>, ks: seq<Coord>)
    requires forall k :: k in ks <==> k in m
    ensures Fill(map[], ListingOf(m, ks)) == m
  {
    FillListingOf(map[], m, ks);
  }

  /** Inserting a map's listing into an empty map rebuilds the map. */
  lemma FillListing<V>(m: map<Coord, V>)
    ensures Fill(map[], Listing(m)) == m
  {
    FillAllCells(m, SortedKeys(m.Keys));
  }

  /**
   * The save file's triples for the cells `ks` of `m`: coordinates and the
   * palette code `code` gives each cell's colour.
   */
  function Rows<V>(m: map<Coord, V>, ks: seq<Coord>, code: V -> nat): (ts: seq<Triple>)
    requires forall i :: 0 <= i < |ks| ==> ks[i] in m
    ensures |ts| == |ks|
    ensures forall i :: 0 <= i < |ks| ==> ts[i] == Triple(ks[i].0, ks[i].1, code(m[ks[i]]))
  {
    seq(|ks|, i requires 0 <= i < |ks| => Triple(ks[i].0, ks[i].1, code(m[ks[i]])))
  }

  /**
   * What a loader places for each triple: the cell `(x as u32, y as u32)`,
   * which is `(x, y)` itself for values parsed as `u32`, and the colour the
   * palette `color` gives the code.
   */
  function Entries<V>(ts: seq<Triple>, color: nat -> V): (es: seq<(Coord, V)>)
    ensures |es| == |ts|
    ensures forall i :: 0 <= i < |ts| ==> es[i] == (CellOf(ts[i].x, ts[i].y), color(ts[i].code))
  {
    seq(|ts|, i requires 0 <= i < |ts| => (CellOf(ts[i].x, ts[i].y), color(ts[i].code)))
  }

  /** One more complete triple places one more block, after the others. */
  lemma LoadStep<V>(m: map<Coord, V>, nums: seq<nat>, j: nat, color: nat -> V)
    requires 3 * j + 3 <= |nums|
    ensures Fill(m, Entries(Triples(nums[..3 * j + 3]), color))
      == Fill(m, Entries(Triples(nums[..3 * j]), color))[CellOf(nums[3 * j], nums[3 * j + 1]) := color(nums[3 * j + 2])]
  {
    TriplesExtend(nums, j);
    var t := Triple(nums[3 * j], nums[3 * j + 1], nums[3 * j + 2]);
    var before := Triples(nums[..3 * j]);
    assert Entries(before + [t], color) == Entries(before, color) + [(CellOf(t.x, t.y), color(t.code))];
    FillAppend(m, Entries(before, color), (CellOf(t.x, t.y), color(t.code)));
  }

  /** The numbers after the last complete triple place nothing. */
  lemma LoadTail(nums: seq<nat>, j: nat)
    requires 3 * j <= |nums| < 3 * j + 3
    ensures Triples(nums[..3 * j]) == Triples(nums)
  {
    assert nums == nums[..3 * j] + nums[3 * j..];
    TrailingNumbersIgnored(nums[..3 * j], nums[3 * j..]);
  }

  /**
   * The store after the placing loop has taken the first `j` complete
   * triples of `nums`, one block at a time.
   */
  function PlacedUpTo<V>(m: map<Coord, V>, nums: seq<nat>, j: nat, color: nat -> V): map<Coord, V>
    requires 3 * j <= |nums|
  {
    if j == 0 then m
    else PlacedUpTo(m, nums, j - 1, color)[CellOf(nums[3 * j - 3], nums[3 * j - 2]) := color(nums[3 * j - 1])]
  }

  /** Every block the placing loop puts down has a `u32` key, so a store with `u32` keys keeps them. */
  lemma {:induction false} PlacedKeepsU32Keys<V>(m: map<Coord, V>, nums: seq<nat>, j: nat, color: nat -> V)
    requires 3 * j <= |nums|
    ensures U32Keys(m) ==> U32Keys(PlacedUpTo(m, nums, j, color))
  {
    if j > 0 {
      PlacedKeepsU32Keys(m, nums, j - 1, color);
    }
  }

  /** Placing block by block is inserting the entries of the first `j` triples in order. */
  lemma {:induction false} PlacedUpToFill<V>(m: map<Coord, V>, nums: seq<nat>, j: nat, color: nat -> V)
    requires 3 * j <= |nums|
    ensures PlacedUpTo(m, nums, j, color) == Fill(m, Entries(Triples(nums[..3 * j]), color))
  {
    if j > 0 {
      var k := j - 1;
      assert 3 * j == 3 * k + 3;
      PlacedUpToFill(m, nums, k, color);
      LoadStep(m, nums, k, color);
    }
  }

  /** When fewer than three numbers remain, the blocks placed so far are those of every triple. */
  lemma PlacedAll<V>(m: map<Coord, V>, nums: seq<nat>, j: nat, color: nat -> V)
    requires 3 * j <= |nums| < 3 * j + 3
    ensures PlacedUpTo(m, nums, j, color) == Fill(m, Entries(Triples(nums), color))
  {
    PlacedUpToFill(m, nums, j, color);
    LoadTail(nums, j);
  }

  /** One step of visiting the cells in order: the least cell not yet visited is the next one. */
  lemma VisitStep(s: set<Coord>, done: seq<Coord>, rest: set<Coord>, k: Coord)
    requires IsLeast(k, rest)
    requires done + SortedKeys(rest) == SortedKeys(s)
    ensures (done + [k]) + SortedKeys(rest - {k}) == SortedKeys(s)
  {
    SortedKeysUnfold(rest, k);
    assert (done + [k]) + SortedKeys(rest - {k}) == done + ([k] + SortedKeys(rest - {k}));
  }

  /**
   * The cells of a `BTreeMap` in the order its iterator yields them: each
   * step takes the least cell not yet visited.
   */
  method InOrder(s: set<Coord>) returns (ks: seq<Coord>)
    ensures ks == SortedKeys(s)
  {
    var rest := s;
    ks := [];
    while rest != {}
      invariant ks + SortedKeys(rest) == SortedKeys(s)
      decreases |rest|
    {
      LeastExists(rest);
      var k :| IsLeast(k, rest);
      VisitStep(s, ks, rest, k);
      ks := ks + [k];
      rest := rest - {k};
    }
    assert ks + [] == ks;
  }

  /** Writing the next cell of the order `ks` appends its line to the text. */
  lemma SaveStep<V>(m: map<Coord, V>, ks: seq<Coord>, i: nat, code: V -> nat)
    requires forall j :: 0 <= j < |ks| ==> ks[j] in m
    requires i < |ks|
    ensures Lines(Rows(m, ks[..i + 1], code)) == Lines(Rows(m, ks[..i], code)) + Line(Triple(ks[i].0, ks[i].1, code(m[ks[i]])))
  {
    var t := Triple(ks[i].0, ks[i].1, code(m[ks[i]]));
    assert Rows(m, ks[..i + 1], code) == Rows(m, ks[..i], code) + [t];
    LinesAppend(Rows(m, ks[..i], code), [t]);
    assert Lines([t]) == Line(t) + Lines([]);
  }

  /** A map has no keys exactly when it is empty. */
  lemma NoKeys<V>(m: map<Coord, V>)
    ensures |m.Keys| == 0 <==> m == map[]
  {
    if |m.Keys| == 0 {
      assert forall k :: k !in m.Keys;
    }
  }

  /**
   * The save loop shared by both iterations: one `x y code` line per cell,
   * in the map's order, the first line creating the file and the others
   * appended; when there is no cell, no file is written at all.
   */
  method WriteRows<V>(m: map<Coord, V>, code: V -> nat) returns (painting: Option<string>)
    ensures painting.None? <==> m == map[]
    ensures painting.Some? ==> painting.value == Lines(Rows(m, SortedKeys(m.Keys), code))
  {
    var ks := InOrder(m.Keys);
    var newFile := true;
    var text := "";
    assert Rows(m, ks[..0], code) == [];
    for i := 0 to |ks|
      invariant forall j :: 0 <= j < |ks| ==> ks[j] in m
      invariant newFile <==> i == 0
      invariant text == Lines(Rows(m, ks[..i], code))
    {
      var k := ks[i];
      var line := Line(Triple(k.0, k.1, code(m[k])));
      SaveStep(m, ks, i, code);
      if newFile {
        assert text == "";
        text := line;
      } else {
        text := text + line;
      }
      newFile := false;
    }
    assert ks[..|ks|] == ks;
    NoKeys(m);
    painting := if newFile then None else Some(text);
  }

  /** Each stored value after encoding it with `code` and decoding it with `color`. */
  function Resolved<V>(m: map<Coord, V>, code: V -> nat, color: nat -> V): (r: map<Coord, V>)
    ensures r.Keys == m.Keys
    ensures forall k :: k in m ==> r[k] == color(code(m[k]))
  {
    map k | k in m :: color(code(m[k]))
  }

  /** The round trip below, for any order `ks` of the cells of `m`. */
  lemma RoundTripCells<V>(m: map<Coord, V>, ks: seq<Coord>, w: string, code: V -> nat, color: nat -> V)
    requires forall k :: k in ks <==> k in m
    requires U32Keys(m) && AllWhitespace(w)
    requires forall v :: code(v) < U32_LIMIT
    ensures ParseAll(Tokens(w + Lines(Rows(m, ks, code)))) == Some(Flatten(Rows(m, ks, code)))
    ensures Fill(map[], Entries(Triples(Flatten(Rows(m, ks, code))), color)) == Resolved(m, code, color)
  {
    var ts := Rows(m, ks, code);
    RowsBounded(m, ks, code);
    DecodeLines(w, ts);
    var r := Resolved(m, code, color);
    EntriesOfRows(m, ks, code, color);
    FillAllCells(r, ks);
  }

  /** Every number written for a store whose cells fit in `u32` fits in `u32`. */
  lemma RowsBounded<V>(m: map<Coord, V>, ks: seq<Coord>, code: V -> nat)
    requires forall i :: 0 <= i < |ks| ==> ks[i] in m
    requires U32Keys(m) && forall v :: code(v) < U32_LIMIT
    ensures Bounded(Rows(m, ks, code))
  {
    var ts := Rows(m, ks, code);
    forall i | 0 <= i < |ts| ensures ts[i].x < U32_LIMIT && ts[i].y < U32_LIMIT && ts[i].code < U32_LIMIT {
      assert ks[i] in m;
    }
  }

  /** Reading the written rows back lists the cells in the same order, each value through the palette. */
  lemma EntriesOfRows<V>(m: map<Coord, V>, ks: seq<Coord>, code: V -> nat, color: nat -> V)
    requires forall i :: 0 <= i < |ks| ==> ks[i] in m
    requires U32Keys(m)
    ensures Entries(Rows(m, ks, code), color) == ListingOf(Resolved(m, code, color), ks)
  {
    var ts, r := Rows(m, ks, code), Resolved(m, code, color);
    var a, b := Entries(ts, color), ListingOf(r, ks);
    forall i | 0 <= i < |a| ensures a[i] == b[i] {
      var k := ks[i];
      assert k in m;
      assert ts[i] == Triple(k.0, k.1, code(m[k]));
      assert CellOf(k.0, k.1) == k;
      assert r[k] == color(code(m[k]));
    }
  }

  /**
   * The save/load round trip for any palette: the text written for the
   * store `m` (after any leading whitespace already in the buffer) parses
   * back to the saved numbers, and placing their triples into an empty store
   * gives every cell of `m` back with its value passed through the palette.
   */
  lemma StoreRoundTrip<V>(m: map<Coord, V>, w: string, code: V -> nat, color: nat -> V)
    requires U32Keys(m) && AllWhitespace(w)
    requires forall v :: code(v) < U32_LIMIT
    ensures ParseAll(Tokens(w + Lines(Rows(m, SortedKeys(m.Keys), code)))) == Some(Flatten(Rows(m, SortedKeys(m.Keys), code)))
    ensures Fill(map[], Entries(Triples(Flatten(Rows(m, SortedKeys(m.Keys), code))), color)) == Resolved(m, code, color)
  {
    RoundTripCells(m, SortedKeys(m.Keys), w, code, color);
  }
}
