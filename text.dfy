/**
 * The painting's text format, shared by both program iterations: one line
 * `x y code` per placed block, written with Rust's `u32::to_string`, and read
 * back with `str::split_whitespace` followed by `str::parse::<u32>` on every
 * token, the numbers then grouped into (x, y, code) triples by position.
 */
module TextFormat {
  import opened Wrappers

  /** One more than the largest `u32`. */
  const U32_LIMIT: nat := 0x1_0000_0000

  /** Unicode White_Space, the separator set of `str::split_whitespace`. */
  predicate IsWhitespace(c: char) {
    || c == ' '
    || '\t' <= c <= '\r'
    || c == '\U{85}'
    || c == '\U{A0}'
    || c == '\U{1680}'
    || '\U{2000}' <= c <= '\U{200A}'
    || c == '\U{2028}'
    || c == '\U{2029}'
    || c == '\U{202F}'
    || c == '\U{205F}'
    || c == '\U{3000}'
  }

  predicate NoWhitespace(s: string) {
    forall i :: 0 <= i < |s| ==> !IsWhitespace(s[i])
  }

  predicate AllWhitespace(s: string) {
    forall i :: 0 <= i < |s| ==> IsWhitespace(s[i])
  }

  /** Length of the word at the front of `s`: it stops at the first separator. */
  function WordLength(s: string): (n: nat)
    ensures n <= |s|
    ensures forall i :: 0 <= i < n ==> !IsWhitespace(s[i])
    ensures n < |s| ==> IsWhitespace(s[n])
  {
    if s == [] || IsWhitespace(s[0]) then 0 else 1 + WordLength(s[1..])
  }

  /** `str::split_whitespace`: the maximal separator-free runs, in order. */
  function Tokens(s: string): (ts: seq<string>)
    ensures forall i :: 0 <= i < |ts| ==> ts[i] != [] && NoWhitespace(ts[i])
    decreases |s|
  {
    if s == [] then []
    else if IsWhitespace(s[0]) then Tokens(s[1..])
    else
      var n := WordLength(s);
      [s[..n]] + Tokens(s[n..])
  }

  // ---------------------------------------------------------------------
  // Decimal numbers

  predicate IsDigit(c: char) {
    '0' <= c <= '9'
  }

  predicate AllDigits(s: string) {
    forall i :: 0 <= i < |s| ==> IsDigit(s[i])
  }

  function DigitChar(d: nat): (c: char)
    requires d < 10
    ensures IsDigit(c) && c as int - '0' as int == d
  {
    ('0' as int + d) as char
  }

  function DigitValue(c: char): nat
    requires IsDigit(c)
  {
    c as int - '0' as int
  }

  /** `u32::to_string`: decimal digits, most significant first, no leading zero. */
  function Decimal(n: nat): (s: string)
    ensures s != [] && AllDigits(s)
    ensures s[0] == '0' ==> n == 0
  {
    if n < 10 then [DigitChar(n)] else Decimal(n / 10) + [DigitChar(n % 10)]
  }

  /** The number a string of decimal digits denotes (leading zeros allowed). */
  function DigitsValue(s: string): nat
    requires AllDigits(s)
  {
    if s == [] then 0 else 10 * DigitsValue(s[..|s| - 1]) + DigitValue(s[|s| - 1])
  }

  /** A token without its leading `+`, if it has one. */
  function Unsigned(t: string): (d: string)
    ensures t != [] && t[0] == '+' ==> t == "+" + d
    ensures !(t != [] && t[0] == '+') ==> d == t
  {
    if t != [] && t[0] == '+' then t[1..] else t
  }

  /**
   * `str::parse::<u32>`: an optional leading `+`, then one or more ASCII
   * digits whose value fits in 32 bits; anything else is an error.
   */
  function ParseU32(t: string): (r: Option<nat>)
    ensures r.Some? <==> Unsigned(t) != [] && AllDigits(Unsigned(t)) && DigitsValue(Unsigned(t)) < U32_LIMIT
    ensures r.Some? ==> r.value == DigitsValue(Unsigned(t)) && r.value < U32_LIMIT
    ensures r.Some? ==> t != [] && (IsDigit(t[0]) || t[0] == '+')
  {
    var digits := Unsigned(t);
    if digits == [] || !AllDigits(digits) then None
    else if DigitsValue(digits) < U32_LIMIT then Some(DigitsValue(digits))
    else None
  }

  /**
   * The loader's `map(|s| s.parse().expect(..)).collect()`: every token
   * parsed, or nothing at all when one of them is not a number.
   */
  function ParseAll(toks: seq<string>): (r: Option<seq<nat>>)
    ensures r.Some? <==> forall i :: 0 <= i < |toks| ==> ParseU32(toks[i]).Some?
    ensures r.Some? ==> |r.value| == |toks|
    ensures r.Some? ==> forall i :: 0 <= i < |toks| ==> ParseU32(toks[i]) == Some(r.value[i])
  {
    if toks == [] then Some([])
    else
      match (ParseU32(toks[0]), ParseAll(toks[1..]))
      case (Some(v), Some(vs)) => Some([v] + vs)
      case _ => None
  }

  lemma {:induction false} DecimalValue(n: nat)
    ensures DigitsValue(Decimal(n)) == n
  {
    if n >= 10 {
      var s := Decimal(n);
      assert s[..|s| - 1] == Decimal(n / 10);
      DecimalValue(n / 10);
    }
  }

  /** Reading back what `u32::to_string` wrote gives the same number. */
  lemma ParseDecimal(n: nat)
    requires n < U32_LIMIT
    ensures ParseU32(Decimal(n)) == Some(n)
  {
    DecimalValue(n);
  }

  // ---------------------------------------------------------------------
  // Triples and lines

  datatype Triple = Triple(x: nat, y: nat, code: nat)

  /**
   * The loader's `iterator` counter: numbers are taken three at a time by
   * position, regardless of line breaks; a trailing incomplete group is dropped.
   */
  function Triples(nums: seq<nat>): (ts: seq<Triple>)
    ensures |ts| == |nums| / 3
    ensures forall i :: 0 <= i < |ts| ==> ts[i] == Triple(nums[3 * i], nums[3 * i + 1], nums[3 * i + 2])
  {
    if |nums| < 3 then [] else [Triple(nums[0], nums[1], nums[2])] + Triples(nums[3..])
  }

  function Flatten(ts: seq<Triple>): (nums: seq<nat>)
    ensures |nums| == 3 * |ts|
  {
    if ts == [] then [] else [ts[0].x, ts[0].y, ts[0].code] + Flatten(ts[1..])
  }

  /** One line of the save file: `x y code` and a newline. */
  function Line(t: Triple): string {
    Decimal(t.x) + " " + Decimal(t.y) + " " + Decimal(t.code) + "\n"
  }

  function Lines(ts: seq<Triple>): string {
    if ts == [] then "" else Line(ts[0]) + Lines(ts[1..])
  }

  /** The words the lines of `ts` consist of. */
  function Words(ts: seq<Triple>): seq<string> {
    if ts == [] then [] else [Decimal(ts[0].x), Decimal(ts[0].y), Decimal(ts[0].code)] + Words(ts[1..])
  }

  predicate Bounded(ts: seq<Triple>) {
    forall i :: 0 <= i < |ts| ==> ts[i].x < U32_LIMIT && ts[i].y < U32_LIMIT && ts[i].code < U32_LIMIT
  }

  lemma {:induction false} TriplesOfFlatten(ts: seq<Triple>)
    ensures Triples(Flatten(ts)) == ts
  {
    if ts != [] {
      assert Flatten(ts)[3..] == Flatten(ts[1..]);
      TriplesOfFlatten(ts[1..]);
    }
  }

  /** Numbers after the last complete triple place nothing. */
  lemma TrailingNumbersIgnored(nums: seq<nat>, rest: seq<nat>)
    requires |nums| % 3 == 0 && |rest| < 3
    ensures Triples(nums + rest) == Triples(nums)
  {
    var a, b := Triples(nums + rest), Triples(nums);
    assert |a| == |b|;
    forall i | 0 <= i < |a| ensures a[i] == b[i] {
      assert 3 * i + 2 < |nums|;
    }
  }

  /** Three more numbers make one more triple, at the end. */
  lemma TriplesExtend(nums: seq<nat>, j: nat)
    requires 3 * j + 3 <= |nums|
    ensures Triples(nums[..3 * j + 3]) == Triples(nums[..3 * j]) + [Triple(nums[3 * j], nums[3 * j + 1], nums[3 * j + 2])]
  {
    var a, b := Triples(nums[..3 * j + 3]), Triples(nums[..3 * j]);
    assert |a| == j + 1 && |b| == j;
    forall i | 0 <= i < j ensures a[i] == b[i] {
      assert 3 * i + 2 < 3 * j;
    }
  }

  /** The triples of a prefix of whole triples are a prefix of the triples. */
  lemma TriplesPrefix(nums: seq<nat>, j: nat)
    requires 3 * j <= |nums|
    ensures Triples(nums[..3 * j]) == Triples(nums)[..j]
  {
    var a, b := Triples(nums[..3 * j]), Triples(nums)[..j];
    assert |a| == j && |b| == j;
    forall i | 0 <= i < j ensures a[i] == b[i] {
      assert 3 * i + 2 < 3 * j;
    }
  }

  lemma ConcatAssoc(x: string, y: string, z: string)
    ensures x + (y + z) == (x + y) + z
  {
  }

  lemma {:induction false} LinesAppend(a: seq<Triple>, b: seq<Triple>)
    ensures Lines(a + b) == Lines(a) + Lines(b)
  {
    if a != [] {
      assert (a + b)[0] == a[0];
      assert (a + b)[1..] == a[1..] + b;
      LinesAppend(a[1..], b);
      ConcatAssoc(Line(a[0]), Lines(a[1..]), Lines(b));
    } else {
      assert a + b == b;
    }
  }

  /** A word followed by a separator is split off as one token. */
  lemma WordThenSeparator(w: string, c: char, rest: string)
    requires w != [] && NoWhitespace(w) && IsWhitespace(c)
    ensures Tokens(w + [c] + rest) == [w] + Tokens(rest)
  {
    var s := w + [c] + rest;
    var n := WordLength(s);
    assert s[|w|] == c;
    assert forall i :: 0 <= i < |w| ==> s[i] == w[i];
    assert n == |w|;
    assert s[..n] == w;
    assert s[n..] == [c] + rest;
    assert ([c] + rest)[1..] == rest;
  }

  /** Leading separators produce no token. */
  lemma {:induction false} SkipWhitespace(w: string, s: string)
    requires AllWhitespace(w)
    ensures Tokens(w + s) == Tokens(s)
  {
    if w != [] {
      assert (w + s)[0] == w[0] && IsWhitespace(w[0]);
      assert (w + s)[1..] == w[1..] + s;
      assert AllWhitespace(w[1..]) by {
        forall i | 0 <= i < |w| - 1 ensures IsWhitespace(w[1..][i]) {
          assert w[1..][i] == w[i + 1];
        }
      }
      assert w + s != [];
      assert Tokens(w + s) == Tokens((w + s)[1..]);
      SkipWhitespace(w[1..], s);
    } else {
      assert w + s == s;
    }
  }

  lemma DigitsHaveNoWhitespace(s: string)
    requires AllDigits(s)
    ensures NoWhitespace(s)
  {
    forall i | 0 <= i < |s| ensures !IsWhitespace(s[i]) {
      assert IsDigit(s[i]);
    }
  }

  /** How a line and what follows it regroup around the separators. */
  lemma LineShape(a: string, b: string, c: string, rest: string)
    ensures a + " " + b + " " + c + "\n" + rest == a + [' '] + (b + [' '] + (c + ['\n'] + rest))
  {
  }

  /** The three words of one line are its first three tokens. */
  lemma TokensOfLine(t: Triple, rest: string)
    ensures Tokens(Line(t) + rest) == [Decimal(t.x), Decimal(t.y), Decimal(t.code)] + Tokens(rest)
  {
    var dx, dy, dc := Decimal(t.x), Decimal(t.y), Decimal(t.code);
    DigitsHaveNoWhitespace(dx);
    DigitsHaveNoWhitespace(dy);
    DigitsHaveNoWhitespace(dc);
    var r2 := dc + ['\n'] + rest;
    var r1 := dy + [' '] + r2;
    LineShape(dx, dy, dc, rest);
    WordThenSeparator(dx, ' ', r1);
    WordThenSeparator(dy, ' ', r2);
    WordThenSeparator(dc, '\n', rest);
  }

  lemma {:induction false} TokensOfLines(ts: seq<Triple>)
    ensures Tokens(Lines(ts)) == Words(ts)
  {
    if ts != [] {
      TokensOfLine(ts[0], Lines(ts[1..]));
      TokensOfLines(ts[1..]);
    }
  }

  /** Parsing a token in front of parsed tokens puts its value in front. */
  lemma ParseCons(t: string, toks: seq<string>, v: nat, vs: seq<nat>)
    requires ParseU32(t) == Some(v) && ParseAll(toks) == Some(vs)
    ensures ParseAll([t] + toks) == Some([v] + vs)
  {
    assert ([t] + toks)[0] == t;
    assert ([t] + toks)[1..] == toks;
  }

  lemma ThreeInFront<T>(a: T, b: T, c: T, rest: seq<T>)
    ensures [a, b, c] + rest == [a] + ([b] + ([c] + rest))
  {
  }

  /** The three words of a line parse to its three numbers, in front of the rest. */
  lemma ParseTriple(t: Triple, toks: seq<string>, vs: seq<nat>)
    requires t.x < U32_LIMIT && t.y < U32_LIMIT && t.code < U32_LIMIT
    requires ParseAll(toks) == Some(vs)
    ensures ParseAll([Decimal(t.x), Decimal(t.y), Decimal(t.code)] + toks) == Some([t.x, t.y, t.code] + vs)
  {
    var dx, dy, dc := Decimal(t.x), Decimal(t.y), Decimal(t.code);
    ParseDecimal(t.x);
    ParseDecimal(t.y);
    ParseDecimal(t.code);
    ParseCons(dc, toks, t.code, vs);
    ParseCons(dy, [dc] + toks, t.y, [t.code] + vs);
    ParseCons(dx, [dy] + ([dc] + toks), t.x, [t.y] + ([t.code] + vs));
    ThreeInFront(dx, dy, dc, toks);
    ThreeInFront(t.x, t.y, t.code, vs);
  }

  lemma {:induction false} ParseWords(ts: seq<Triple>)
    requires Bounded(ts)
    ensures ParseAll(Words(ts)) == Some(Flatten(ts))
  {
    if ts != [] {
      assert Bounded(ts[1..]) by {
        forall i | 0 <= i < |ts[1..]| ensures ts[1..][i] == ts[i + 1] {}
      }
      ParseWords(ts[1..]);
      ParseTriple(ts[0], Words(ts[1..]), Flatten(ts[1..]));
    }
  }

  /**
   * Reading what was written: the tokens of saved lines (after any leading
   * separators) all parse, and regroup into exactly the saved triples.
   */
  lemma DecodeLines(w: string, ts: seq<Triple>)
    requires AllWhitespace(w) && Bounded(ts)
    ensures ParseAll(Tokens(w + Lines(ts))) == Some(Flatten(ts))
    ensures Triples(Flatten(ts)) == ts
  {
    SkipWhitespace(w, Lines(ts));
    TokensOfLines(ts);
    ParseWords(ts);
    TriplesOfFlatten(ts);
  }

  /** Saved text is never the lone space the loader treats as "no painting". */
  lemma LinesNotSpace(ts: seq<Triple>)
    ensures Lines(ts) != " "
  {
    if ts != [] {
      assert |Lines(ts)| >= |Line(ts[0])| >= 6;
    }
  }
}
