/**
 * Page arithmetic shared by all four bots: where a block of BLOCK_SIZE links
 * ends, the consecutive blocks a sweep walks through, the Next/Prev start
 * indices and the `<prefix><n>` callback tokens that carry them, and how a
 * pressed token is read back into a start index.
 */
module Paging {
  import opened Wrappers
  import opened Text
  import opened NumParse
  import opened Messages

  const BLOCK_SIZE: int := 100
  /** DEFAULT_MAX in f.js and c.js, MAX_LINK in b.js and bbc.py. */
  const DEFAULT_MAX: int := 100000

  const DEFAULT_PREFIX := "default_paginated_"
  const JACK_PREFIX := "jack_"

  function Min(a: int, b: int): int { if a <= b then a else b }
  function Max(a: int, b: int): int { if a >= b then a else b }

  /** `Math.min(start + BLOCK_SIZE - 1, bound)`: the last index of the block starting at `start`. */
  function BlockEnd(start: int, bound: int): (e: int)
    ensures e <= bound && e < start + BLOCK_SIZE
    ensures e == bound || e == start + BLOCK_SIZE - 1
  {
    Min(start + BLOCK_SIZE - 1, bound)
  }

  // ---------------------------------------------------------------------------
  // The blocks of a sweep: `for (start = 1; start <= bound; start += BLOCK_SIZE)`.

  datatype Range = Range(lo: int, hi: int)

  /** Number of iterations of the sweep loop: ceil(bound / BLOCK_SIZE), none for bound < 1. */
  function Count(bound: int): nat {
    if bound < 1 then 0 else (bound - 1) / BLOCK_SIZE + 1
  }

  /** The k-th block of a sweep up to `bound`. */
  function RangeAt(bound: int, k: nat): Range {
    var lo := 1 + k * BLOCK_SIZE;
    Range(lo, BlockEnd(lo, bound))
  }

  /** Index of the block that holds link `i`. */
  function BlockOf(i: int): int {
    (i - 1) / BLOCK_SIZE
  }

  function Ranges(bound: int): seq<Range> {
    seq(Count(bound), k requires 0 <= k => RangeAt(bound, k))
  }

  /** The loop runs exactly while its start index is within the bound. */
  lemma LoopGuard(bound: int, k: nat)
    ensures 1 + k * BLOCK_SIZE <= bound <==> k < Count(bound)
  {
    if bound >= 1 {
      var q := (bound - 1) / BLOCK_SIZE;
      assert q * BLOCK_SIZE <= bound - 1 < (q + 1) * BLOCK_SIZE;
      if k <= q {
        assert k * BLOCK_SIZE <= q * BLOCK_SIZE;
      } else {
        assert k * BLOCK_SIZE >= (q + 1) * BLOCK_SIZE;
      }
    }
  }

  /**
   * The sweep's blocks partition 1..bound: ceil(bound / BLOCK_SIZE) of them,
   * each non-empty and at most BLOCK_SIZE long, in increasing order, each
   * starting right after the previous one ends, from 1 to exactly `bound`;
   * every link 1..bound lies in block BlockOf(i), and in no other.
   */
  lemma RangesPartition(bound: int)
    ensures var rs := Ranges(bound);
      && (bound < 1 ==> rs == [])
      && (bound >= 1 ==> (|rs| - 1) * BLOCK_SIZE < bound <= |rs| * BLOCK_SIZE)
      && (forall k :: 0 <= k < |rs| ==> 1 <= rs[k].lo <= rs[k].hi <= bound && rs[k].hi - rs[k].lo < BLOCK_SIZE)
      && (forall k :: 0 < k < |rs| ==> rs[k].lo == rs[k - 1].hi + 1)
      && (|rs| > 0 ==> rs[0].lo == 1 && rs[|rs| - 1].hi == bound)
      && (forall j, k :: 0 <= j < k < |rs| ==> rs[j].hi < rs[k].lo)
      && (forall i :: 1 <= i <= bound ==> BlockOf(i) < |rs| && rs[BlockOf(i)].lo <= i <= rs[BlockOf(i)].hi)
  {
    var rs := Ranges(bound);
    var n := Count(bound);
    forall k | 0 <= k < n
      ensures 1 <= rs[k].lo <= rs[k].hi <= bound && rs[k].hi - rs[k].lo < BLOCK_SIZE
      ensures rs[k].hi == bound || rs[k].hi == rs[k].lo + BLOCK_SIZE - 1
    {
      LoopGuard(bound, k);
    }
    if bound >= 1 {
      LoopGuard(bound, n - 1);
      LoopGuard(bound, n);
      assert rs[n - 1].hi == bound;
    }
    forall j, k | 0 <= j < k < n ensures rs[j].hi < rs[k].lo {
      assert rs[j].hi <= 1 + j * BLOCK_SIZE + BLOCK_SIZE - 1;
      assert (j + 1) * BLOCK_SIZE <= k * BLOCK_SIZE;
    }
    forall k | 0 < k < n ensures rs[k].lo == rs[k - 1].hi + 1 {
      LoopGuard(bound, k);
    }
    forall i | 1 <= i <= bound ensures BlockOf(i) < n && rs[BlockOf(i)].lo <= i <= rs[BlockOf(i)].hi {
      LoopGuard(bound, BlockOf(i));
    }
  }

  /** The sweep of 250 links sends the blocks 1-100, 101-200, 201-250. */
  lemma RangesOf250()
    ensures Ranges(250) == [Range(1, 100), Range(101, 200), Range(201, 250)]
  {
    assert Count(250) == 3;
  }

  // ---------------------------------------------------------------------------
  // Navigation buttons.

  /** Start of the next page, present only while this page ends before `bound`. */
  function NextStart(start: int, bound: int): (r: Option<int>)
    ensures r.Some? <==> start + BLOCK_SIZE - 1 < bound
    ensures r.Some? ==> r.value == start + BLOCK_SIZE && r.value <= bound
  {
    var end := BlockEnd(start, bound);
    if end < bound then Some(end + 1) else None
  }

  /** Start of the previous page, present only after the first index: `Math.max(1, start - BLOCK_SIZE)`. */
  function PrevStart(start: int): (r: Option<int>)
    ensures r.Some? <==> start > 1
    ensures r.Some? ==> 1 <= r.value < start && start - r.value <= BLOCK_SIZE
    ensures r.Some? ==> r.value == 1 || r.value == start - BLOCK_SIZE
  {
    if start > 1 then Some(Max(1, start - BLOCK_SIZE)) else None
  }

  function Token(prefix: string, n: int): string {
    prefix + IntToString(n)
  }

  /** `buttons.push(Next)` then `buttons.push(Prev)`, each when it applies. */
  function NavButtons(prefix: string, start: int, bound: int): (bs: seq<Button>)
    ensures |bs| <= 2
    ensures forall b :: b in bs ==> prefix <= b.data
  {
    (match NextStart(start, bound) case Some(n) => [Button("Next", Token(prefix, n))] case None => [])
    + (match PrevStart(start) case Some(p) => [Button("Prev", Token(prefix, p))] case None => [])
  }

  /**
   * Next appears exactly when the page ends before the bound, Prev exactly
   * when the page starts after index 1, in that order, and each carries the
   * token of the page it leads to.
   */
  lemma NavButtonsShape(prefix: string, start: int, bound: int)
    ensures var bs := NavButtons(prefix, start, bound); var end := BlockEnd(start, bound);
      && |bs| == (if end < bound then 1 else 0) + (if start > 1 then 1 else 0)
      && (end < bound ==> bs[0] == Button("Next", prefix + IntToString(end + 1)))
      && (start > 1 ==> bs[|bs| - 1] == Button("Prev", prefix + IntToString(Max(1, start - BLOCK_SIZE))))
      && (forall b :: b in bs ==> b.text == "Next" || b.text == "Prev")
  {
  }

  /** Next then Prev returns to a page that started at 1 or later. */
  lemma PrevUndoesNext(start: int, bound: int)
    requires start >= 1 && NextStart(start, bound).Some?
    ensures PrevStart(NextStart(start, bound).value) == Some(start)
  {
  }

  /** Prev then Next returns to the page, except when Prev was clamped to page 1. */
  lemma NextUndoesPrev(start: int, bound: int)
    requires BLOCK_SIZE < start <= bound
    ensures NextStart(PrevStart(start).value, bound) == Some(start)
  {
  }

  /** Pressing Next from page 1 visits exactly the blocks of a sweep, in order. */
  lemma NextWalksSweep(bound: int, k: nat)
    requires k < Count(bound)
    ensures BlockEnd(RangeAt(bound, k).lo, bound) == RangeAt(bound, k).hi
    ensures NextStart(RangeAt(bound, k).lo, bound)
         == if k + 1 < Count(bound) then Some(RangeAt(bound, k + 1).lo) else None
  {
    LoopGuard(bound, k);
    LoopGuard(bound, k + 1);
  }

  // ---------------------------------------------------------------------------
  // Reading a pressed token back.

  /** `parseInt(data.split("_")[index], 10)`, NaN replaced by 1 (`parseInt(undefined)` is NaN). */
  function JsTokenStart(data: string, index: nat): int
  {
    var parts := Split(data, '_');
    if index < |parts| then
      match JsParseInt(parts[index]) case Some(n) => n case None => 1
    else 1
  }

  /** `int(data.split("_")[index])`, IndexError and ValueError replaced by 1. */
  function PyTokenStart(data: string, index: nat): int
  {
    var parts := Split(data, '_');
    if index < |parts| then
      match PyInt(parts[index]) case Some(n) => n case None => 1
    else 1
  }

  /**
   * The page b.js and f.js read from a token: when the piece at `index`
   * exists and has a digit after its leading whitespace and sign, the signed
   * value of that digit run; otherwise (a missing piece or NaN) page 1.
   */
  lemma JsTokenStartReadsDigitRun(data: string, index: nat)
    ensures var parts := Split(data, '_');
      && (index >= |parts| ==> JsTokenStart(data, index) == 1)
      && (index < |parts| ==>
            var (negative, u) := SignOf(TrimStart(parts[index], JsSpace));
            && (u == [] || !IsDigit(u[0]) ==> JsTokenStart(data, index) == 1)
            && (u != [] && IsDigit(u[0]) ==>
                  JsTokenStart(data, index) == Signed(negative, DigitsValue(DigitPrefix(u)))))
  {
    var parts := Split(data, '_');
    if index < |parts| {
      JsParseIntReadsDigitRun(parts[index]);
    }
  }

  /**
   * The page bbc.py reads from a token: when the piece at `index` exists and,
   * stripped of whitespace and sign, is a decimal literal with underscores
   * only between digits, its signed value; otherwise (IndexError or
   * ValueError) page 1.
   */
  lemma PyTokenStartReadsLiteral(data: string, index: nat)
    ensures var parts := Split(data, '_');
      && (index >= |parts| ==> PyTokenStart(data, index) == 1)
      && (index < |parts| ==>
            var (negative, u) := SignOf(TrimEnd(TrimStart(parts[index], PySpace), PySpace));
            && (u == [] || !UnderscoresBetweenDigits(u) ==> PyTokenStart(data, index) == 1)
            && (u != [] && UnderscoresBetweenDigits(u) ==>
                  AllDigits(WithoutUnderscores(u))
                  && PyTokenStart(data, index) == Signed(negative, DigitsValue(WithoutUnderscores(u)))))
  {
    var parts := Split(data, '_');
    if index < |parts| {
      PyIntAcceptsLiterals(parts[index]);
    }
  }

  lemma DefaultPrefixPieces(t: string)
    ensures Split(DEFAULT_PREFIX + t, '_') == ["default", "paginated"] + Split(t, '_')
  {
    assert DEFAULT_PREFIX == "default" + ['_'] + "paginated" + ['_'];
    SplitAfterTwoPieces("default", "paginated", t, '_');
  }

  lemma JackPrefixPieces(t: string)
    ensures Split(JACK_PREFIX + t, '_') == ["jack"] + Split(t, '_')
  {
    assert JACK_PREFIX + t == "jack" + ['_'] + t;
    SplitAfterPiece("jack", t, '_');
  }

  /**
   * A `default_paginated_` token always has a third piece: the text after the
   * prefix up to the next `_`; so `split("_")[2]` is never undefined.
   */
  lemma DefaultTokenPiece(data: string)
    requires DEFAULT_PREFIX <= data
    ensures |Split(data, '_')| >= 3
    ensures Split(data, '_')[2] == Split(data[|DEFAULT_PREFIX|..], '_')[0]
  {
    assert data == DEFAULT_PREFIX + data[|DEFAULT_PREFIX|..];
    DefaultPrefixPieces(data[|DEFAULT_PREFIX|..]);
  }

  /** A `jack_` token always has a second piece, so bbc.py's IndexError cannot happen. */
  lemma JackTokenPiece(data: string)
    requires JACK_PREFIX <= data
    ensures |Split(data, '_')| >= 2
    ensures Split(data, '_')[1] == Split(data[|JACK_PREFIX|..], '_')[0]
  {
    assert data == JACK_PREFIX + data[|JACK_PREFIX|..];
    JackPrefixPieces(data[|JACK_PREFIX|..]);
  }

  /** The number a `default_paginated_` button carries is the number read back. */
  lemma DefaultTokenRoundTrip(n: int)
    ensures JsTokenStart(Token(DEFAULT_PREFIX, n), 2) == n
  {
    DefaultPrefixPieces(IntToString(n));
    SplitWithoutSeparator(IntToString(n), '_');
    JsParseIntOfIntToString(n);
  }

  /** The number a `jack_` button carries is read back by both b.js and bbc.py. */
  lemma JackTokenRoundTrip(n: int)
    ensures JsTokenStart(Token(JACK_PREFIX, n), 1) == n
    ensures PyTokenStart(Token(JACK_PREFIX, n), 1) == n
  {
    JackPrefixPieces(IntToString(n));
    SplitWithoutSeparator(IntToString(n), '_');
    JsParseIntOfIntToString(n);
    PyIntOfIntToString(n);
  }

  /** Every `jack_` navigation button starts with the prefix and reads back, in both bots, as the page it leads to. */
  lemma JackButtonTargets(start: int, bound: int)
    ensures forall b :: b in NavButtons(JACK_PREFIX, start, bound) ==>
      var target := if b.text == "Next" then BlockEnd(start, bound) + 1 else Max(1, start - BLOCK_SIZE);
      && JACK_PREFIX <= b.data
      && JsTokenStart(b.data, 1) == target
      && PyTokenStart(b.data, 1) == target
  {
    var next := BlockEnd(start, bound) + 1;
    var prev := Max(1, start - BLOCK_SIZE);
    NavButtonsShape(JACK_PREFIX, start, bound);
    JackTokenRoundTrip(next);
    JackTokenRoundTrip(prev);
  }

  /** Only NaN falls back to 1: a negative start passes through unchanged. */
  lemma NegativeTokenPassesThrough()
    ensures JsTokenStart("default_paginated_-5", 2) == -5
  {
    DefaultTokenRoundTrip(-5);
    assert Token(DEFAULT_PREFIX, -5) == "default_paginated_-5";
  }

  /** Text with no leading digits is NaN for parseInt and decodes to page 1. */
  lemma NonNumericTokenIsPageOne()
    ensures DEFAULT_PREFIX <= "default_paginated_abc"
    ensures JsTokenStart("default_paginated_abc", 2) == 1
  {
    assert "default_paginated_abc" == DEFAULT_PREFIX + "abc";
    DefaultPrefixPieces("abc");
    SplitWithoutSeparator("abc", '_');
    LettersAreNotANumber();
  }

  /** parseInt reads the digit prefix of `12x`, while bbc.py's int() rejects it and falls back to 1. */
  lemma TrailingTextToken()
    ensures JsTokenStart("jack_12x", 1) == 12
    ensures PyTokenStart("jack_12x", 1) == 1
  {
    JackPrefixPieces("12x");
    assert "jack_12x" == JACK_PREFIX + "12x";
    SplitWithoutSeparator("12x", '_');
    ParsersDisagreeOnTrailingText();
  }
}
