/**
 * Character and string helpers shared by the four bot variants: decimal digits,
 * integer-to-text conversion (JavaScript template literals and `String(n)`,
 * Python f-strings), splitting on a one-character separator (`split("_")`),
 * joining lines (`"\n".join`), and trimming whitespace.
 */
module Text {

  predicate IsDigit(c: char) { '0' <= c <= '9' }

  function DigitValue(c: char): (d: nat)
    requires IsDigit(c)
    ensures d < 10
  {
    c as int - '0' as int
  }

  function DigitChar(d: nat): (c: char)
    requires d < 10
    ensures IsDigit(c) && DigitValue(c) == d
  {
    ('0' as int + d) as char
  }

  predicate AllDigits(s: string) {
    forall i :: 0 <= i < |s| ==> IsDigit(s[i])
  }

  /** Decimal text of a natural number, most significant digit first, no leading zeros. */
  function NatToString(n: nat): (s: string)
    ensures |s| >= 1 && AllDigits(s)
    ensures n > 0 ==> s[0] != '0'
  {
    if n < 10 then [DigitChar(n)] else NatToString(n / 10) + [DigitChar(n % 10)]
  }

  /** Decimal text of an integer: a minus sign for negative values, then the digits. */
  function IntToString(n: int): (s: string)
    ensures |s| >= 1
    ensures forall i :: 0 <= i < |s| ==> IsDigit(s[i]) || (i == 0 && s[i] == '-')
    ensures s[0] == '-' <==> n < 0
    ensures IsDigit(s[|s| - 1])
  {
    if n < 0 then "-" + NatToString(-n) else NatToString(n)
  }

  /** The decimal text of a number holds no newline. */
  lemma NumberHasNoNewline(n: int)
    ensures '\n' !in IntToString(n)
  {
    var s := IntToString(n);
    forall i | 0 <= i < |s| ensures s[i] != '\n' {
      assert IsDigit(s[i]) || s[i] == '-';
    }
  }

  /** Value of a string of decimal digits, read most significant digit first. */
  function DigitsValue(ds: string): nat
    requires AllDigits(ds)
  {
    if ds == [] then 0 else DigitsValue(ds[..|ds| - 1]) * 10 + DigitValue(ds[|ds| - 1])
  }

  lemma {:induction false} DigitsValueOfNatToString(n: nat)
    ensures DigitsValue(NatToString(n)) == n
  {
    var s := NatToString(n);
    if n >= 10 {
      assert s[..|s| - 1] == NatToString(n / 10);
      DigitsValueOfNatToString(n / 10);
    }
  }

  // ---------------------------------------------------------------------------
  // Splitting on a one-character separator and joining with it.

  /**
   * `s.split(c)` in JavaScript and in Python for a one-character separator:
   * the pieces between occurrences of `c`, in order, including empty ones.
   */
  function Split(s: string, c: char): (r: seq<string>)
    ensures |r| >= 1
    ensures forall i :: 0 <= i < |r| ==> c !in r[i]
  {
    if s == [] then [[]]
    else
      var rest := Split(s[1..], c);
      if s[0] == c then [[]] + rest else [[s[0]] + rest[0]] + rest[1..]
  }

  /** `c.join(xs)` in Python, `xs.join(c)` in JavaScript. */
  function Join(xs: seq<string>, c: char): string
  {
    if |xs| == 0 then []
    else if |xs| == 1 then xs[0]
    else xs[0] + [c] + Join(xs[1..], c)
  }

  predicate NoneContains(xs: seq<string>, c: char) {
    forall i :: 0 <= i < |xs| ==> c !in xs[i]
  }

  lemma {:induction false} SplitWithoutSeparator(a: string, c: char)
    requires c !in a
    ensures Split(a, c) == [a]
  {
    if a != [] {
      SplitWithoutSeparator(a[1..], c);
      assert [a[0]] + a[1..] == a;
    }
  }

  /** A piece free of the separator, the separator, then anything: the piece comes off first. */
  lemma {:induction false} SplitAfterPiece(a: string, b: string, c: char)
    requires c !in a
    ensures Split(a + [c] + b, c) == [a] + Split(b, c)
  {
    if a == [] {
      assert a + [c] + b == [c] + b;
      assert ([c] + b)[1..] == b;
    } else {
      assert (a + [c] + b)[1..] == a[1..] + [c] + b;
      SplitAfterPiece(a[1..], b, c);
      assert [a[0]] + a[1..] == a;
    }
  }

  /** Two separator-free pieces, each followed by the separator, come off first, in order. */
  lemma SplitAfterTwoPieces(a: string, b: string, t: string, c: char)
    requires c !in a && c !in b
    ensures Split(a + [c] + b + [c] + t, c) == [a, b] + Split(t, c)
  {
    assert a + [c] + b + [c] + t == a + [c] + (b + [c] + t);
    SplitAfterPiece(a, b + [c] + t, c);
    SplitAfterPiece(b, t, c);
  }

  /** Splitting undoes joining when no piece contains the separator. */
  lemma {:induction false} SplitJoin(xs: seq<string>, c: char)
    requires |xs| >= 1 && NoneContains(xs, c)
    ensures Split(Join(xs, c), c) == xs
  {
    if |xs| == 1 {
      SplitWithoutSeparator(xs[0], c);
    } else {
      SplitJoin(xs[1..], c);
      SplitAfterPiece(xs[0], Join(xs[1..], c), c);
      assert [xs[0]] + xs[1..] == xs;
    }
  }

  /** Joining undoes splitting: no character of the input is lost. */
  lemma {:induction false} JoinSplit(s: string, c: char)
    ensures Join(Split(s, c), c) == s
  {
    if s != [] {
      var rest := Split(s[1..], c);
      JoinSplit(s[1..], c);
      if s[0] == c {
        assert ([[]] + rest)[1..] == rest;
      } else {
        var r := [[s[0]] + rest[0]] + rest[1..];
        if |rest| > 1 {
          assert r[1..] == rest[1..];
        }
      }
    }
  }

  // ---------------------------------------------------------------------------
  // Lines each followed by a line break, as built by `text += line + "\n"`.

  function Terminated(lines: seq<string>): string
  {
    if lines == [] then [] else lines[0] + "\n" + Terminated(lines[1..])
  }

  lemma {:induction false} TerminatedSnoc(lines: seq<string>, x: string)
    ensures Terminated(lines + [x]) == Terminated(lines) + x + "\n"
  {
    if lines != [] {
      assert (lines + [x])[1..] == lines[1..] + [x];
      TerminatedSnoc(lines[1..], x);
    } else {
      assert [x][1..] == [];
    }
  }

  /** Terminating every line is joining them with an empty last piece. */
  lemma {:induction false} TerminatedIsJoin(lines: seq<string>)
    ensures Terminated(lines) == Join(lines + [""], '\n')
  {
    if lines != [] {
      assert (lines + [""])[1..] == lines[1..] + [""];
      TerminatedIsJoin(lines[1..]);
    }
  }

  // ---------------------------------------------------------------------------
  // Whitespace and trimming.

  /** JavaScript WhiteSpace and LineTerminator code points (what `trim` and `parseInt` skip). */
  predicate JsSpace(c: char) {
    c == '\t' || c == '\n' || c == '\U{B}' || c == '\U{C}' || c == '\r' || c == ' '
    || c == '\U{A0}' || c == '\U{1680}' || ('\U{2000}' <= c <= '\U{200A}')
    || c == '\U{2028}' || c == '\U{2029}' || c == '\U{202F}' || c == '\U{205F}'
    || c == '\U{3000}' || c == '\U{FEFF}'
  }

  /** Python `str.isspace` code points (what `int()` strips around its argument). */
  predicate PySpace(c: char) {
    c == '\t' || c == '\n' || c == '\U{B}' || c == '\U{C}' || c == '\r'
    || ('\U{1C}' <= c <= '\U{1F}') || c == ' ' || c == '\U{85}' || c == '\U{A0}'
    || c == '\U{1680}' || ('\U{2000}' <= c <= '\U{200A}')
    || c == '\U{2028}' || c == '\U{2029}' || c == '\U{202F}' || c == '\U{205F}'
    || c == '\U{3000}'
  }

  /** Drops the longest prefix of characters satisfying `ws`. */
  function TrimStart(s: string, ws: char -> bool): (r: string)
    ensures |r| <= |s|
    ensures forall i :: 0 <= i < |s| - |r| ==> ws(s[i])
    ensures r != [] ==> !ws(r[0])
  {
    if s != [] && ws(s[0]) then TrimStart(s[1..], ws) else s
  }

  /**
   * What `TrimStart` keeps is the tail of its input. This is a lemma rather
   * than a postcondition so that the slice equation stays out of every proof
   * that merely mentions trimmed user text.
   */
  lemma {:induction false} TrimStartIsSuffix(s: string, ws: char -> bool)
    ensures TrimStart(s, ws) == s[|s| - |TrimStart(s, ws)|..]
  {
    if s != [] && ws(s[0]) {
      TrimStartIsSuffix(s[1..], ws);
    }
  }

  /** Drops the longest suffix of characters satisfying `ws`. */
  function TrimEnd(s: string, ws: char -> bool): (r: string)
    ensures |r| <= |s| && r == s[..|r|]
    ensures forall i :: |r| <= i < |s| ==> ws(s[i])
    ensures r != [] ==> !ws(r[|r| - 1])
  {
    if s != [] && ws(s[|s| - 1]) then TrimEnd(s[..|s| - 1], ws) else s
  }

  /**
   * JavaScript `String.prototype.trim`: the middle part of the input, after
   * the leading whitespace and before the trailing whitespace, with no
   * whitespace left at either end.
   */
  function Trim(s: string): string {
    TrimEnd(TrimStart(s, JsSpace), JsSpace)
  }

  /**
   * `Trim` keeps the middle part of its input, between the leading and the
   * trailing JavaScript whitespace, and leaves no whitespace at either end.
   */
  lemma TrimKeepsMiddle(s: string)
    ensures var ws := JsSpace; var r := Trim(s); var i := |s| - |TrimStart(s, ws)|;
      && i + |r| <= |s| && r == s[i..i + |r|]
      && (forall j :: 0 <= j < i ==> ws(s[j]))
      && (forall j :: i + |r| <= j < |s| ==> ws(s[j]))
      && (r != [] ==> !ws(r[0]) && !ws(r[|r| - 1]))
  {
    TrimBoth(s, JsSpace);
  }

  lemma TrimBoth(s: string, ws: char -> bool)
    ensures var a := TrimStart(s, ws); var r := TrimEnd(a, ws); var i := |s| - |a|;
      && i + |r| <= |s| && r == s[i..i + |r|]
      && (forall j :: 0 <= j < i ==> ws(s[j]))
      && (forall j :: i + |r| <= j < |s| ==> ws(s[j]))
      && (r != [] ==> !ws(r[0]) && !ws(r[|r| - 1]))
  {
    TrimmedTailIsSpace(s, ws);
    TrimmedMiddle(s, ws);
  }

  lemma TrimmedMiddle(s: string, ws: char -> bool)
    ensures var a := TrimStart(s, ws); var r := TrimEnd(a, ws); var i := |s| - |a|;
      && i + |r| <= |s| && r == s[i..i + |r|]
      && (r != [] ==> r[0] == a[0])
  {
    TrimStartIsSuffix(s, ws);
    var a := TrimStart(s, ws);
    var r := TrimEnd(a, ws);
    var i := |s| - |a|;
    assert r == a[..|r|] && a == s[i..];
    assert r == s[i..i + |r|];
  }

  lemma TrimmedTailIsSpace(s: string, ws: char -> bool)
    ensures var a := TrimStart(s, ws); var r := TrimEnd(a, ws); var i := |s| - |a|;
      forall j :: i + |r| <= j < |s| ==> ws(s[j])
  {
    var a := TrimStart(s, ws);
    var r := TrimEnd(a, ws);
    var i := |s| - |a|;
    TrimStartIsSuffix(s, ws);
    forall j | i + |r| <= j < |s|
      ensures ws(s[j])
    {
      assert s[j] == a[j - i];
    }
  }

  lemma {:induction false} TrimStartOfPadded(w: string, a: string, ws: char -> bool)
    requires forall i :: 0 <= i < |w| ==> ws(w[i])
    requires a != [] ==> !ws(a[0])
    ensures TrimStart(w + a, ws) == a
  {
    if w != [] {
      assert (w + a)[1..] == w[1..] + a;
      TrimStartOfPadded(w[1..], a, ws);
    } else {
      assert w + a == a;
    }
  }
}
