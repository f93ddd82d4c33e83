/**
 * `numberToEmoji` (f.js and c.js): the decimal text of a number with every
 * digit replaced by its keycap glyph (the digit, VARIATION SELECTOR-16 and
 * COMBINING ENCLOSING KEYCAP) and every other character, such as a minus
 * sign, passed through.
 */
module Emoji {
  import opened Text
  import opened NumParse

  const VS16: char := '\U{FE0F}'
  const ENCLOSING_KEYCAP: char := '\U{20E3}'

  /** `mapping[ch] || ch` for one character. */
  function Keycap(c: char): string {
    if IsDigit(c) then [c, VS16, ENCLOSING_KEYCAP] else [c]
  }

  /** The per-character map `s.split('').map(...).join('')`. */
  function Keycaps(s: string): (r: string)
    ensures forall i :: 0 <= i < |r| ==> r[i] in s || r[i] == VS16 || r[i] == ENCLOSING_KEYCAP
  {
    if s == [] then [] else Keycap(s[0]) + Keycaps(s[1..])
  }

  /** `numberToEmoji`: each digit of the decimal text as its keycap glyph; the glyphs read back as that text. */
  function NumberToEmoji(n: int): (e: string)
    ensures Unkeycap(e) == IntToString(n)
  {
    UnkeycapKeycaps(IntToString(n));
    Keycaps(IntToString(n))
  }

  /** Reads keycap glyphs back into digits; any other character stands for itself. */
  function Unkeycap(t: string): string
  {
    if t == [] then []
    else if IsDigit(t[0]) && |t| >= 3 && t[1] == VS16 && t[2] == ENCLOSING_KEYCAP then [t[0]] + Unkeycap(t[3..])
    else [t[0]] + Unkeycap(t[1..])
  }

  /** The keycap map is per character: it distributes over concatenation. */
  lemma {:induction false} KeycapsAppend(a: string, b: string)
    ensures Keycaps(a + b) == Keycaps(a) + Keycaps(b)
  {
    if a == [] {
      assert a + b == b;
    } else {
      assert (a + b)[1..] == a[1..] + b;
      KeycapsAppend(a[1..], b);
    }
  }

  /** Text without digits is left unchanged. */
  lemma {:induction false} KeycapsWithoutDigits(s: string)
    requires forall i :: 0 <= i < |s| ==> !IsDigit(s[i])
    ensures Keycaps(s) == s
  {
    if s != [] {
      KeycapsWithoutDigits(s[1..]);
      assert [s[0]] + s[1..] == s;
    }
  }

  /** Every character of the input is recoverable from the glyph text. */
  lemma {:induction false} UnkeycapKeycaps(s: string)
    ensures Unkeycap(Keycaps(s)) == s
  {
    if s != [] {
      var t := Keycaps(s);
      UnkeycapKeycaps(s[1..]);
      if IsDigit(s[0]) {
        assert t[3..] == Keycaps(s[1..]);
      } else {
        assert t[1..] == Keycaps(s[1..]);
      }
      assert [s[0]] + s[1..] == s;
    }
  }

  lemma KeycapsInjective(s1: string, s2: string)
    requires Keycaps(s1) == Keycaps(s2)
    ensures s1 == s2
  {
    UnkeycapKeycaps(s1);
    UnkeycapKeycaps(s2);
  }

  /** Distinct numbers get distinct glyph texts. */
  lemma NumberToEmojiInjective(m: int, n: int)
    requires NumberToEmoji(m) == NumberToEmoji(n)
    ensures m == n
  {
    KeycapsInjective(IntToString(m), IntToString(n));
    IntToStringInjective(m, n);
  }

  /** A negative number keeps its minus sign in front of the glyphs of its magnitude. */
  lemma NumberToEmojiNegative(n: int)
    requires n < 0
    ensures NumberToEmoji(n) == "-" + Keycaps(NatToString(-n))
  {
    KeycapsAppend("-", NatToString(-n));
    assert Keycaps("-") == "-" by {
      KeycapsWithoutDigits("-");
    }
  }
}
