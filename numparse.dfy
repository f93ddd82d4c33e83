/**
 * The two integer parsers the bots apply to user text and button tokens:
 * JavaScript `parseInt(s, 10)`, which reads the longest digit prefix and yields
 * NaN only when there is none, and Python `int(s)`, which accepts only a whole
 * (whitespace-padded) decimal literal and raises ValueError otherwise.
 * `None` stands for NaN and for ValueError respectively.
 */
module NumParse {
  import opened Wrappers
  import opened Text

  /** The longest prefix of `s` made of decimal digits. */
  function DigitPrefix(s: string): (r: string)
    ensures r <= s && AllDigits(r)
    ensures |r| == |s| || !IsDigit(s[|r|])
  {
    if s == [] || !IsDigit(s[0]) then [] else [s[0]] + DigitPrefix(s[1..])
  }

  /** A leading `-` or `+`, if any, split off the text that follows it. */
  function SignOf(t: string): (bool, string)
  {
    if t != [] && t[0] == '-' then (true, t[1..])
    else if t != [] && t[0] == '+' then (false, t[1..])
    else (false, t)
  }

  function Signed(negative: bool, v: nat): int {
    var x: int := v;
    if negative then -x else x
  }

  /**
   * `parseInt(s, 10)`: after leading whitespace and an optional sign, the
   * longest run of digits, negated after a `-`; `None` is NaN, which comes
   * exactly when no digit follows the whitespace and the sign.
   */
  function JsParseInt(s: string): Option<int>
  {
    var (negative, u) := SignOf(TrimStart(s, JsSpace));
    var ds := DigitPrefix(u);
    if ds == [] then None else Some(Signed(negative, DigitsValue(ds)))
  }

  /**
   * The body of a Python decimal literal as `int()` reads it: digits, with
   * single underscores allowed between digits (leading zeros are allowed).
   */
  predicate PyDigits(u: string): (b: bool)
    ensures b ==> forall i :: 0 <= i < |u| ==> IsDigit(u[i]) || u[i] == '_'
    ensures AllDigits(u) && u != [] ==> b
  {
    && u != []
    && IsDigit(u[0])
    && (|u| == 1 || if u[1] == '_' then PyDigits(u[2..]) else PyDigits(u[1..]))
  }

  /** Every underscore sits between two digits, and everything else is a digit. */
  predicate UnderscoresBetweenDigits(u: string) {
    forall i {:trigger u[i]} :: 0 <= i < |u| ==>
      IsDigit(u[i]) || (u[i] == '_' && 0 < i < |u| - 1 && IsDigit(u[i - 1]) && IsDigit(u[i + 1]))
  }

  /** `PyDigits` accepts exactly the non-empty texts whose underscores each sit between two digits. */
  lemma {:induction false} PyDigitsMeansUnderscoresBetweenDigits(u: string)
    ensures PyDigits(u) <==> u != [] && UnderscoresBetweenDigits(u)
  {
    if |u| == 1 {
      if UnderscoresBetweenDigits(u) {
        DigitOrBetween(u, 0);
      }
      if IsDigit(u[0]) {
        assert forall i :: 0 <= i < |u| ==> u[i] == u[0];
      }
    } else if |u| >= 2 {
      var k := if u[1] == '_' then 2 else 1;
      var v := u[k..];
      PyDigitsMeansUnderscoresBetweenDigits(v);
      if UnderscoresBetweenDigits(u) {
        DigitOrBetween(u, 0);
        if k == 2 {
          DigitOrBetween(u, 1);
        }
        forall i | 0 <= i < |v|
          ensures IsDigit(v[i]) || (v[i] == '_' && 0 < i < |v| - 1 && IsDigit(v[i - 1]) && IsDigit(v[i + 1]))
        {
          DigitOrBetween(u, i + k);
        }
        assert UnderscoresBetweenDigits(v);
      }
      if IsDigit(u[0]) && v != [] && UnderscoresBetweenDigits(v) {
        forall j | 0 <= j < |u|
          ensures IsDigit(u[j]) || (u[j] == '_' && 0 < j < |u| - 1 && IsDigit(u[j - 1]) && IsDigit(u[j + 1]))
        {
          if j >= k {
            DigitOrBetween(v, j - k);
            if u[j] == '_' {
              assert u[j + 1] == v[j - k + 1];
              assert u[j - 1] == v[j - k - 1];
            }
          } else if j == 1 {
            DigitOrBetween(v, 0);
          }
        }
        assert UnderscoresBetweenDigits(u);
      }
    }
  }

  lemma DigitOrBetween(u: string, i: int)
    requires UnderscoresBetweenDigits(u) && 0 <= i < |u|
    ensures IsDigit(u[i]) || (u[i] == '_' && 0 < i < |u| - 1 && IsDigit(u[i - 1]) && IsDigit(u[i + 1]))
  {
  }

  function WithoutUnderscores(u: string): (r: string)
    ensures (forall i :: 0 <= i < |u| ==> IsDigit(u[i]) || u[i] == '_') ==> AllDigits(r)
    ensures '_' !in u ==> r == u
  {
    if u == [] then []
    else (if u[0] == '_' then [] else [u[0]]) + WithoutUnderscores(u[1..])
  }

  /** Number of underscores in `u`. */
  function Underscores(u: string): nat {
    multiset(u)['_']
  }

  /**
   * `WithoutUnderscores` drops every underscore and keeps every other
   * character, in order: the character at position `k` moves back by the
   * number of underscores before it.
   */
  lemma WithoutUnderscoresKeepsTheRest(u: string)
    ensures var r := WithoutUnderscores(u);
      && '_' !in r
      && |r| == |u| - Underscores(u)
      && forall k :: 0 <= k < |u| && u[k] != '_' ==>
        k - Underscores(u[..k]) < |r| && r[k - Underscores(u[..k])] == u[k]
  {
    WithoutUnderscoresCounts(u);
    WithoutUnderscoresPlaces(u);
  }

  lemma {:induction false} WithoutUnderscoresCounts(u: string)
    ensures '_' !in WithoutUnderscores(u)
    ensures |WithoutUnderscores(u)| == |u| - Underscores(u)
  {
    if u != [] {
      WithoutUnderscoresCounts(u[1..]);
      assert u == [u[0]] + u[1..];
      assert multiset(u) == multiset([u[0]]) + multiset(u[1..]);
    }
  }

  lemma {:induction false} WithoutUnderscoresPlaces(u: string)
    ensures forall k :: 0 <= k < |u| && u[k] != '_' ==>
      k - Underscores(u[..k]) < |WithoutUnderscores(u)|
      && WithoutUnderscores(u)[k - Underscores(u[..k])] == u[k]
  {
    if u != [] {
      var head := if u[0] == '_' then [] else [u[0]];
      var tail := u[1..];
      var rest := WithoutUnderscores(tail);
      WithoutUnderscoresPlaces(tail);
      assert WithoutUnderscores(u) == head + rest;
      forall k | 0 <= k < |u| && u[k] != '_'
        ensures k - Underscores(u[..k]) < |head + rest|
        ensures (head + rest)[k - Underscores(u[..k])] == u[k]
      {
        if k == 0 {
          assert u[..0] == [];
        } else {
          UnderscoresBefore(u, k);
          assert u[k] == tail[k - 1];
        }
      }
    }
  }

  /** The underscores before position `k` are the head's and the tail's. */
  lemma UnderscoresBefore(u: string, k: int)
    requires 0 < k <= |u|
    ensures Underscores(u[..k]) == (if u[0] == '_' then 1 else 0) + Underscores(u[1..][..k - 1])
  {
    assert u[..k] == [u[0]] + u[1..][..k - 1];
    assert multiset(u[..k]) == multiset([u[0]]) + multiset(u[1..][..k - 1]);
  }

  /**
   * Python `int(s)`: the whole text, less surrounding whitespace, must be an
   * optional sign and a decimal literal; `None` is the ValueError it raises.
   */
  function PyInt(s: string): Option<int>
  {
    var (negative, u) := SignOf(TrimEnd(TrimStart(s, PySpace), PySpace));
    if PyDigits(u) then Some(Signed(negative, DigitsValue(WithoutUnderscores(u)))) else None
  }

  /**
   * `parseInt` yields NaN exactly when no digit follows the whitespace and
   * the sign, and otherwise reads the longest run of digits there.
   */
  lemma JsParseIntReadsDigitRun(s: string)
    ensures var (negative, u) := SignOf(TrimStart(s, JsSpace));
      && (JsParseInt(s).None? <==> u == [] || !IsDigit(u[0]))
      && (JsParseInt(s).Some? ==> JsParseInt(s).value == Signed(negative, DigitsValue(DigitPrefix(u))))
  {
    var (negative, u) := SignOf(TrimStart(s, JsSpace));
    assert DigitPrefix(u) == [] <==> u == [] || !IsDigit(u[0]);
  }

  /**
   * `int()` accepts exactly a non-empty body whose underscores each sit
   * between two digits, and reads it as the number its digits spell.
   */
  lemma PyIntAcceptsLiterals(s: string)
    ensures var (negative, u) := SignOf(TrimEnd(TrimStart(s, PySpace), PySpace));
      && (PyInt(s).Some? <==> u != [] && UnderscoresBetweenDigits(u))
      && (PyInt(s).Some? ==> PyInt(s).value == Signed(negative, DigitsValue(WithoutUnderscores(u))))
  {
    var (negative, u) := SignOf(TrimEnd(TrimStart(s, PySpace), PySpace));
    PyDigitsMeansUnderscoresBetweenDigits(u);
  }

  // ---------------------------------------------------------------------------

  lemma DigitPrefixOfDigits(x: string, y: string)
    requires AllDigits(x)
    requires y != [] ==> !IsDigit(y[0])
    ensures DigitPrefix(x + y) == x
  {
    if x != [] {
      assert (x + y)[1..] == x[1..] + y;
      DigitPrefixOfDigits(x[1..], y);
    } else {
      assert x + y == y;
    }
  }

  lemma SignOfIntToString(n: int)
    ensures SignOf(IntToString(n)) == (n < 0, NatToString(if n < 0 then -n else n))
  {
    var s := IntToString(n);
    if n < 0 {
      assert s[1..] == NatToString(-n);
    } else {
      assert IsDigit(s[0]);
    }
  }

  /** `parseInt` reads back every integer's decimal text. */
  lemma JsParseIntOfIntToString(n: int)
    ensures JsParseInt(IntToString(n)) == Some(n)
  {
    var s := IntToString(n);
    var m: nat := if n < 0 then -n else n;
    var ds := NatToString(m);
    IntToStringIsUnpadded(n);
    SignOfIntToString(n);
    assert ds + [] == ds;
    JsParseIntParts(s, n < 0, ds, []);
    DigitsValueOfNatToString(m);
  }

  /** Decimal text starts with no JavaScript whitespace for `parseInt` to skip. */
  lemma IntToStringIsUnpadded(n: int)
    ensures TrimStart(IntToString(n), JsSpace) == IntToString(n)
  {
    var s := IntToString(n);
    SpacesAreNotDigits();
    assert IsDigit(s[0]) || s[0] == '-';
  }

  /** Decimal text has no surrounding whitespace for `strip()` to remove. */
  lemma IntToStringIsStripped(n: int)
    ensures var s := IntToString(n); TrimEnd(TrimStart(s, PySpace), PySpace) == s
  {
    var s := IntToString(n);
    TrimStartOfPadded([], s, PySpace);
    assert [] + s == s;
    assert !PySpace(s[|s| - 1]);
  }

  /** Digits have no underscores for `int()` to drop. */
  lemma DigitsWithoutUnderscores(ds: string)
    requires AllDigits(ds)
    ensures WithoutUnderscores(ds) == ds
  {
    assert '_' !in ds by {
      forall i | 0 <= i < |ds| ensures ds[i] != '_' {
        assert IsDigit(ds[i]);
      }
    }
  }

  /** `int()` reads back every integer's decimal text. */
  lemma PyIntOfIntToString(n: int)
    ensures PyInt(IntToString(n)) == Some(n)
  {
    var m: nat := if n < 0 then -n else n;
    var ds := NatToString(m);
    var s := IntToString(n);
    IntToStringIsStripped(n);
    SignOfIntToString(n);
    assert SignOf(TrimEnd(TrimStart(s, PySpace), PySpace)) == (n < 0, ds);
    assert PyDigits(ds);
    DigitsWithoutUnderscores(ds);
    DigitsValueOfNatToString(m);
  }

  /** Distinct integers have distinct decimal texts. */
  lemma IntToStringInjective(m: int, n: int)
    requires IntToString(m) == IntToString(n)
    ensures m == n
  {
    JsParseIntOfIntToString(m);
    JsParseIntOfIntToString(n);
  }

  lemma SignOfExtended(t: string, rest: string)
    requires t != []
    ensures SignOf(t + rest).0 == SignOf(t).0
    ensures SignOf(t + rest).1 == SignOf(t).1 + rest
  {
    assert (t + rest)[0] == t[0];
    assert (t + rest)[1..] == t[1..] + rest;
  }

  /** Every character of `s` that is `narrow` whitespace is also `wide` whitespace. */
  predicate SpaceWithin(s: string, narrow: char -> bool, wide: char -> bool) {
    forall i :: 0 <= i < |s| ==> narrow(s[i]) ==> wide(s[i])
  }

  /** Where `int()` starts reading (after Python whitespace), `parseInt` starts too. */
  lemma {:induction false} SameStart(s: string, narrow: char -> bool, wide: char -> bool)
    requires SpaceWithin(s, narrow, wide)
    requires TrimStart(s, narrow) != [] && !wide(TrimStart(s, narrow)[0])
    ensures TrimStart(s, wide) == TrimStart(s, narrow)
  {
    if s != [] && narrow(s[0]) {
      assert wide(s[0]);
      assert forall i :: 0 <= i < |s[1..]| ==> s[1..][i] == s[i + 1];
      SameStart(s[1..], narrow, wide);
    }
  }

  /**
   * `int()` is the stricter parser: on text without underscores, and whose
   * Python whitespace is also JavaScript whitespace, whatever `int()` accepts
   * `parseInt` reads to the same value.
   */
  lemma PyIntAcceptedImpliesJsAgrees(s: string)
    requires '_' !in s
    requires SpaceWithin(s, PySpace, JsSpace)
    requires PyInt(s).Some?
    ensures JsParseInt(s) == PyInt(s)
  {
    var a := TrimStart(s, PySpace);
    var t := TrimEnd(a, PySpace);
    var (negative, u) := SignOf(t);
    PyIntParts(s);
    SpacesAreNotDigits();
    AgreeingLayout(s, PySpace, JsSpace);
    DigitsWithoutUnderscores(u);
    JsParseIntParts(s, negative, u, a[|t|..]);
  }

  /** Neither kind of whitespace is a digit or a sign. */
  lemma SpacesAreNotDigits()
    ensures forall c :: PySpace(c) ==> !IsDigit(c)
    ensures forall c :: JsSpace(c) ==> !IsDigit(c) && c != '-' && c != '+'
  {
  }

  /**
   * When `int()` accepts (with `narrow` whitespace), the text after the wider
   * whitespace and the sign is the digits `int()` read followed by text that
   * does not start with a digit.
   */
  lemma AgreeingLayout(s: string, narrow: char -> bool, wide: char -> bool)
    requires '_' !in s
    requires SpaceWithin(s, narrow, wide)
    requires forall c :: narrow(c) ==> !IsDigit(c)
    requires forall c :: wide(c) ==> !IsDigit(c) && c != '-' && c != '+'
    requires PyDigits(SignOf(TrimEnd(TrimStart(s, narrow), narrow)).1)
    ensures var a := TrimStart(s, narrow); var t := TrimEnd(a, narrow); var (negative, u) := SignOf(t);
      && |t| <= |a|
      && SignOf(TrimStart(s, wide)) == (negative, u + a[|t|..])
      && u != [] && AllDigits(u)
      && (a[|t|..] != [] ==> !IsDigit(a[|t|..][0]))
  {
    var a := TrimStart(s, narrow);
    var t := TrimEnd(a, narrow);
    var u := SignOf(t).1;
    TrimmedParts(s, narrow);
    assert !wide(a[0]) by { assert IsDigit(a[0]) || a[0] == '-' || a[0] == '+'; }
    StrictLayout(s, narrow, wide);
  }

  /** What `int()` read when it accepted. */
  lemma PyIntParts(s: string)
    requires PyInt(s).Some?
    ensures var (negative, u) := SignOf(TrimEnd(TrimStart(s, PySpace), PySpace));
      && PyDigits(u)
      && PyInt(s) == Some(Signed(negative, DigitsValue(WithoutUnderscores(u))))
  {
  }

  /** `parseInt` on text that reads, after whitespace and sign, as digits and then a non-digit. */
  lemma JsParseIntParts(s: string, negative: bool, u: string, rest: string)
    requires SignOf(TrimStart(s, JsSpace)) == (negative, u + rest)
    requires u != [] && AllDigits(u)
    requires rest != [] ==> !IsDigit(rest[0])
    ensures JsParseInt(s) == Some(Signed(negative, DigitsValue(u)))
  {
    DigitPrefixOfDigits(u, rest);
  }

  /**
   * The shape both parsers see when `int()` accepts: what follows the narrower
   * whitespace is also what follows the wider one, and after the sign come
   * the digits `int()` read, then only whitespace.
   */
  lemma StrictLayout(s: string, narrow: char -> bool, wide: char -> bool)
    requires '_' !in s
    requires SpaceWithin(s, narrow, wide)
    requires TrimEnd(TrimStart(s, narrow), narrow) != []
    requires PyDigits(SignOf(TrimEnd(TrimStart(s, narrow), narrow)).1)
    requires !wide(TrimStart(s, narrow)[0])
    ensures var a := TrimStart(s, narrow); var t := TrimEnd(a, narrow);
      && TrimStart(s, wide) == a
      && SignOf(a) == (SignOf(t).0, SignOf(t).1 + a[|t|..])
      && AllDigits(SignOf(t).1)
  {
    var a := TrimStart(s, narrow);
    var t := TrimEnd(a, narrow);
    var u := SignOf(t).1;
    assert AllDigits(u) by {
      assert '_' !in a by { TrimStartIsSuffix(s, narrow); }
      assert '_' !in t by { assert t == a[..|t|]; }
      assert '_' !in u by { assert u == t || u == t[1..]; }
      forall i | 0 <= i < |u| ensures IsDigit(u[i]) {
        assert u[i] in u;
      }
    }
    TrimmedParts(s, narrow);
    SameStart(s, narrow, wide);
    SignOfExtended(t, a[|t|..]);
  }

  /** Trimming both ends leaves a middle part `t` with whitespace only after it. */
  lemma TrimmedParts(s: string, ws: char -> bool)
    requires TrimEnd(TrimStart(s, ws), ws) != []
    ensures var a := TrimStart(s, ws); var t := TrimEnd(a, ws);
      && a == t + a[|t|..]
      && a[0] == t[0]
      && (a[|t|..] != [] ==> ws(a[|t|..][0]))
  {
    var a := TrimStart(s, ws);
    var t := TrimEnd(a, ws);
    assert t == a[..|t|];
    assert a == a[..|t|] + a[|t|..];
    if |t| < |a| {
      assert a[|t|..][0] == a[|t|];
    }
  }

  /** parseInt finds no digits at the start of `abc`: NaN. */
  lemma LettersAreNotANumber()
    ensures JsParseInt("abc") == None
  {
    assert TrimStart("abc", JsSpace) == "abc";
    assert SignOf("abc") == (false, "abc");
    assert DigitPrefix("abc") == [];
  }

  /** The two parsers differ on a digit prefix followed by other text. */
  lemma ParsersDisagreeOnTrailingText()
    ensures JsParseInt("12x") == Some(12)
    ensures PyInt("12x") == None
  {
    assert !JsSpace('1') && !PySpace('1') && !PySpace('x');
    assert TrimStart("12x", JsSpace) == "12x";
    assert TrimStart("12x", PySpace) == "12x";
    assert TrimEnd("12x", PySpace) == "12x";
    assert SignOf("12x") == (false, "12x");
    assert DigitPrefix("x") == [];
    assert DigitPrefix("2x") == "2";
    assert DigitPrefix("12x") == "12";
    assert "12"[..1] == "1" && "1"[..0] == [];
    assert DigitsValue("12") == 12;
    assert !PyDigits("x");
    assert !PyDigits("12x") by { assert "12x"[1..] == "2x" && "2x"[1..] == "x"; }
  }

  /** trim() removes the spaces around a word. */
  lemma PaddedTextTrims()
    ensures Trim("  L  ") == "L"
  {
    TrimStartOfPadded("  ", "L  ", JsSpace);
    assert "  " + "L  " == "  L  ";
    assert TrimEnd("L  ", JsSpace) == "L";
  }
}
