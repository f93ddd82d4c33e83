/**
 * Turning a range of indices into message text: a header line naming the
 * range, then one line per index made from a link template. The JavaScript
 * bots build the text with `+=`, ending every line in a newline; the Python
 * bot collects the lines in a list and joins them with newlines.
 */
module Render {
  import opened Text
  import opened NumParse
  import opened Emoji
  import opened Paging

  const JACK_TEMPLATE := "http://t.me/nft/JackintheBox-"

  lemma JackTemplateIsOneLine()
    ensures '\n' !in JACK_TEMPLATE
  {
  }

  /** How the header writes the two range bounds: in decimal or through numberToEmoji. */
  datatype Numerals = Plain | Keycapped

  /** A header line: fixed text, the first index, " to ", the last index, fixed text. */
  datatype HeaderStyle = HeaderStyle(open: string, numerals: Numerals, close: string)

  /**
   * How each link line is written: the index through numberToEmoji and a space
   * first (f.js, c.js) or nothing first (b.js, bbc.py), then template and index.
   */
  datatype LineStyle = LineStyle(keycapPrefix: bool, template: string)

  function Numeral(ns: Numerals, n: int): string {
    match ns
    case Plain => IntToString(n)
    case Keycapped => NumberToEmoji(n)
  }

  function HeaderLine(h: HeaderStyle, start: int, end: int): string {
    h.open + Numeral(h.numerals, start) + " to " + Numeral(h.numerals, end) + h.close
  }

  function LinkLine(ls: LineStyle, i: int): string {
    (if ls.keycapPrefix then NumberToEmoji(i) + " " else "") + ls.template + IntToString(i)
  }

  /** The link lines for `for (i = lo; i <= hi; i++)`: none when hi < lo. */
  function Lines(ls: LineStyle, lo: int, hi: int): seq<string> {
    seq(if lo <= hi then hi - lo + 1 else 0, k requires 0 <= k => LinkLine(ls, lo + k))
  }

  /** JavaScript text: the header and every line, each followed by a newline. */
  function JsBlock(header: string, lines: seq<string>): string {
    header + "\n" + Terminated(lines)
  }

  /** Python text: `"\n".join([header] + lines)`, no newline at the end. */
  function PyBlock(header: string, lines: seq<string>): string {
    Join([header] + lines, '\n')
  }

  // ---------------------------------------------------------------------------
  // The loops that build the text.

  /** `let text = header + "\n"; for (i = lo; i <= hi; i++) text += line(i) + "\n";` */
  method RenderJsBlock(header: string, ls: LineStyle, lo: int, hi: int) returns (text: string)
    ensures text == JsBlock(header, Lines(ls, lo, hi))
  {
    text := header + "\n";
    var i := lo;
    while i <= hi
      invariant lo <= i <= Max(lo, hi + 1)
      invariant text == header + "\n" + Terminated(Lines(ls, lo, i - 1))
      decreases hi - i
    {
      LinesSnoc(ls, lo, i);
      AppendLine(header + "\n", Lines(ls, lo, i - 1), LinkLine(ls, i));
      text := text + LinkLine(ls, i) + "\n";
      i := i + 1;
    }
    if lo > hi {
      assert |Lines(ls, lo, hi)| == 0 && |Lines(ls, lo, i - 1)| == 0;
    }
  }

  /** `message_lines = [header]; for i in range(lo, hi + 1): message_lines.append(line(i))` */
  method RenderPyLines(header: string, ls: LineStyle, lo: int, hi: int) returns (lines: seq<string>)
    ensures lines == [header] + Lines(ls, lo, hi)
  {
    lines := [header];
    var i := lo;
    while i <= hi
      invariant lo <= i <= Max(lo, hi + 1)
      invariant lines == [header] + Lines(ls, lo, i - 1)
      decreases hi - i
    {
      LinesSnoc(ls, lo, i);
      lines := lines + [LinkLine(ls, i)];
      i := i + 1;
    }
    if lo > hi {
      assert |Lines(ls, lo, hi)| == 0 && |Lines(ls, lo, i - 1)| == 0;
    }
  }

  // ---------------------------------------------------------------------------
  // Properties of the lines and of the two text layouts.

  /** One `text += line + "\n"` step: the text gains the line as its last terminated line. */
  lemma AppendLine(prefix: string, lines: seq<string>, line: string)
    ensures prefix + Terminated(lines) + line + "\n" == prefix + Terminated(lines + [line])
  {
    TerminatedSnoc(lines, line);
  }

  lemma LinesSnoc(ls: LineStyle, lo: int, i: int)
    requires lo <= i
    ensures Lines(ls, lo, i) == Lines(ls, lo, i - 1) + [LinkLine(ls, i)]
  {
    assert |Lines(ls, lo, i)| == i - lo + 1;
  }

  /** Two adjacent ranges of lines make the range that spans both. */
  lemma LinesAppend(ls: LineStyle, lo: int, mid: int, hi: int)
    requires lo - 1 <= mid <= hi
    ensures Lines(ls, lo, mid) + Lines(ls, mid + 1, hi) == Lines(ls, lo, hi)
  {
    var a, b, c := Lines(ls, lo, mid), Lines(ls, mid + 1, hi), Lines(ls, lo, hi);
    assert |a + b| == |c|;
    forall k | 0 <= k < |c| ensures (a + b)[k] == c[k] {
      if k >= |a| {
        assert (a + b)[k] == b[k - |a|];
      }
    }
  }

  /** One line per index: exactly hi - lo + 1 lines (none if hi < lo), the k-th for index lo + k. */
  lemma LinesCount(ls: LineStyle, lo: int, hi: int)
    ensures |Lines(ls, lo, hi)| == Max(0, hi - lo + 1)
    ensures forall k :: 0 <= k < |Lines(ls, lo, hi)| ==> Lines(ls, lo, hi)[k] == LinkLine(ls, lo + k) && lo + k <= hi
  {
  }

  /** Without the keycap prefix a line is just template and index. */
  lemma PlainLinkLine(t: string, i: int)
    ensures LinkLine(LineStyle(false, t), i) == t + IntToString(i)
  {
    assert "" + t + IntToString(i) == t + IntToString(i);
  }

  /** A keycapped link line starts with the index's keycaps and a space: that prefix is its first space-separated piece. */
  lemma KeycapPrefixPiece(t: string, i: int)
    ensures Split(LinkLine(LineStyle(true, t), i), ' ')[0] == NumberToEmoji(i)
  {
    var e := NumberToEmoji(i);
    var rest := t + IntToString(i);
    forall j | 0 <= j < |e| ensures e[j] != ' ' {
      assert e[j] in IntToString(i) || e[j] == VS16 || e[j] == ENCLOSING_KEYCAP;
    }
    assert LinkLine(LineStyle(true, t), i) == e + [' '] + rest;
    SplitAfterPiece(e, rest, ' ');
  }

  lemma PlainLineInjective(t: string, i: int, j: int)
    requires t + IntToString(i) == t + IntToString(j)
    ensures i == j
  {
    var a, b := IntToString(i), IntToString(j);
    assert a == (t + a)[|t|..];
    assert b == (t + b)[|t|..];
    IntToStringInjective(i, j);
  }

  /** Different indices give different lines, so no link of a block is repeated. */
  lemma LinkLineInjective(ls: LineStyle, i: int, j: int)
    requires LinkLine(ls, i) == LinkLine(ls, j)
    ensures i == j
  {
    var t := ls.template;
    if ls.keycapPrefix {
      assert ls == LineStyle(true, t);
      KeycapPrefixPiece(t, i);
      KeycapPrefixPiece(t, j);
      NumberToEmojiInjective(i, j);
    } else {
      assert ls == LineStyle(false, t);
      PlainLinkLine(t, i);
      PlainLinkLine(t, j);
      PlainLineInjective(t, i, j);
    }
  }

  lemma LinesDistinct(ls: LineStyle, lo: int, hi: int)
    ensures var lines := Lines(ls, lo, hi);
      forall j, k :: 0 <= j < k < |lines| ==> lines[j] != lines[k]
  {
    var lines := Lines(ls, lo, hi);
    forall j, k | 0 <= j < k < |lines| ensures lines[j] != lines[k] {
      var a, b := LinkLine(ls, lo + j), LinkLine(ls, lo + k);
      assert lines[j] == a && lines[k] == b;
      if a == b {
        LinkLineInjective(ls, lo + j, lo + k);
      }
    }
  }

  /** With a template free of newlines, no line contains a newline. */
  lemma LinesWithoutNewline(ls: LineStyle, lo: int, hi: int)
    requires '\n' !in ls.template
    ensures NoneContains(Lines(ls, lo, hi), '\n')
  {
    var lines := Lines(ls, lo, hi);
    forall k | 0 <= k < |lines| ensures '\n' !in lines[k] {
      LineWithoutNewline(ls, lo + k);
    }
  }

  lemma LineWithoutNewline(ls: LineStyle, i: int)
    requires '\n' !in ls.template
    ensures '\n' !in LinkLine(ls, i)
  {
    var e := NumberToEmoji(i);
    var d := IntToString(i);
    NumberHasNoNewline(i);
    assert forall j :: 0 <= j < |e| ==> e[j] in d || e[j] == VS16 || e[j] == ENCLOSING_KEYCAP;
    assert '\n' !in e;
    var p := if ls.keycapPrefix then e + " " else "";
    assert '\n' !in p;
    assert LinkLine(ls, i) == p + ls.template + d;
  }

  /** The JavaScript text is the Python text with one more newline at the end. */
  lemma {:induction false} JsBlockIsPyBlockPlusNewline(header: string, lines: seq<string>)
    ensures JsBlock(header, lines) == PyBlock(header, lines) + "\n"
    decreases |lines|
  {
    if lines == [] {
    } else {
      var tail := lines[1..];
      JsBlockIsPyBlockPlusNewline(lines[0], tail);
      assert ([header] + lines)[1..] == [lines[0]] + tail;
      assert lines == [lines[0]] + tail;
    }
  }

  /** Splitting the JavaScript text at newlines gives back the header, the lines and an empty last piece. */
  lemma JsBlockSplit(header: string, lines: seq<string>)
    requires '\n' !in header && NoneContains(lines, '\n')
    ensures Split(JsBlock(header, lines), '\n') == [header] + lines + [""]
  {
    TerminatedIsJoin(lines);
    var xs := [header] + lines + [""];
    assert xs == [header] + (lines + [""]);
    assert |lines + [""]| >= 1;
    assert Join(xs, '\n') == header + "\n" + Join(lines + [""], '\n');
    assert NoneContains(xs, '\n');
    SplitJoin(xs, '\n');
  }

  /** Splitting the Python text at newlines gives back the header and the lines. */
  lemma PyBlockSplit(header: string, lines: seq<string>)
    requires '\n' !in header && NoneContains(lines, '\n')
    ensures Split(PyBlock(header, lines), '\n') == [header] + lines
  {
    assert NoneContains([header] + lines, '\n');
    SplitJoin([header] + lines, '\n');
  }

  /**
   * A page rendered from `start` with the default bound holds at most
   * BLOCK_SIZE lines, all for indices start..DEFAULT_MAX, and none once
   * start is past DEFAULT_MAX.
   */
  lemma PageLines(ls: LineStyle, start: int)
    ensures var lines := Lines(ls, start, BlockEnd(start, DEFAULT_MAX));
      && |lines| == Max(0, BlockEnd(start, DEFAULT_MAX) - start + 1)
      && |lines| <= BLOCK_SIZE
      && (start > DEFAULT_MAX ==> lines == [])
      && (forall k :: 0 <= k < |lines| ==> lines[k] == LinkLine(ls, start + k) && start + k <= DEFAULT_MAX)
  {
    LinesCount(ls, start, BlockEnd(start, DEFAULT_MAX));
  }
}
