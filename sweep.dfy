/**
 * The sweep loop of f.js and c.js: `for (start = 1; start <= bound; start +=
 * BLOCK_SIZE)`, rendering the block start..min(start + 99, bound), sending it
 * to one destination and pausing. The sends and pauses are appended to a log.
 */
module Sweep {
  import opened Text
  import opened Emoji
  import opened Paging
  import opened Messages
  import opened Render

  /** The text of one sweep block: its header line, then one line per index. */
  function BlockText(h: HeaderStyle, ls: LineStyle, r: Range): string {
    JsBlock(HeaderLine(h, r.lo, r.hi), Lines(ls, r.lo, r.hi))
  }

  /** The texts a sweep up to `bound` sends, one per block, in order. */
  function BlockTexts(h: HeaderStyle, ls: LineStyle, bound: int): seq<string> {
    seq(Count(bound), k requires 0 <= k => BlockText(h, ls, RangeAt(bound, k)))
  }

  /** Each text sent to `dest` and followed by a pause of `ms`. */
  function Paced(dest: Dest, texts: seq<string>, ms: int): seq<Event>
    decreases |texts|
  {
    if texts == [] then []
    else Paced(dest, texts[..|texts| - 1], ms) + [Send(dest, texts[|texts| - 1], NoMarkup), Delay(ms)]
  }

  /** The whole log of a sweep up to `bound`. */
  function SweepEvents(dest: Dest, h: HeaderStyle, ls: LineStyle, bound: int, ms: int): seq<Event> {
    Paced(dest, BlockTexts(h, ls, bound), ms)
  }

  /** The loop itself; each block's text is built by the `+=` loop of RenderJsBlock. */
  method RunSweep(dest: Dest, h: HeaderStyle, ls: LineStyle, bound: int, ms: int) returns (log: seq<Event>)
    ensures log == SweepEvents(dest, h, ls, bound, ms)
  {
    ghost var texts := BlockTexts(h, ls, bound);
    log := [];
    var start := 1;
    ghost var k: nat := 0;
    while start <= bound
      invariant start == 1 + k * BLOCK_SIZE
      invariant k <= |texts|
      invariant log == Paced(dest, texts[..k], ms)
      decreases bound - start
    {
      var end := Min(start + BLOCK_SIZE - 1, bound);
      var text := RenderJsBlock(HeaderLine(h, start, end), ls, start, end);
      NextText(h, ls, bound, k, text);
      PacedStep(dest, texts, k, ms);
      log := log + [Send(dest, text, NoMarkup), Delay(ms)];
      start := start + BLOCK_SIZE;
      k := k + 1;
    }
    LoopGuard(bound, k);
    assert texts[..k] == texts;
  }

  /** Iteration k of RunSweep renders the k-th of BlockTexts. */
  lemma NextText(h: HeaderStyle, ls: LineStyle, bound: int, k: nat, text: string)
    requires 1 + k * BLOCK_SIZE <= bound
    requires var lo := 1 + k * BLOCK_SIZE; var hi := Min(lo + BLOCK_SIZE - 1, bound);
      text == JsBlock(HeaderLine(h, lo, hi), Lines(ls, lo, hi))
    ensures k < |BlockTexts(h, ls, bound)| && BlockTexts(h, ls, bound)[k] == text
  {
    var lo := 1 + k * BLOCK_SIZE;
    LoopGuard(bound, k);
    assert RangeAt(bound, k) == Range(lo, Min(lo + BLOCK_SIZE - 1, bound));
  }

  /** Pacing the first k + 1 texts extends the pacing of the first k by the send of text k and a pause. */
  lemma PacedStep(dest: Dest, texts: seq<string>, k: nat, ms: int)
    requires k < |texts|
    ensures Paced(dest, texts[..k + 1], ms) == Paced(dest, texts[..k], ms) + [Send(dest, texts[k], NoMarkup), Delay(ms)]
  {
    assert texts[..k + 1] == texts[..k] + [texts[k]];
    PacedSnoc(dest, texts[..k], texts[k], ms);
  }

  /** Pacing one more text appends its send and its pause. */
  lemma PacedSnoc(dest: Dest, texts: seq<string>, text: string, ms: int)
    ensures Paced(dest, texts + [text], ms) == Paced(dest, texts, ms) + [Send(dest, text, NoMarkup), Delay(ms)]
  {
    assert (texts + [text])[..|texts|] == texts;
  }

  /** A paced log holds two events per text: the send at 2j, its pause at 2j + 1. */
  lemma {:induction false} PacedAt(dest: Dest, texts: seq<string>, ms: int)
    ensures var events := Paced(dest, texts, ms);
      && |events| == 2 * |texts|
      && (forall j :: 0 <= j < |texts| ==> events[2 * j] == Send(dest, texts[j], NoMarkup))
      && (forall j :: 0 <= j < |texts| ==> events[2 * j + 1] == Delay(ms))
      && (forall i :: 0 <= i < |events| ==> (events[i].Send? && events[i].to == dest) || events[i] == Delay(ms))
    decreases |texts|
  {
    if texts != [] {
      var n := |texts| - 1;
      var prev := Paced(dest, texts[..n], ms);
      var last := [Send(dest, texts[n], NoMarkup), Delay(ms)];
      var events := prev + last;
      PacedAt(dest, texts[..n], ms);
      forall j | 0 <= j < |texts|
        ensures events[2 * j] == Send(dest, texts[j], NoMarkup) && events[2 * j + 1] == Delay(ms)
      {
        if j < n {
          assert texts[..n][j] == texts[j];
        }
      }
      forall i | 0 <= i < |events|
        ensures (events[i].Send? && events[i].to == dest) || events[i] == Delay(ms)
      {
        if i < |prev| {
          assert events[i] == prev[i];
        } else if i == |prev| {
          assert events[i] == last[0];
        } else {
          assert events[i] == last[1];
        }
      }
    }
  }

  /**
   * A sweep sends ceil(bound / BLOCK_SIZE) blocks, all to `dest`, each followed
   * by a pause of `ms`; the j-th send carries the j-th block of the partition
   * of 1..bound (see RangesPartition).
   */
  lemma SweepShape(dest: Dest, h: HeaderStyle, ls: LineStyle, bound: int, ms: int)
    ensures var events := SweepEvents(dest, h, ls, bound, ms); var rs := Ranges(bound);
      && |events| == 2 * |rs|
      && (forall j :: 0 <= j < |rs| ==> events[2 * j] == Send(dest, BlockText(h, ls, rs[j]), NoMarkup))
      && (forall j :: 0 <= j < |rs| ==> events[2 * j + 1] == Delay(ms))
      && (forall i :: 0 <= i < |events| ==> (events[i].Send? && events[i].to == dest) || events[i] == Delay(ms))
  {
    PacedAt(dest, BlockTexts(h, ls, bound), ms);
  }

  // ---------------------------------------------------------------------------
  // What reaches the reader: the link lines, read back out of the sent texts.

  /** The lines of a block text between its header and its final newline. */
  function BodyLines(text: string): seq<string> {
    var parts := Split(text, '\n');
    if |parts| >= 2 then parts[1..|parts| - 1] else []
  }

  /** Every line read back out of the messages of a log, in order. */
  function DeliveredLines(events: seq<Event>): seq<string> {
    if events == [] then []
    else
      DeliveredLines(events[..|events| - 1])
      + match events[|events| - 1] case Send(_, text, _) => BodyLines(text) case _ => []
  }

  lemma NumeralWithoutNewline(ns: Numerals, n: int)
    ensures '\n' !in Numeral(ns, n)
  {
    var d := IntToString(n);
    assert '\n' !in d;
    if ns == Keycapped {
      var e := NumberToEmoji(n);
      assert forall j :: 0 <= j < |e| ==> e[j] in d || e[j] == VS16 || e[j] == ENCLOSING_KEYCAP;
    }
  }

  lemma HeaderWithoutNewline(h: HeaderStyle, lo: int, hi: int)
    requires '\n' !in h.open && '\n' !in h.close
    ensures '\n' !in HeaderLine(h, lo, hi)
  {
    NumeralWithoutNewline(h.numerals, lo);
    NumeralWithoutNewline(h.numerals, hi);
  }

  /** The body of a block text is exactly the block's lines. */
  lemma BodyOfBlock(h: HeaderStyle, ls: LineStyle, r: Range)
    requires '\n' !in h.open && '\n' !in h.close && '\n' !in ls.template
    ensures BodyLines(BlockText(h, ls, r)) == Lines(ls, r.lo, r.hi)
  {
    HeaderWithoutNewline(h, r.lo, r.hi);
    LinesWithoutNewline(ls, r.lo, r.hi);
    JsBlockSplit(HeaderLine(h, r.lo, r.hi), Lines(ls, r.lo, r.hi));
  }

  /** Appending a send and a pause adds the body of the sent text. */
  lemma DeliveredSnoc(prev: seq<Event>, dest: Dest, text: string, ms: int)
    ensures DeliveredLines(prev + [Send(dest, text, NoMarkup), Delay(ms)]) == DeliveredLines(prev) + BodyLines(text)
  {
    var send := Send(dest, text, NoMarkup);
    var all := prev + [send, Delay(ms)];
    assert all[..|all| - 1] == prev + [send];
    assert (prev + [send])[..|prev|] == prev;
  }

  /**
   * Pacing texts whose bodies are the lines of the first blocks of a sweep
   * delivers the lines of those blocks, in order.
   */
  lemma {:induction false} DeliveredPrefix(dest: Dest, ls: LineStyle, bound: int, ms: int, texts: seq<string>)
    requires |texts| <= Count(bound)
    requires forall j :: 0 <= j < |texts| ==> BodyLines(texts[j]) == Lines(ls, RangeAt(bound, j).lo, RangeAt(bound, j).hi)
    ensures DeliveredLines(Paced(dest, texts, ms)) == Lines(ls, 1, Min(|texts| * BLOCK_SIZE, bound))
    decreases |texts|
  {
    if texts != [] {
      var j := |texts| - 1;
      var r := RangeAt(bound, j);
      assert Min(j * BLOCK_SIZE, bound) == r.lo - 1 && Min(|texts| * BLOCK_SIZE, bound) == r.hi by {
        LoopGuard(bound, j);
      }
      var prev := Paced(dest, texts[..j], ms);
      calc {
        DeliveredLines(Paced(dest, texts, ms));
        { assert Paced(dest, texts, ms) == prev + [Send(dest, texts[j], NoMarkup), Delay(ms)];
          DeliveredSnoc(prev, dest, texts[j], ms); }
        DeliveredLines(prev) + BodyLines(texts[j]);
        { DeliveredPrefix(dest, ls, bound, ms, texts[..j]); }
        Lines(ls, 1, r.lo - 1) + Lines(ls, r.lo, r.hi);
        { LinesAppend(ls, 1, r.lo - 1, r.hi); }
        Lines(ls, 1, r.hi);
      }
    }
  }

  /**
   * Read back out of the sent messages, a sweep delivers the link lines for
   * 1..bound in order, each exactly once: bound lines (none if bound < 1),
   * all different.
   */
  lemma SweepDeliversEveryLinkOnce(dest: Dest, h: HeaderStyle, ls: LineStyle, bound: int, ms: int)
    requires '\n' !in h.open && '\n' !in h.close && '\n' !in ls.template
    ensures DeliveredLines(SweepEvents(dest, h, ls, bound, ms)) == Lines(ls, 1, bound)
    ensures |Lines(ls, 1, bound)| == Max(0, bound)
    ensures var lines := Lines(ls, 1, bound); forall j, k :: 0 <= j < k < |lines| ==> lines[j] != lines[k]
  {
    var texts := BlockTexts(h, ls, bound);
    forall j | 0 <= j < |texts|
      ensures BodyLines(texts[j]) == Lines(ls, RangeAt(bound, j).lo, RangeAt(bound, j).hi)
    {
      BodyOfBlock(h, ls, RangeAt(bound, j));
    }
    DeliveredPrefix(dest, ls, bound, ms, texts);
    if bound >= 1 {
      LoopGuard(bound, Count(bound) - 1);
      LoopGuard(bound, Count(bound));
    }
    LinesCount(ls, 1, bound);
    LinesDistinct(ls, 1, bound);
  }
}
