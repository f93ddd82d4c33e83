/**
 * One page of links with its navigation row: sendDefaultBlock in f.js and
 * c.js, sendLinks in b.js (JavaScript, `text +=` and `buttons.push`), and
 * send_links in bbc.py (Python, `message_lines.append`, `"\n".join`, and no
 * markup at all when there are no buttons). Pages always use the bound
 * DEFAULT_MAX.
 */
module Pages {
  import opened Text
  import opened Paging
  import opened Messages
  import opened Render
  import opened Sweep

  /** What the JavaScript bots send for the page starting at `start`. */
  function JsPageEvent(chatId: int, h: HeaderStyle, ls: LineStyle, prefix: string, start: int): Event {
    var end := BlockEnd(start, DEFAULT_MAX);
    Send(Chat(chatId), JsBlock(HeaderLine(h, start, end), Lines(ls, start, end)),
         NavRow(NavButtons(prefix, start, DEFAULT_MAX)))
  }

  /** What bbc.py sends: the joined lines, and `None` instead of an empty keyboard. */
  function PyPageEvent(chatId: int, h: HeaderStyle, ls: LineStyle, prefix: string, start: int): Event {
    var end := BlockEnd(start, DEFAULT_MAX);
    var buttons := NavButtons(prefix, start, DEFAULT_MAX);
    Send(Chat(chatId), PyBlock(HeaderLine(h, start, end), Lines(ls, start, end)),
         if buttons == [] then NoMarkup else NavRow(buttons))
  }

  /** sendDefaultBlock / sendLinks: build the text line by line, then push Next and Prev. */
  method SendJsPage(chatId: int, h: HeaderStyle, ls: LineStyle, prefix: string, start: int) returns (e: Event)
    ensures e == JsPageEvent(chatId, h, ls, prefix, start)
  {
    var end := Min(start + BLOCK_SIZE - 1, DEFAULT_MAX);
    var text := RenderJsBlock(HeaderLine(h, start, end), ls, start, end);
    var buttons := NavigationRow(prefix, start, end);
    e := Send(Chat(chatId), text, NavRow(buttons));
  }

  /** send_links: collect the lines, join them, and pass `None` when no button applies. */
  method SendPyPage(chatId: int, h: HeaderStyle, ls: LineStyle, prefix: string, start: int) returns (e: Event)
    ensures e == PyPageEvent(chatId, h, ls, prefix, start)
  {
    var end := Min(start + BLOCK_SIZE - 1, DEFAULT_MAX);
    var lines := RenderPyLines(HeaderLine(h, start, end), ls, start, end);
    var text := Join(lines, '\n');
    var buttons := NavigationRow(prefix, start, end);
    var markup := if |buttons| > 0 then NavRow(buttons) else NoMarkup;
    e := Send(Chat(chatId), text, markup);
  }

  /** `if (endNum < MAX) buttons.push(Next); if (startNum > 1) buttons.push(Prev);` */
  method NavigationRow(prefix: string, start: int, end: int) returns (buttons: seq<Button>)
    requires end == BlockEnd(start, DEFAULT_MAX)
    ensures buttons == NavButtons(prefix, start, DEFAULT_MAX)
  {
    buttons := [];
    if end < DEFAULT_MAX {
      buttons := buttons + [Button("Next", prefix + IntToString(end + 1))];
    }
    if start > 1 {
      var prevStart := Max(1, start - BLOCK_SIZE);
      buttons := buttons + [Button("Prev", prefix + IntToString(prevStart))];
    }
  }

  /**
   * A JavaScript page holds, after its header, the links for start..end with
   * end = min(start + 99, DEFAULT_MAX): at most BLOCK_SIZE of them, none once
   * start is past DEFAULT_MAX; its keyboard is the one row of Next/Prev buttons.
   */
  lemma JsPageContents(chatId: int, h: HeaderStyle, ls: LineStyle, prefix: string, start: int)
    requires '\n' !in h.open && '\n' !in h.close && '\n' !in ls.template
    ensures var e := JsPageEvent(chatId, h, ls, prefix, start); var end := BlockEnd(start, DEFAULT_MAX);
      && e.to == Chat(chatId)
      && end == Min(start + BLOCK_SIZE - 1, DEFAULT_MAX) && end <= DEFAULT_MAX
      && Split(e.text, '\n')[0] == HeaderLine(h, start, end)
      && BodyLines(e.text) == Lines(ls, start, end)
      && |BodyLines(e.text)| == Max(0, end - start + 1) <= BLOCK_SIZE
      && (start > DEFAULT_MAX ==> BodyLines(e.text) == [])
      && e.markup == NavRow(NavButtons(prefix, start, DEFAULT_MAX))
  {
    var end := BlockEnd(start, DEFAULT_MAX);
    HeaderWithoutNewline(h, start, end);
    LinesWithoutNewline(ls, start, end);
    JsBlockSplit(HeaderLine(h, start, end), Lines(ls, start, end));
    PageLines(ls, start);
  }

  /** The lines of a JavaScript page after its header are the page's link lines. */
  lemma JsPageBody(chatId: int, h: HeaderStyle, ls: LineStyle, prefix: string, start: int)
    requires '\n' !in h.open && '\n' !in h.close && '\n' !in ls.template
    ensures BodyLines(JsPageEvent(chatId, h, ls, prefix, start).text) == Lines(ls, start, BlockEnd(start, DEFAULT_MAX))
  {
    var end := BlockEnd(start, DEFAULT_MAX);
    assert JsPageEvent(chatId, h, ls, prefix, start).text == BlockText(h, ls, Range(start, end));
    BodyOfBlock(h, ls, Range(start, end));
  }

  /** Without keycaps, the lines of a page are template and index, one per index of the page. */
  lemma PlainPageLinks(chatId: int, h: HeaderStyle, t: string, prefix: string, start: int)
    requires '\n' !in h.open && '\n' !in h.close && '\n' !in t
    ensures var body := BodyLines(JsPageEvent(chatId, h, LineStyle(false, t), prefix, start).text);
      && |body| == Max(0, BlockEnd(start, DEFAULT_MAX) - start + 1) <= BLOCK_SIZE
      && forall k :: 0 <= k < |body| ==> body[k] == t + IntToString(start + k)
  {
    var ls := LineStyle(false, t);
    var body := BodyLines(JsPageEvent(chatId, h, ls, prefix, start).text);
    JsPageBody(chatId, h, ls, prefix, start);
    PageLines(ls, start);
    forall k | 0 <= k < |body| ensures body[k] == t + IntToString(start + k) {
      assert body[k] == LinkLine(ls, start + k);
      PlainLinkLine(t, start + k);
    }
  }

  /**
   * bbc.py's page is b.js's page without the final newline, and its markup is
   * the same row of buttons, or none exactly when that row would be empty.
   */
  lemma PyPageMatchesJsPage(chatId: int, h: HeaderStyle, ls: LineStyle, prefix: string, start: int)
    ensures var js := JsPageEvent(chatId, h, ls, prefix, start); var py := PyPageEvent(chatId, h, ls, prefix, start);
      && py.to == js.to
      && js.text == py.text + "\n"
      && (py.markup == NoMarkup <==> js.markup == NavRow([]))
      && (py.markup != NoMarkup ==> py.markup == js.markup)
  {
    var end := BlockEnd(start, DEFAULT_MAX);
    JsBlockIsPyBlockPlusNewline(HeaderLine(h, start, end), Lines(ls, start, end));
  }

  /**
   * With the bound DEFAULT_MAX every page has a Next or a Prev button: a page
   * starting at 1 or before ends below DEFAULT_MAX, so bbc.py's `None` markup
   * is never sent.
   */
  lemma EveryPageHasAButton(chatId: int, h: HeaderStyle, ls: LineStyle, prefix: string, start: int)
    ensures NavButtons(prefix, start, DEFAULT_MAX) != []
    ensures PyPageEvent(chatId, h, ls, prefix, start).markup == NavRow(NavButtons(prefix, start, DEFAULT_MAX))
  {
    NavButtonsShape(prefix, start, DEFAULT_MAX);
  }
}
