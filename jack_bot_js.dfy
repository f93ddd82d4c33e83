/**
 * b.js: the two-option bot. `jack_<n>` buttons page through the plain
 * Jack-in-the-Box links (no keycaps), `info` shows the sender, and any other
 * button data is answered with "Invalid selection.".
 */
module JackBotJs {
  import opened Text
  import opened Messages
  import opened Paging
  import opened Render
  import opened Sweep
  import opened Pages

  const PAGE_HEADER := HeaderStyle("> *Gifts from \U{1F381} ", Plain, "*")
  const LINK_LINES := LineStyle(false, JACK_TEMPLATE)
  const INVALID := "Invalid selection."

  lemma HeaderIsOneLine()
    ensures '\n' !in PAGE_HEADER.open && '\n' !in PAGE_HEADER.close
  {
  }

  function PageEvent(chatId: int, start: int): Event {
    JsPageEvent(chatId, PAGE_HEADER, LINK_LINES, JACK_PREFIX, start)
  }

  /** sendLinks. */
  method SendLinks(chatId: int, start: int) returns (e: Event)
    ensures e == PageEvent(chatId, start)
  {
    e := SendJsPage(chatId, PAGE_HEADER, LINK_LINES, JACK_PREFIX, start);
  }

  /**
   * The `callback_query` handler: one message to the pressing chat, which
   * carries a row of navigation buttons exactly when the data is a `jack_`
   * token.
   */
  function Callback(chatId: int, data: string, from: User): (out: seq<Event>)
    ensures |out| == 1 && out[0].Send? && out[0].to == Chat(chatId)
    ensures out[0].markup.NavRow? <==> JACK_PREFIX <= data
  {
    if JACK_PREFIX <= data then [PageEvent(chatId, JsTokenStart(data, 1))]
    else if data == "info" then [Send(Chat(chatId), JsInfoText(from), NoMarkup)]
    else [Send(Chat(chatId), INVALID, NoMarkup)]
  }

  method OnCallback(chatId: int, data: string, from: User) returns (out: seq<Event>)
    ensures out == Callback(chatId, data, from)
  {
    if JACK_PREFIX <= data {
      var start := JsTokenStart(data, 1);
      var e := SendLinks(chatId, start);
      out := [e];
    } else if data == "info" {
      out := [Send(Chat(chatId), JsInfoText(from), NoMarkup)];
    } else {
      out := [Send(Chat(chatId), INVALID, NoMarkup)];
    }
  }

  /**
   * Every button on a page leads to the page it names: pressing Next shows
   * the page after this one ends, pressing Prev the page BLOCK_SIZE earlier
   * (or page 1).
   */
  lemma ButtonsLeadToTheirPages(chatId: int, start: int, from: User)
    ensures var e := PageEvent(chatId, start); var end := BlockEnd(start, DEFAULT_MAX);
      && e.markup.NavRow?
      && forall b :: b in e.markup.buttons ==>
           Callback(chatId, b.data, from)
             == [PageEvent(chatId, if b.text == "Next" then end + 1 else Max(1, start - BLOCK_SIZE))]
  {
    JackButtonTargets(start, DEFAULT_MAX);
  }

  /** The links of a page are plain: header, then `http://t.me/nft/JackintheBox-<i>` for each index. */
  lemma PlainLinks(chatId: int, start: int)
    ensures var body := BodyLines(PageEvent(chatId, start).text);
      && |body| == Max(0, BlockEnd(start, DEFAULT_MAX) - start + 1) <= BLOCK_SIZE
      && forall k :: 0 <= k < |body| ==> body[k] == JACK_TEMPLATE + IntToString(start + k)
  {
    JackTemplateIsOneLine();
    HeaderIsOneLine();
    assert PageEvent(chatId, start) == JsPageEvent(chatId, PAGE_HEADER, LineStyle(false, JACK_TEMPLATE), JACK_PREFIX, start);
    PlainPageLinks(chatId, PAGE_HEADER, JACK_TEMPLATE, JACK_PREFIX, start);
  }

  /** Data that is neither a page token nor `info` gets "Invalid selection.", for example `jack` without the underscore. */
  lemma OtherDataIsInvalid(chatId: int, data: string, from: User)
    requires !(JACK_PREFIX <= data) && data != "info"
    ensures Callback(chatId, data, from) == [Send(Chat(chatId), INVALID, NoMarkup)]
    ensures Callback(chatId, "jack", from) == [Send(Chat(chatId), INVALID, NoMarkup)]
  {
    assert !(JACK_PREFIX <= "jack");
  }
}
