/**
 * bbc.py: the Python port of b.js. Same pages and buttons, but the text is
 * joined lines without a final newline, an empty button row becomes `None`,
 * the token is read with the strict int(), and `info` and invalid data edit
 * the pressed message instead of sending a new one.
 */
module JackBotPy {
  import opened Text
  import opened NumParse
  import opened Messages
  import opened Paging
  import opened Render
  import opened Pages
  import JackBotJs

  /** The page header, link lines and error text are b.js's. */
  const PAGE_HEADER := JackBotJs.PAGE_HEADER
  const LINK_LINES := JackBotJs.LINK_LINES
  const INVALID := JackBotJs.INVALID

  function PageEvent(chatId: int, start: int): Event {
    PyPageEvent(chatId, PAGE_HEADER, LINK_LINES, JACK_PREFIX, start)
  }

  /** send_links. */
  method SendLinks(chatId: int, start: int) returns (e: Event)
    ensures e == PageEvent(chatId, start)
  {
    e := SendPyPage(chatId, PAGE_HEADER, LINK_LINES, JACK_PREFIX, start);
  }

  /**
   * button_handler: one action on the pressing chat, a new page message
   * exactly when the data is a `jack_` token and otherwise an edit of the
   * pressed message.
   */
  function ButtonHandler(chatId: int, data: string, from: User): (out: seq<Event>)
    ensures |out| == 1
    ensures out[0].Send? <==> JACK_PREFIX <= data
    ensures out[0].Send? ==> out[0].to == Chat(chatId)
    ensures out[0].Edit? ==> out[0].chat == chatId
  {
    if JACK_PREFIX <= data then [PageEvent(chatId, PyTokenStart(data, 1))]
    else if data == "info" then [Edit(chatId, PyInfoText(from))]
    else [Edit(chatId, INVALID)]
  }

  method OnButton(chatId: int, data: string, from: User) returns (out: seq<Event>)
    ensures out == ButtonHandler(chatId, data, from)
  {
    if JACK_PREFIX <= data {
      var start := PyTokenStart(data, 1);
      var e := SendLinks(chatId, start);
      out := [e];
    } else if data == "info" {
      out := [Edit(chatId, PyInfoText(from))];
    } else {
      out := [Edit(chatId, INVALID)];
    }
  }

  /** Every button on a page leads to the page it names. */
  lemma ButtonsLeadToTheirPages(chatId: int, start: int, from: User)
    ensures var e := PageEvent(chatId, start); var end := BlockEnd(start, DEFAULT_MAX);
      && e.markup.NavRow?
      && forall b :: b in e.markup.buttons ==>
           ButtonHandler(chatId, b.data, from)
             == [PageEvent(chatId, if b.text == "Next" then end + 1 else Max(1, start - BLOCK_SIZE))]
  {
    JackButtonTargets(start, DEFAULT_MAX);
    EveryPageHasAButton(chatId, PAGE_HEADER, LINK_LINES, JACK_PREFIX, start);
  }

  /** The page is b.js's page without the final newline, with the same buttons. */
  lemma AgreesWithJsBot(chatId: int, start: int)
    ensures JackBotJs.PageEvent(chatId, start).text == PageEvent(chatId, start).text + "\n"
    ensures JackBotJs.PageEvent(chatId, start).markup == PageEvent(chatId, start).markup
  {
    PyPageMatchesJsPage(chatId, PAGE_HEADER, LINK_LINES, JACK_PREFIX, start);
    EveryPageHasAButton(chatId, PAGE_HEADER, LINK_LINES, JACK_PREFIX, start);
  }

  /** A numeric token opens the same page in both bots. */
  lemma TokensAgreeWithJsBot(chatId: int, n: int, from: User)
    ensures ButtonHandler(chatId, Token(JACK_PREFIX, n), from) == [PageEvent(chatId, n)]
    ensures JackBotJs.Callback(chatId, Token(JACK_PREFIX, n), from) == [JackBotJs.PageEvent(chatId, n)]
  {
    JackTokenRoundTrip(n);
  }

  /** A token with trailing text opens page 1 here, where b.js reads its digit prefix. */
  lemma TrailingTextDisagrees(chatId: int, from: User)
    ensures ButtonHandler(chatId, "jack_12x", from) == [PageEvent(chatId, 1)]
    ensures JackBotJs.Callback(chatId, "jack_12x", from) == [JackBotJs.PageEvent(chatId, 12)]
  {
    TrailingTextToken();
  }

  /** `info` and unknown data edit the pressed message rather than sending a new one. */
  lemma EditsInsteadOfSending(chatId: int, data: string, from: User)
    requires !(JACK_PREFIX <= data)
    ensures |ButtonHandler(chatId, data, from)| == 1 && ButtonHandler(chatId, data, from)[0].Edit?
    ensures data == "info" ==> ButtonHandler(chatId, data, from)[0].text == PyInfoText(from)
    ensures data != "info" ==> ButtonHandler(chatId, data, from)[0].text == INVALID
  {
  }
}
