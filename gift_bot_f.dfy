/**
 * f.js: the four-option bot. Pages and sweeps of Jack-in-the-Box links, and
 * a per-chat conversation that collects a link template, then a quantity,
 * then sweeps that many custom links into the chat or into a channel.
 * Every message is handed to the retry wrapper, whose policy is module
 * Retry; the events below are those requests.
 */
module GiftBotF {
  import opened Wrappers
  import opened Text
  import opened NumParse
  import opened Messages
  import opened Paging
  import opened Render
  import opened Sweep
  import opened Pages

  /** The pause after every sweep block (DELAY_MS). */
  const DELAY_MS := 2000

  const LINK_PROMPT := "Please send your custom gift link template (e.g., http://t.me/nft/Jackinthemall-):"
  const QUANTITY_PROMPT := "Please enter the quantity for your custom gift links (e.g., 100000 or 500000):"
  const INVALID_QUANTITY := "Invalid quantity. Please enter a positive number."
  const CHOICE_PROMPT := "Choose how you want to send your custom gift links:"
  const CHANNEL_PROMPT := "Please enter the channel ID (or @channelusername) where the bot is admin:"
  const NOT_SET := "Custom link or quantity not set. Please try again."
  const DEFAULT_ANNOUNCE := "Starting to send all gift links. This may take a while."
  const CUSTOM_ANNOUNCE := "Sending all custom gift links in chat. This may take a while."
  const DONE := "Done posting to channel."

  function ChannelAnnounce(channel: string): string {
    "Posting to channel " + channel + ". Ensure the bot is admin there."
  }

  const PAGE_HEADER := HeaderStyle("&gt; <b>\U{1F680} Gifts from \U{1F381} ", Plain, "</b>")
  const DEFAULT_SWEEP_HEADER := HeaderStyle("&gt; <b>\U{2728} ", Keycapped, "</b>")
  const CUSTOM_SWEEP_HEADER := HeaderStyle("&gt; <b>\U{1F31F} ", Keycapped, "</b>")
  const CHANNEL_SWEEP_HEADER := HeaderStyle("&gt; <b>\U{1F525} ", Keycapped, "</b>")
  const JACK_LINES := LineStyle(true, JACK_TEMPLATE)

  // ---------------------------------------------------------------------------
  // Pages and sweeps.

  function PageEvent(chatId: int, start: int): Event {
    JsPageEvent(chatId, PAGE_HEADER, JACK_LINES, DEFAULT_PREFIX, start)
  }

  function DefaultSweep(chatId: int): seq<Event> {
    [Send(Chat(chatId), DEFAULT_ANNOUNCE, NoMarkup)]
    + SweepEvents(Chat(chatId), DEFAULT_SWEEP_HEADER, JACK_LINES, DEFAULT_MAX, DELAY_MS)
  }

  function CustomSweep(chatId: int, baseLink: string, quantity: int): seq<Event> {
    [Send(Chat(chatId), CUSTOM_ANNOUNCE, NoMarkup)]
    + SweepEvents(Chat(chatId), CUSTOM_SWEEP_HEADER, LineStyle(true, baseLink), quantity, DELAY_MS)
  }

  function ChannelSweep(chatId: int, baseLink: string, quantity: int, channel: string): seq<Event> {
    [Send(Chat(chatId), ChannelAnnounce(channel), NoMarkup)]
    + SweepEvents(Channel(channel), CHANNEL_SWEEP_HEADER, LineStyle(true, baseLink), quantity, DELAY_MS)
    + [Send(Chat(chatId), DONE, NoMarkup)]
  }

  /** sendDefaultBlock. */
  method SendDefaultBlock(chatId: int, start: int) returns (e: Event)
    ensures e == PageEvent(chatId, start)
  {
    e := SendJsPage(chatId, PAGE_HEADER, JACK_LINES, DEFAULT_PREFIX, start);
  }

  /** sendAllDefaultGifts. */
  method SendAllDefaultGifts(chatId: int) returns (out: seq<Event>)
    ensures out == DefaultSweep(chatId)
  {
    out := [Send(Chat(chatId), DEFAULT_ANNOUNCE, NoMarkup)];
    var log := RunSweep(Chat(chatId), DEFAULT_SWEEP_HEADER, JACK_LINES, DEFAULT_MAX, DELAY_MS);
    out := out + log;
  }

  /** sendAllCustomGifts. */
  method SendAllCustomGifts(chatId: int, baseLink: string, quantity: int) returns (out: seq<Event>)
    ensures out == CustomSweep(chatId, baseLink, quantity)
  {
    out := [Send(Chat(chatId), CUSTOM_ANNOUNCE, NoMarkup)];
    var log := RunSweep(Chat(chatId), CUSTOM_SWEEP_HEADER, LineStyle(true, baseLink), quantity, DELAY_MS);
    out := out + log;
  }

  /** sendAllCustomGiftsToChannel. */
  method SendAllCustomGiftsToChannel(chatId: int, baseLink: string, quantity: int, channel: string)
    returns (out: seq<Event>)
    ensures out == ChannelSweep(chatId, baseLink, quantity, channel)
  {
    out := [Send(Chat(chatId), ChannelAnnounce(channel), NoMarkup)];
    var log := RunSweep(Channel(channel), CHANNEL_SWEEP_HEADER, LineStyle(true, baseLink), quantity, DELAY_MS);
    out := out + log + [Send(Chat(chatId), DONE, NoMarkup)];
  }

  /**
   * The channel sweep first announces the channel in the chat, then sends
   * the j-th block to the channel as message 2j+1, each followed by a
   * 2000 ms pause, and ends with "Done posting to channel." in the chat.
   */
  lemma ChannelSweepOrder(chatId: int, baseLink: string, quantity: int, channel: string)
    ensures var out := ChannelSweep(chatId, baseLink, quantity, channel);
      && |out| == 2 * Count(quantity) + 2
      && out[0] == Send(Chat(chatId), ChannelAnnounce(channel), NoMarkup)
      && out[|out| - 1] == Send(Chat(chatId), DONE, NoMarkup)
      && (forall j :: 0 <= j < Count(quantity) ==>
            && out[2 * j + 1] == Send(Channel(channel), BlockText(CHANNEL_SWEEP_HEADER, LineStyle(true, baseLink), RangeAt(quantity, j)), NoMarkup)
            && out[2 * j + 2] == Delay(DELAY_MS))
      && (forall j :: 0 < j < |out| - 1 ==> (out[j].Send? && out[j].to == Channel(channel)) || out[j] == Delay(DELAY_MS))
  {
    var out := ChannelSweep(chatId, baseLink, quantity, channel);
    var middle := SweepEvents(Channel(channel), CHANNEL_SWEEP_HEADER, LineStyle(true, baseLink), quantity, DELAY_MS);
    SweepShape(Channel(channel), CHANNEL_SWEEP_HEADER, LineStyle(true, baseLink), quantity, DELAY_MS);
    assert forall j :: 0 < j < |out| - 1 ==> out[j] == middle[j - 1];
  }

  // ---------------------------------------------------------------------------
  // The conversation state.

  datatype Step = AwaitingCustomLink | AwaitingCustomQuantity | CustomChoiceMade | AwaitingChannel

  /** `state[chatId]`: the step and the fields set so far (absent fields are `undefined`). */
  datatype Session = Session(step: Step, baseLink: Option<string>, quantity: Option<int>)

  /** `state[chatId] && state[chatId].baseLink && state[chatId].quantity` */
  predicate Ready(st: map<int, Session>, chatId: int) {
    chatId in st && Truthy(st[chatId].baseLink) && st[chatId].quantity.Some? && st[chatId].quantity.value != 0
  }

  /** Which fields a session has at each step. */
  predicate SessionOk(s: Session) {
    match s.step
    case AwaitingCustomLink => s.baseLink.None? && s.quantity.None?
    case AwaitingCustomQuantity => s.baseLink.Some? && s.quantity.None?
    case CustomChoiceMade => s.baseLink.Some? && s.quantity.Some? && s.quantity.value > 0
    case AwaitingChannel => Truthy(s.baseLink) && s.quantity.Some? && s.quantity.value > 0
  }

  predicate Consistent(st: map<int, Session>) {
    forall id :: id in st ==> SessionOk(st[id])
  }

  /** The new state and the events of one handler call. */
  datatype Reply = Reply(state: map<int, Session>, out: seq<Event>)

  function Say(chatId: int, text: string): Event {
    Send(Chat(chatId), text, NoMarkup)
  }

  /**
   * The `callback_query` handler. A button press keeps every session's
   * fields consistent with its step and leaves every other chat's session as
   * it was.
   */
  function Callback(st: map<int, Session>, chatId: int, data: string, from: User): (r: Reply)
    ensures Consistent(st) ==> Consistent(r.state)
    ensures forall c :: c != chatId ==> (c in r.state <==> c in st) && (c in st ==> r.state[c] == st[c])
  {
    if DEFAULT_PREFIX <= data then Reply(st, [PageEvent(chatId, JsTokenStart(data, 2))])
    else if data == "info" then Reply(st, [Say(chatId, JsInfoText(from))])
    else if data == "send_all" then Reply(st, DefaultSweep(chatId))
    else if data == "custom_options" then
      Reply(st[chatId := Session(AwaitingCustomLink, None, None)], [Say(chatId, LINK_PROMPT)])
    else if data == "custom_chat" then
      if Ready(st, chatId) then
        Reply(st - {chatId}, CustomSweep(chatId, st[chatId].baseLink.value, st[chatId].quantity.value))
      else Reply(st, [Say(chatId, NOT_SET)])
    else if data == "custom_channel" then
      if Ready(st, chatId) then
        Reply(st[chatId := st[chatId].(step := AwaitingChannel)], [Say(chatId, CHANNEL_PROMPT)])
      else Reply(st, [Say(chatId, NOT_SET)])
    else Reply(st, [])
  }

  /**
   * The `message` handler for free text. A message keeps every session's
   * fields consistent with its step and leaves every other chat's session as
   * it was.
   */
  function Message(st: map<int, Session>, chatId: int, text: string): (r: Reply)
    requires Consistent(st)
    ensures Consistent(r.state)
    ensures forall c :: c != chatId ==> (c in r.state <==> c in st) && (c in st ==> r.state[c] == st[c])
  {
    if "/" <= text || chatId !in st then Reply(st, [])
    else
      var s := st[chatId];
      match s.step
      case AwaitingCustomLink =>
        Reply(st[chatId := s.(baseLink := Some(Trim(text)), step := AwaitingCustomQuantity)], [Say(chatId, QUANTITY_PROMPT)])
      case AwaitingCustomQuantity =>
        (match JsParseInt(Trim(text))
         case Some(qty) =>
           if qty <= 0 then Reply(st, [Say(chatId, INVALID_QUANTITY)])
           else Reply(st[chatId := s.(quantity := Some(qty), step := CustomChoiceMade)],
                      [Send(Chat(chatId), CHOICE_PROMPT, CustomMenu)])
         case None => Reply(st, [Say(chatId, INVALID_QUANTITY)]))
      case CustomChoiceMade => Reply(st, [])
      case AwaitingChannel =>
        Reply(st - {chatId}, ChannelSweep(chatId, s.baseLink.value, s.quantity.value, Trim(text)))
  }

  class Bot {
    /** `state`, keyed by chat id. */
    var state: map<int, Session>

    predicate Valid()
      reads this
    {
      Consistent(state)
    }

    constructor ()
      ensures Valid() && state == map[]
    {
      state := map[];
    }

    method OnCallback(chatId: int, data: string, from: User) returns (out: seq<Event>)
      requires Valid()
      modifies this
      ensures Valid()
      ensures Reply(state, out) == Callback(old(state), chatId, data, from)
    {
      if DEFAULT_PREFIX <= data {
        var start := JsTokenStart(data, 2);
        var e := SendDefaultBlock(chatId, start);
        out := [e];
      } else if data == "info" {
        out := [Say(chatId, JsInfoText(from))];
      } else if data == "send_all" {
        out := SendAllDefaultGifts(chatId);
      } else if data == "custom_options" {
        state := state[chatId := Session(AwaitingCustomLink, None, None)];
        out := [Say(chatId, LINK_PROMPT)];
      } else if data == "custom_chat" {
        if chatId in state && Truthy(state[chatId].baseLink) && state[chatId].quantity.Some? && state[chatId].quantity.value != 0 {
          out := SendAllCustomGifts(chatId, state[chatId].baseLink.value, state[chatId].quantity.value);
          state := state - {chatId};
        } else {
          out := [Say(chatId, NOT_SET)];
        }
      } else if data == "custom_channel" {
        if chatId in state && Truthy(state[chatId].baseLink) && state[chatId].quantity.Some? && state[chatId].quantity.value != 0 {
          state := state[chatId := state[chatId].(step := AwaitingChannel)];
          out := [Say(chatId, CHANNEL_PROMPT)];
        } else {
          out := [Say(chatId, NOT_SET)];
        }
      } else {
        out := [];
      }
    }

    method OnMessage(chatId: int, text: string) returns (out: seq<Event>)
      requires Valid()
      modifies this
      ensures Valid()
      ensures Reply(state, out) == Message(old(state), chatId, text)
    {
      out := [];
      if "/" <= text || chatId !in state {
        return;
      }
      var s := state[chatId];
      if s.step == AwaitingCustomLink {
        state := state[chatId := s.(baseLink := Some(Trim(text)), step := AwaitingCustomQuantity)];
        out := [Say(chatId, QUANTITY_PROMPT)];
      } else if s.step == AwaitingCustomQuantity {
        var parsed := JsParseInt(Trim(text));
        if parsed.None? || parsed.value <= 0 {
          out := [Say(chatId, INVALID_QUANTITY)];
        } else {
          state := state[chatId := s.(quantity := Some(parsed.value), step := CustomChoiceMade)];
          out := [Send(Chat(chatId), CHOICE_PROMPT, CustomMenu)];
        }
      } else if s.step == AwaitingChannel {
        var channel := Trim(text);
        out := SendAllCustomGiftsToChannel(chatId, s.baseLink.value, s.quantity.value, channel);
        state := state - {chatId};
      }
    }
  }

  // ---------------------------------------------------------------------------
  // What the handlers promise.

  /** A page button sends the page its token names, and changes no session. */
  lemma PageButton(st: map<int, Session>, chatId: int, n: int, from: User)
    ensures Callback(st, chatId, Token(DEFAULT_PREFIX, n), from) == Reply(st, [PageEvent(chatId, n)])
  {
    DefaultTokenRoundTrip(n);
  }

  /** A page token without a number shows page 1. */
  lemma NonNumericPageButton(st: map<int, Session>, chatId: int, from: User)
    ensures Callback(st, chatId, "default_paginated_abc", from) == Reply(st, [PageEvent(chatId, 1)])
  {
    NonNumericTokenIsPageOne();
  }

  /** `custom_options` replaces whatever session the chat had with a fresh one awaiting the link. */
  lemma CustomOptionsResets(st: map<int, Session>, chatId: int, from: User)
    ensures var r := Callback(st, chatId, "custom_options", from);
      && chatId in r.state && r.state[chatId] == Session(AwaitingCustomLink, None, None)
      && r.out == [Say(chatId, LINK_PROMPT)]
  {
  }

  /**
   * `custom_chat` and `custom_channel` need a non-empty link and a quantity:
   * without them they only send the error and change nothing; with them
   * `custom_chat` sweeps the custom links and forgets the session, and
   * `custom_channel` changes only the step and asks for the channel.
   */
  lemma CustomChoiceGuard(st: map<int, Session>, chatId: int, from: User)
    ensures var chat := Callback(st, chatId, "custom_chat", from);
            var chan := Callback(st, chatId, "custom_channel", from);
      && (!Ready(st, chatId) ==> chat == Reply(st, [Say(chatId, NOT_SET)]) && chan == Reply(st, [Say(chatId, NOT_SET)]))
      && (Ready(st, chatId) ==>
            && chatId !in chat.state
            && chat.out == CustomSweep(chatId, st[chatId].baseLink.value, st[chatId].quantity.value)
            && chatId in chan.state
            && chan.state[chatId] == Session(AwaitingChannel, st[chatId].baseLink, st[chatId].quantity)
            && chan.out == [Say(chatId, CHANNEL_PROMPT)])
  {
  }

  /** Commands, chats without a session, and chats that already chose are ignored. */
  lemma IgnoredTexts(st: map<int, Session>, chatId: int, text: string)
    requires Consistent(st)
    requires "/" <= text || chatId !in st || st[chatId].step == CustomChoiceMade
    ensures Message(st, chatId, text) == Reply(st, [])
  {
  }

  /** The link step stores the trimmed text, whatever it is, and asks for the quantity. */
  lemma LinkStep(st: map<int, Session>, chatId: int, text: string)
    requires Consistent(st) && !("/" <= text) && chatId in st && st[chatId].step == AwaitingCustomLink
    ensures var r := Message(st, chatId, text);
      && chatId in r.state && r.state[chatId] == Session(AwaitingCustomQuantity, Some(Trim(text)), None)
      && r.out == [Say(chatId, QUANTITY_PROMPT)]
  {
  }

  /**
   * The quantity step accepts exactly a text whose parseInt is positive; then
   * it stores that number and offers the chat/channel menu. Anything else only
   * sends the error and leaves the session as it was.
   */
  lemma QuantityStep(st: map<int, Session>, chatId: int, text: string)
    requires Consistent(st) && !("/" <= text) && chatId in st && st[chatId].step == AwaitingCustomQuantity
    ensures var r := Message(st, chatId, text); var p := JsParseInt(Trim(text));
      && (p.Some? && p.value > 0 ==>
            && chatId in r.state
            && r.state[chatId] == Session(CustomChoiceMade, st[chatId].baseLink, p)
            && r.out == [Send(Chat(chatId), CHOICE_PROMPT, CustomMenu)])
      && (!(p.Some? && p.value > 0) ==> r == Reply(st, [Say(chatId, INVALID_QUANTITY)]))
  {
  }

  /** The channel step sweeps the stored link and quantity into the trimmed channel and forgets the session. */
  lemma ChannelStep(st: map<int, Session>, chatId: int, text: string)
    requires Consistent(st) && !("/" <= text) && chatId in st && st[chatId].step == AwaitingChannel
    ensures var r := Message(st, chatId, text);
      && chatId !in r.state
      && r.out == ChannelSweep(chatId, st[chatId].baseLink.value, st[chatId].quantity.value, Trim(text))
      && st[chatId].quantity.value > 0 && st[chatId].baseLink.value != ""
  {
  }

  /**
   * The first part of the custom conversation: `custom_options`, a link text,
   * a quantity text that parses to a positive number. The chat then has the
   * trimmed link and the quantity stored, ready for the chat/channel choice.
   */
  lemma CustomSetup(chatId: int, from: User, link: string, qty: string)
    requires !("/" <= link) && !("/" <= qty)
    requires JsParseInt(Trim(qty)).Some? && JsParseInt(Trim(qty)).value > 0
    ensures var r1 := Callback(map[], chatId, "custom_options", from);
            var r2 := Message(r1.state, chatId, link);
      Message(r2.state, chatId, qty).state
        == map[chatId := Session(CustomChoiceMade, Some(Trim(link)), JsParseInt(Trim(qty)))]
  {
    var r1 := Callback(map[], chatId, "custom_options", from);
    CustomOptionsResets(map[], chatId, from);
    assert r1.state == map[chatId := Session(AwaitingCustomLink, None, None)];
    LinkStep(r1.state, chatId, link);
    var r2 := Message(r1.state, chatId, link);
    assert r2.state == map[chatId := Session(AwaitingCustomQuantity, Some(Trim(link)), None)];
    QuantityStep(r2.state, chatId, qty);
  }

  /**
   * The whole custom conversation from no session at all: `custom_options`, a
   * link text, a quantity text, `custom_chat`. When the trimmed link is not
   * empty and the quantity parses to a positive number, the session ends up
   * removed and the chat gets the custom sweep of that many links built on
   * the trimmed link.
   */
  lemma CustomChatConversation(chatId: int, from: User, link: string, qty: string)
    requires !("/" <= link) && !("/" <= qty)
    requires Trim(link) != "" && JsParseInt(Trim(qty)).Some? && JsParseInt(Trim(qty)).value > 0
    ensures var r1 := Callback(map[], chatId, "custom_options", from);
            var r2 := Message(r1.state, chatId, link);
            var r3 := Message(r2.state, chatId, qty);
            var r4 := Callback(r3.state, chatId, "custom_chat", from);
      && r4.state == map[]
      && r4.out == CustomSweep(chatId, Trim(link), JsParseInt(Trim(qty)).value)
  {
    CustomSetup(chatId, from, link, qty);
    var st := map[chatId := Session(CustomChoiceMade, Some(Trim(link)), JsParseInt(Trim(qty)))];
    CustomChoiceGuard(st, chatId, from);
    assert st - {chatId} == map[];
  }

  /**
   * The end of the channel conversation: with a link and a positive quantity
   * stored, `custom_channel` and then a channel text remove the session and
   * sweep into the trimmed channel.
   */
  lemma CustomChannelFinish(chatId: int, from: User, link: string, qty: int, channel: string)
    requires !("/" <= channel) && link != "" && qty > 0
    ensures var st := map[chatId := Session(CustomChoiceMade, Some(link), Some(qty))];
            var r4 := Callback(st, chatId, "custom_channel", from);
            var r5 := Message(r4.state, chatId, channel);
      && r5.state == map[]
      && r5.out == ChannelSweep(chatId, link, qty, Trim(channel))
  {
    ChannelChoice(chatId, from, link, qty);
    var st4 := map[chatId := Session(AwaitingChannel, Some(link), Some(qty))];
    ChannelStep(st4, chatId, channel);
    assert st4 - {chatId} == map[];
  }

  lemma ChannelChoice(chatId: int, from: User, link: string, qty: int)
    requires link != "" && qty > 0
    ensures var st := map[chatId := Session(CustomChoiceMade, Some(link), Some(qty))];
      Callback(st, chatId, "custom_channel", from).state == map[chatId := Session(AwaitingChannel, Some(link), Some(qty))]
  {
    var st := map[chatId := Session(CustomChoiceMade, Some(link), Some(qty))];
    CustomChoiceGuard(st, chatId, from);
  }

  /**
   * The whole custom channel conversation from no session at all:
   * `custom_options`, a link text, a quantity text, `custom_channel`, a
   * channel text. When the trimmed link is not empty and the quantity parses
   * to a positive number, the session ends up removed and the trimmed
   * channel gets the sweep of that many links built on the trimmed link.
   */
  lemma CustomChannelConversation(chatId: int, from: User, link: string, qty: string, channel: string)
    requires !("/" <= link) && !("/" <= qty) && !("/" <= channel)
    requires Trim(link) != "" && JsParseInt(Trim(qty)).Some? && JsParseInt(Trim(qty)).value > 0
    ensures var r1 := Callback(map[], chatId, "custom_options", from);
            var r2 := Message(r1.state, chatId, link);
            var r3 := Message(r2.state, chatId, qty);
            var r4 := Callback(r3.state, chatId, "custom_channel", from);
            var r5 := Message(r4.state, chatId, channel);
      && r5.state == map[]
      && r5.out == ChannelSweep(chatId, Trim(link), JsParseInt(Trim(qty)).value, Trim(channel))
  {
    CustomSetup(chatId, from, link, qty);
    CustomChannelFinish(chatId, from, Trim(link), JsParseInt(Trim(qty)).value, channel);
  }
}
