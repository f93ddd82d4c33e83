/**
 * c.js: the same four-option bot with a different custom flow. After the
 * link the bot offers chat or channel straight away; only the channel path
 * asks for a quantity (the chat path sweeps `maxQuantity`, 100000 unless a
 * quantity was entered), and then asks for the channel. Messages go to the
 * transport directly, without the retry policy.
 */
module GiftBotC {
  import opened Wrappers
  import opened Text
  import opened NumParse
  import opened Messages
  import opened Paging
  import opened Render
  import opened Sweep
  import opened Pages

  /** The pause after every block of the chat sweeps. */
  const CHAT_DELAY_MS := 100
  /** The pause after every block of the channel sweep (DELAY_MS). */
  const DELAY_MS := 3000

  const LINK_PROMPT := "Please send your custom gift link template (e.g., http://t.me/nft/Jackinthemall-):"
  const CHOICE_PROMPT := "Choose how you want to send your custom gift links:"
  const QUANTITY_PROMPT := "Please enter the quantity (e.g., 100000 or 500000):"
  const INVALID_QUANTITY := "Invalid quantity. Please enter a positive number."
  const CHANNEL_PROMPT := "Please enter the channel ID (or @channelusername) where the bot is admin:"
  const NOT_SET := "Custom link not set. Please try again."
  const DEFAULT_ANNOUNCE := "Starting to send all gift links. This may take a while."
  const CUSTOM_ANNOUNCE := "Sending all custom gift links in chat. This may take a while."
  const DONE := "Done posting to channel."

  function ChannelAnnounce(channel: string): string {
    "Posting to channel " + channel + ". Please ensure the bot is admin there."
  }

  const PAGE_HEADER := HeaderStyle("> *Gifts from \U{1F381} ", Plain, "*")
  const SWEEP_HEADER := HeaderStyle("> *", Keycapped, "*")
  const JACK_LINES := LineStyle(true, JACK_TEMPLATE)

  // ---------------------------------------------------------------------------
  // Pages and sweeps.

  function PageEvent(chatId: int, start: int): Event {
    JsPageEvent(chatId, PAGE_HEADER, JACK_LINES, DEFAULT_PREFIX, start)
  }

  function DefaultSweep(chatId: int): seq<Event> {
    [Send(Chat(chatId), DEFAULT_ANNOUNCE, NoMarkup)]
    + SweepEvents(Chat(chatId), SWEEP_HEADER, JACK_LINES, DEFAULT_MAX, CHAT_DELAY_MS)
  }

  function CustomSweep(chatId: int, baseLink: string, maxQuantity: int): seq<Event> {
    [Send(Chat(chatId), CUSTOM_ANNOUNCE, NoMarkup)]
    + SweepEvents(Chat(chatId), SWEEP_HEADER, LineStyle(true, baseLink), maxQuantity, CHAT_DELAY_MS)
  }

  function ChannelSweep(chatId: int, baseLink: string, maxQuantity: int, channel: string): seq<Event> {
    [Send(Chat(chatId), ChannelAnnounce(channel), NoMarkup)]
    + SweepEvents(Channel(channel), SWEEP_HEADER, LineStyle(true, baseLink), maxQuantity, DELAY_MS)
    + [Send(Chat(chatId), DONE, NoMarkup)]
  }

  /** sendDefaultBlock. */
  method SendDefaultBlock(chatId: int, start: int) returns (e: Event)
    ensures e == PageEvent(chatId, start)
  {
    e := SendJsPage(chatId, PAGE_HEADER, JACK_LINES, DEFAULT_PREFIX, start);
  }

  /** sendAllDefaultGifts. */
  method SendAllDefaultGifts(chatId: int) returns (out: seq<Event>)
    ensures out == DefaultSweep(chatId)
  {
    out := [Send(Chat(chatId), DEFAULT_ANNOUNCE, NoMarkup)];
    var log := RunSweep(Chat(chatId), SWEEP_HEADER, JACK_LINES, DEFAULT_MAX, CHAT_DELAY_MS);
    out := out + log;
  }

  /** sendAllCustomGifts. */
  method SendAllCustomGifts(chatId: int, baseLink: string, maxQuantity: int) returns (out: seq<Event>)
    ensures out == CustomSweep(chatId, baseLink, maxQuantity)
  {
    out := [Send(Chat(chatId), CUSTOM_ANNOUNCE, NoMarkup)];
    var log := RunSweep(Chat(chatId), SWEEP_HEADER, LineStyle(true, baseLink), maxQuantity, CHAT_DELAY_MS);
    out := out + log;
  }

  /** sendAllCustomGiftsToChannel. */
  method SendAllCustomGiftsToChannel(chatId: int, baseLink: string, maxQuantity: int, channel: string)
    returns (out: seq<Event>)
    ensures out == ChannelSweep(chatId, baseLink, maxQuantity, channel)
  {
    out := [Send(Chat(chatId), ChannelAnnounce(channel), NoMarkup)];
    var log := RunSweep(Channel(channel), SWEEP_HEADER, LineStyle(true, baseLink), maxQuantity, DELAY_MS);
    out := out + log + [Send(Chat(chatId), DONE, NoMarkup)];
  }

  /**
   * The custom chat sweep announces, then sends the j-th block of links
   * 1..maxQuantity to the chat as message 2j+1, each followed by a 100 ms
   * pause.
   */
  lemma ChatSweepPacing(chatId: int, baseLink: string, maxQuantity: int)
    ensures var chat := CustomSweep(chatId, baseLink, maxQuantity);
      && |chat| == 2 * Count(maxQuantity) + 1
      && chat[0] == Send(Chat(chatId), CUSTOM_ANNOUNCE, NoMarkup)
      && (forall j :: 0 <= j < Count(maxQuantity) ==>
            && chat[2 * j + 1] == Send(Chat(chatId), BlockText(SWEEP_HEADER, LineStyle(true, baseLink), RangeAt(maxQuantity, j)), NoMarkup)
            && chat[2 * j + 2] == Delay(CHAT_DELAY_MS))
      && (forall j :: 0 < j < |chat| ==> (chat[j].Send? && chat[j].to == Chat(chatId)) || chat[j] == Delay(CHAT_DELAY_MS))
  {
    var chat := CustomSweep(chatId, baseLink, maxQuantity);
    var inChat := SweepEvents(Chat(chatId), SWEEP_HEADER, LineStyle(true, baseLink), maxQuantity, CHAT_DELAY_MS);
    SweepShape(Chat(chatId), SWEEP_HEADER, LineStyle(true, baseLink), maxQuantity, CHAT_DELAY_MS);
    assert forall j :: 0 < j < |chat| ==> chat[j] == inChat[j - 1];
  }

  /**
   * The channel sweep announces in the chat, sends the j-th block to the
   * channel as message 2j+1 with a 3000 ms pause after each, and ends with
   * "Done posting to channel." in the chat.
   */
  lemma ChannelSweepPacing(chatId: int, baseLink: string, maxQuantity: int, channel: string)
    ensures var chan := ChannelSweep(chatId, baseLink, maxQuantity, channel);
      && |chan| == 2 * Count(maxQuantity) + 2
      && chan[0] == Send(Chat(chatId), ChannelAnnounce(channel), NoMarkup)
      && chan[|chan| - 1] == Send(Chat(chatId), DONE, NoMarkup)
      && (forall j :: 0 <= j < Count(maxQuantity) ==>
            && chan[2 * j + 1] == Send(Channel(channel), BlockText(SWEEP_HEADER, LineStyle(true, baseLink), RangeAt(maxQuantity, j)), NoMarkup)
            && chan[2 * j + 2] == Delay(DELAY_MS))
      && (forall j :: 0 < j < |chan| - 1 ==> (chan[j].Send? && chan[j].to == Channel(channel)) || chan[j] == Delay(DELAY_MS))
  {
    var chan := ChannelSweep(chatId, baseLink, maxQuantity, channel);
    var inChannel := SweepEvents(Channel(channel), SWEEP_HEADER, LineStyle(true, baseLink), maxQuantity, DELAY_MS);
    SweepShape(Channel(channel), SWEEP_HEADER, LineStyle(true, baseLink), maxQuantity, DELAY_MS);
    assert forall j :: 0 < j < |chan| - 1 ==> chan[j] == inChannel[j - 1];
  }

  // ---------------------------------------------------------------------------
  // The conversation state.

  datatype Step = AwaitingCustomLink | CustomChoiceMade | AwaitingQuantity | AwaitingChannel

  /** `state[chatId]`: the step and the fields set so far (absent fields are `undefined`). */
  datatype Session = Session(step: Step, baseLink: Option<string>, maxQuantity: Option<int>)

  /** `state[chatId] && state[chatId].baseLink` */
  predicate HasLink(st: map<int, Session>, chatId: int) {
    chatId in st && Truthy(st[chatId].baseLink)
  }

  /** `maxQuantity || DEFAULT_MAX` */
  function QuantityOrDefault(q: Option<int>): int {
    match q
    case Some(n) => if n != 0 then n else DEFAULT_MAX
    case None => DEFAULT_MAX
  }

  /** Which fields a session has at each step. */
  predicate SessionOk(s: Session) {
    match s.step
    case AwaitingCustomLink => s.baseLink.None? && s.maxQuantity.None?
    case CustomChoiceMade => s.baseLink.Some? && s.maxQuantity.Some? && s.maxQuantity.value > 0
    case AwaitingQuantity => Truthy(s.baseLink) && s.maxQuantity.Some? && s.maxQuantity.value > 0
    case AwaitingChannel => Truthy(s.baseLink) && s.maxQuantity.Some? && s.maxQuantity.value > 0
  }

  predicate Consistent(st: map<int, Session>) {
    forall id :: id in st ==> SessionOk(st[id])
  }

  /** The new state and the events of one handler call. */
  datatype Reply = Reply(state: map<int, Session>, out: seq<Event>)

  function Say(chatId: int, text: string): Event {
    Send(Chat(chatId), text, NoMarkup)
  }

  /**
   * The `callback_query` handler. A button press keeps every session's
   * fields consistent with its step and leaves every other chat's session as
   * it was.
   */
  function Callback(st: map<int, Session>, chatId: int, data: string, from: User): (r: Reply)
    ensures Consistent(st) ==> Consistent(r.state)
    ensures forall c :: c != chatId ==> (c in r.state <==> c in st) && (c in st ==> r.state[c] == st[c])
  {
    if DEFAULT_PREFIX <= data then Reply(st, [PageEvent(chatId, JsTokenStart(data, 2))])
    else if data == "info" then Reply(st, [Say(chatId, JsInfoText(from))])
    else if data == "send_all" then Reply(st, DefaultSweep(chatId))
    else if data == "custom_options" then
      Reply(st[chatId := Session(AwaitingCustomLink, None, None)], [Say(chatId, LINK_PROMPT)])
    else if data == "custom_chat" then
      if HasLink(st, chatId) then
        Reply(st - {chatId}, CustomSweep(chatId, st[chatId].baseLink.value, QuantityOrDefault(st[chatId].maxQuantity)))
      else Reply(st, [Say(chatId, NOT_SET)])
    else if data == "custom_channel" then
      if HasLink(st, chatId) then
        Reply(st[chatId := st[chatId].(step := AwaitingQuantity)], [Say(chatId, QUANTITY_PROMPT)])
      else Reply(st, [Say(chatId, NOT_SET)])
    else Reply(st, [])
  }

  /**
   * The `message` handler for free text. A message keeps every session's
   * fields consistent with its step and leaves every other chat's session as
   * it was.
   */
  function Message(st: map<int, Session>, chatId: int, text: string): (r: Reply)
    requires Consistent(st)
    ensures Consistent(r.state)
    ensures forall c :: c != chatId ==> (c in r.state <==> c in st) && (c in st ==> r.state[c] == st[c])
  {
    if "/" <= text || chatId !in st then Reply(st, [])
    else
      var s := st[chatId];
      match s.step
      case AwaitingCustomLink =>
        Reply(st[chatId := s.(baseLink := Some(Trim(text)), maxQuantity := Some(DEFAULT_MAX), step := CustomChoiceMade)],
              [Send(Chat(chatId), CHOICE_PROMPT, CustomMenu)])
      case AwaitingQuantity =>
        (match JsParseInt(Trim(text))
         case Some(qty) =>
           if qty <= 0 then Reply(st, [Say(chatId, INVALID_QUANTITY)])
           else Reply(st[chatId := s.(maxQuantity := Some(qty), step := AwaitingChannel)], [Say(chatId, CHANNEL_PROMPT)])
         case None => Reply(st, [Say(chatId, INVALID_QUANTITY)]))
      case CustomChoiceMade => Reply(st, [])
      case AwaitingChannel =>
        Reply(st - {chatId}, ChannelSweep(chatId, s.baseLink.value, s.maxQuantity.value, Trim(text)))
  }

  class Bot {
    /** `state`, keyed by chat id. */
    var state: map<int, Session>

    predicate Valid()
      reads this
    {
      Consistent(state)
    }

    constructor ()
      ensures Valid() && state == map[]
    {
      state := map[];
    }

    method OnCallback(chatId: int, data: string, from: User) returns (out: seq<Event>)
      requires Valid()
      modifies this
      ensures Valid()
      ensures Reply(state, out) == Callback(old(state), chatId, data, from)
    {
      if DEFAULT_PREFIX <= data {
        var start := JsTokenStart(data, 2);
        var e := SendDefaultBlock(chatId, start);
        out := [e];
      } else if data == "info" {
        out := [Say(chatId, JsInfoText(from))];
      } else if data == "send_all" {
        out := SendAllDefaultGifts(chatId);
      } else if data == "custom_options" {
        state := state[chatId := Session(AwaitingCustomLink, None, None)];
        out := [Say(chatId, LINK_PROMPT)];
      } else if data == "custom_chat" {
        if chatId in state && Truthy(state[chatId].baseLink) {
          var bound := QuantityOrDefault(state[chatId].maxQuantity);
          out := SendAllCustomGifts(chatId, state[chatId].baseLink.value, bound);
          state := state - {chatId};
        } else {
          out := [Say(chatId, NOT_SET)];
        }
      } else if data == "custom_channel" {
        if chatId in state && Truthy(state[chatId].baseLink) {
          state := state[chatId := state[chatId].(step := AwaitingQuantity)];
          out := [Say(chatId, QUANTITY_PROMPT)];
        } else {
          out := [Say(chatId, NOT_SET)];
        }
      } else {
        out := [];
      }
    }

    method OnMessage(chatId: int, text: string) returns (out: seq<Event>)
      requires Valid()
      modifies this
      ensures Valid()
      ensures Reply(state, out) == Message(old(state), chatId, text)
    {
      out := [];
      if "/" <= text || chatId !in state {
        return;
      }
      var s := state[chatId];
      if s.step == AwaitingCustomLink {
        state := state[chatId := s.(baseLink := Some(Trim(text)), maxQuantity := Some(DEFAULT_MAX))];
        out := [Send(Chat(chatId), CHOICE_PROMPT, CustomMenu)];
        state := state[chatId := state[chatId].(step := CustomChoiceMade)];
      } else if s.step == AwaitingQuantity {
        var parsed := JsParseInt(Trim(text));
        if parsed.None? || parsed.value <= 0 {
          out := [Say(chatId, INVALID_QUANTITY)];
        } else {
          state := state[chatId := s.(maxQuantity := Some(parsed.value), step := AwaitingChannel)];
          out := [Say(chatId, CHANNEL_PROMPT)];
        }
      } else if s.step == AwaitingChannel {
        var channel := Trim(text);
        out := SendAllCustomGiftsToChannel(chatId, s.baseLink.value, s.maxQuantity.value, channel);
        state := state - {chatId};
      }
    }
  }

  // ---------------------------------------------------------------------------
  // What the handlers promise.

  /** The link step stores the trimmed link and the default quantity and offers the menu; it asks no quantity. */
  lemma LinkStep(st: map<int, Session>, chatId: int, text: string)
    requires Consistent(st) && !("/" <= text) && chatId in st && st[chatId].step == AwaitingCustomLink
    ensures var r := Message(st, chatId, text);
      && chatId in r.state && r.state[chatId] == Session(CustomChoiceMade, Some(Trim(text)), Some(DEFAULT_MAX))
      && r.out == [Send(Chat(chatId), CHOICE_PROMPT, CustomMenu)]
  {
  }

  /**
   * `custom_chat` needs only a non-empty link: then it sweeps `maxQuantity`
   * links, which in every consistent state is the stored quantity itself,
   * and forgets the session. `custom_channel` with a link moves only the step
   * to the quantity question. Without a link both just send the error.
   */
  lemma CustomChoiceGuard(st: map<int, Session>, chatId: int, from: User)
    requires Consistent(st)
    ensures var chat := Callback(st, chatId, "custom_chat", from);
            var chan := Callback(st, chatId, "custom_channel", from);
      && (!HasLink(st, chatId) ==> chat == Reply(st, [Say(chatId, NOT_SET)]) && chan == Reply(st, [Say(chatId, NOT_SET)]))
      && (HasLink(st, chatId) ==>
            && chatId !in chat.state
            && chat.out == CustomSweep(chatId, st[chatId].baseLink.value, st[chatId].maxQuantity.value)
            && chatId in chan.state
            && chan.state[chatId] == st[chatId].(step := AwaitingQuantity)
            && chan.out == [Say(chatId, QUANTITY_PROMPT)])
  {
  }

  /** Commands, chats without a session, and chats at the menu are ignored. */
  lemma IgnoredTexts(st: map<int, Session>, chatId: int, text: string)
    requires Consistent(st)
    requires "/" <= text || chatId !in st || st[chatId].step == CustomChoiceMade
    ensures Message(st, chatId, text) == Reply(st, [])
  {
  }

  /**
   * The quantity step accepts exactly a text whose parseInt is positive: it
   * stores it as `maxQuantity` and asks for the channel. Anything else only
   * sends the error and leaves the session as it was.
   */
  lemma QuantityStep(st: map<int, Session>, chatId: int, text: string)
    requires Consistent(st) && !("/" <= text) && chatId in st && st[chatId].step == AwaitingQuantity
    ensures var r := Message(st, chatId, text); var p := JsParseInt(Trim(text));
      && (p.Some? && p.value > 0 ==>
            && chatId in r.state
            && r.state[chatId] == Session(AwaitingChannel, st[chatId].baseLink, p)
            && r.out == [Say(chatId, CHANNEL_PROMPT)])
      && (!(p.Some? && p.value > 0) ==> r == Reply(st, [Say(chatId, INVALID_QUANTITY)]))
  {
  }

  /** The channel step sweeps the stored link and quantity into the trimmed channel and forgets the session. */
  lemma ChannelStep(st: map<int, Session>, chatId: int, text: string)
    requires Consistent(st) && !("/" <= text) && chatId in st && st[chatId].step == AwaitingChannel
    ensures var r := Message(st, chatId, text);
      && chatId !in r.state
      && r.out == ChannelSweep(chatId, st[chatId].baseLink.value, st[chatId].maxQuantity.value, Trim(text))
  {
  }

  /** A page button sends the page its token names, and changes no session. */
  lemma PageButton(st: map<int, Session>, chatId: int, n: int, from: User)
    ensures Callback(st, chatId, Token(DEFAULT_PREFIX, n), from) == Reply(st, [PageEvent(chatId, n)])
  {
    DefaultTokenRoundTrip(n);
  }

  /** `custom_options` replaces whatever session the chat had with a fresh one awaiting the link. */
  lemma CustomOptionsResets(st: map<int, Session>, chatId: int, from: User)
    ensures var r := Callback(st, chatId, "custom_options", from);
      && chatId in r.state && r.state[chatId] == Session(AwaitingCustomLink, None, None)
      && r.out == [Say(chatId, LINK_PROMPT)]
  {
  }

  /**
   * The first half of the channel conversation: `custom_options`, a link text
   * whose trim is not empty, `custom_channel`. The chat then awaits the
   * quantity, with the trimmed link and the default quantity stored.
   */
  lemma ChannelSetup(chatId: int, from: User, link: string)
    requires !("/" <= link) && Trim(link) != ""
    ensures var r1 := Callback(map[], chatId, "custom_options", from);
            var r2 := Message(r1.state, chatId, link);
      Callback(r2.state, chatId, "custom_channel", from).state
        == map[chatId := Session(AwaitingQuantity, Some(Trim(link)), Some(DEFAULT_MAX))]
  {
    var r1 := Callback(map[], chatId, "custom_options", from);
    CustomOptionsResets(map[], chatId, from);
    assert r1.state == map[chatId := Session(AwaitingCustomLink, None, None)];
    LinkStep(r1.state, chatId, link);
    var r2 := Message(r1.state, chatId, link);
    assert r2.state == map[chatId := Session(CustomChoiceMade, Some(Trim(link)), Some(DEFAULT_MAX))];
    CustomChoiceGuard(r2.state, chatId, from);
  }

  /**
   * The second half of the channel conversation: a quantity text that parses
   * to a positive number, then a channel text. The session is removed and
   * the trimmed channel gets the sweep.
   */
  lemma ChannelFinish(chatId: int, link: string, qty: string, channel: string)
    requires !("/" <= qty) && !("/" <= channel)
    requires link != "" && JsParseInt(Trim(qty)).Some? && JsParseInt(Trim(qty)).value > 0
    ensures var st := map[chatId := Session(AwaitingQuantity, Some(link), Some(DEFAULT_MAX))];
            var r4 := Message(st, chatId, qty);
            var r5 := Message(r4.state, chatId, channel);
      && r5.state == map[]
      && r5.out == ChannelSweep(chatId, link, JsParseInt(Trim(qty)).value, Trim(channel))
  {
    var st := map[chatId := Session(AwaitingQuantity, Some(link), Some(DEFAULT_MAX))];
    QuantityStep(st, chatId, qty);
    var r4 := Message(st, chatId, qty);
    assert r4.state == map[chatId := Session(AwaitingChannel, Some(link), JsParseInt(Trim(qty)))];
    ChannelStep(r4.state, chatId, channel);
    assert r4.state - {chatId} == map[];
  }

  /**
   * The whole channel conversation from no session at all: `custom_options`,
   * a link text, `custom_channel`, a quantity text, a channel text. When the
   * trimmed link is not empty and the quantity parses to a positive number,
   * the session ends up removed and the trimmed channel gets the sweep of
   * that many links built on the trimmed link.
   */
  lemma ChannelConversation(chatId: int, from: User, link: string, qty: string, channel: string)
    requires !("/" <= link) && !("/" <= qty) && !("/" <= channel)
    requires Trim(link) != "" && JsParseInt(Trim(qty)).Some? && JsParseInt(Trim(qty)).value > 0
    ensures var r1 := Callback(map[], chatId, "custom_options", from);
            var r2 := Message(r1.state, chatId, link);
            var r3 := Callback(r2.state, chatId, "custom_channel", from);
            var r4 := Message(r3.state, chatId, qty);
            var r5 := Message(r4.state, chatId, channel);
      && r5.state == map[]
      && r5.out == ChannelSweep(chatId, Trim(link), JsParseInt(Trim(qty)).value, Trim(channel))
  {
    ChannelSetup(chatId, from, link);
    ChannelFinish(chatId, Trim(link), qty, channel);
  }

  /**
   * The whole custom chat conversation from no session at all:
   * `custom_options`, a link text whose trim is not empty, `custom_chat`.
   * No quantity is asked: the session is removed and the chat gets the sweep
   * of the default 100000 links built on the trimmed link.
   */
  lemma ChatConversation(chatId: int, from: User, link: string)
    requires !("/" <= link) && Trim(link) != ""
    ensures var r1 := Callback(map[], chatId, "custom_options", from);
            var r2 := Message(r1.state, chatId, link);
            var r3 := Callback(r2.state, chatId, "custom_chat", from);
      && r3.state == map[]
      && r3.out == CustomSweep(chatId, Trim(link), DEFAULT_MAX)
  {
    var r1 := Callback(map[], chatId, "custom_options", from);
    CustomOptionsResets(map[], chatId, from);
    assert r1.state == map[chatId := Session(AwaitingCustomLink, None, None)];
    LinkStep(r1.state, chatId, link);
    var r2 := Message(r1.state, chatId, link);
    assert r2.state == map[chatId := Session(CustomChoiceMade, Some(Trim(link)), Some(DEFAULT_MAX))];
    CustomChoiceGuard(r2.state, chatId, from);
    assert r2.state - {chatId} == map[];
  }
}
