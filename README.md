# Gift-links bot: a verified model of its core

Four versions of one Telegram bot hand out numbered gift links
(`http://t.me/nft/JackintheBox-1` … `-100000`, or links built on a template the
user sends):

- `f.js`: the four-option bot with a rate-limit retry wrapper.
- `c.js`: the same bot with a different custom-link conversation.
- `b.js` and `bbc.py`: a two-option paging bot, in JavaScript and Python.

This project models the deterministic core of each version in Dafny and proves
what it promises:

- **page arithmetic**: where a block of 100 links ends, when the Next and Prev
  buttons appear, the `default_paginated_<n>` / `jack_<n>` tokens they carry,
  and how a pressed token is read back (JavaScript `parseInt` of
  `split("_")[i]` with NaN → 1; Python `int()` with ValueError/IndexError → 1);
- **rendering**: `numberToEmoji` (digits to keycap glyphs), the header line, one
  link line per index, the JavaScript `text += line + "\n"` loop and the Python
  `"\n".join(lines)`;
- **sweeps**: the `for (start = 1; start <= bound; start += 100)` loops that
  send every block to a chat or channel with a pause after each, as a log of
  `Send`/`Delay` events;
- **conversation state**: the `state` map of `f.js` and of `c.js`, each a
  `class Bot` whose `OnCallback`/`OnMessage` methods update it in place,
  specified by pure `Callback`/`Message` functions, with lemmas for every step
  of each flow and for whole conversations;
- **rate-limit retry** (`f.js`): the transport is a finite sequence of
  outcomes; each HTTP 429 waits `retry_after` (or 2) seconds and resends the
  same message, and the first other outcome ends the call.

Modules: `Wrappers`, `Text`, `NumParse`, `Emoji`, `Messages`, `Paging`,
`Render`, `Sweep`, `Retry`, `Pages` are shared; `GiftBotF` (f.js), `GiftBotC`
(c.js), `JackBotJs` (b.js) and `JackBotPy` (bbc.py) model one file each.

Behaviours of the code worth noting:

- a page whose start is past 100000 is sent with its header and no link lines
  (`PageLines`, `JsPageContents`);
- a page token is read with `parseInt`, so `jack_12x` opens page 12 in `b.js`,
  while `bbc.py` opens page 1 (`TrailingTextDisagrees`); a negative number
  passes through unchanged (`NegativeTokenPassesThrough`);
- the pause follows every block of a sweep, the last one included (`SweepShape`);
- a rejected quantity leaves the session as it was; it is not deleted
  (`QuantityStep`);
- in `c.js`, `custom_chat` needs only the link and sweeps `maxQuantity ||
  100000` links (`GiftBotC.CustomChoiceGuard`);
- `bbc.py`'s `None` markup never occurs with the bound 100000, because every
  page has a Next or a Prev button (`EveryPageHasAButton`).

## Model

| member | source | states |
|---|---|---|
| Text.IntToString | f.js:95 | the decimal text of an integer: digits only, a leading `-` exactly for negative values, ending in a digit |
| Text.Split | f.js:167 | `split("_")` yields at least one piece and no piece contains the separator |
| Text.SplitJoin | bbc.py:54 | splitting a join at its separator gives back the pieces when no piece contains it |
| Text.JoinSplit | bbc.py:82 | joining the pieces of a split gives back the text: no character is lost |
| Text.TerminatedIsJoin | f.js:88-91 | the lines each followed by `\n` are the lines joined by `\n` with an empty last piece |
| Text.TrimStart | f.js:214 | `trim` drops only whitespace from the front: it is never longer than its input, every dropped character is whitespace, and the text it keeps starts with a non-space |
| Text.TrimStartIsSuffix | f.js:214 | what the front trim keeps is the tail of its input |
| Text.TrimEnd | f.js:214 | `trim` drops only whitespace from the back; what remains is a prefix ending in a non-space |
| Text.TrimKeepsMiddle | f.js:214 | `msg.text.trim()` is the middle of the text: everything before it and after it is JavaScript whitespace, and it neither starts nor ends with whitespace |
| Text.DigitsValueOfNatToString | f.js:95 | reading the decimal text of a natural number back gives that number |
| NumParse.DigitPrefix | f.js:167 | `parseInt` reads the longest run of digits at the start of the text |
| NumParse.PyDigits | bbc.py:82 | a literal `int()` accepts holds only digits and underscores, and every non-empty run of digits is accepted |
| NumParse.PyDigitsMeansUnderscoresBetweenDigits | bbc.py:82 | `int()`'s literal check holds exactly for a non-empty text in which every character is a digit or an underscore with a digit on each side |
| NumParse.WithoutUnderscores | bbc.py:82 | dropping the underscores of a digits-and-underscores literal leaves only digits; text without underscores is unchanged |
| NumParse.WithoutUnderscoresKeepsTheRest | bbc.py:82 | dropping the underscores leaves no underscore, shortens the text by their number, and keeps every other character in order, each moved back by the underscores before it |
| NumParse.JsParseIntReadsDigitRun | f.js:167-168 | `parseInt` is NaN exactly when no digit follows the leading whitespace and sign; otherwise it is the signed value of the longest digit run there |
| NumParse.PyIntAcceptsLiterals | bbc.py:81-84 | `int()` raises ValueError unless the text without surrounding whitespace and sign is a non-empty literal of digits with single underscores between digits; an accepted text gives the signed value of its digits |
| NumParse.JsParseIntOfIntToString | f.js:167-168 | `parseInt` reads back every integer written by a template literal |
| NumParse.PyIntOfIntToString | bbc.py:81-82 | `int()` reads back every integer written by an f-string |
| NumParse.IntToStringInjective | f.js:95 | distinct integers give distinct token numbers |
| NumParse.PyIntAcceptedImpliesJsAgrees | bbc.py:81-84 | on text without underscores, in which every Python whitespace character is also JavaScript whitespace, whatever `int()` accepts `parseInt` reads to the same value |
| NumParse.LettersAreNotANumber | f.js:167-168 | `parseInt("abc")` is NaN |
| NumParse.ParsersDisagreeOnTrailingText | bbc.py:81-84 | `parseInt("12x")` is 12, while `int("12x")` raises ValueError |
| NumParse.PaddedTextTrims | f.js:214 | `trim` removes the spaces around a word |
| Emoji.NumberToEmoji | f.js:13-27 | the glyph text reads back as the number's decimal text |
| Emoji.Keycaps | f.js:26 | every output character is an input character or part of a keycap glyph |
| Emoji.KeycapsAppend | f.js:26 | the map is per character: it distributes over concatenation |
| Emoji.KeycapsWithoutDigits | f.js:26 | characters other than digits pass through unchanged |
| Emoji.UnkeycapKeycaps | f.js:13-27 | the decimal text is recoverable from the glyph text |
| Emoji.KeycapsInjective | c.js:14-28 | different texts give different glyph texts |
| Emoji.NumberToEmojiInjective | f.js:13-27 | different numbers give different glyph texts |
| Emoji.NumberToEmojiNegative | f.js:26 | a negative number keeps its `-` in front of the glyphs of its magnitude |
| Paging.BlockEnd | f.js:87 | `Math.min(start + 99, max)`: the page ends at the bound or after 100 indices, whichever comes first, and never past either |
| Paging.NextStart | f.js:94-96 | a Next button exists exactly when the page ends before the bound, and it carries the start 100 later, which is within the bound |
| Paging.PrevStart | f.js:97-99 | a Prev button exists exactly when start > 1, and it carries an earlier start at most 100 back: 1 or start - 100 |
| Paging.NavButtons | f.js:93-100 | the row holds at most two buttons, and every button's data starts with the prefix |
| Paging.JsTokenStartReadsDigitRun | f.js:166-168 | the page read from a token is 1 when the piece at the index is missing or has no digit after its leading whitespace and sign, and otherwise the signed value of that digit run |
| Paging.PyTokenStartReadsLiteral | bbc.py:79-84 | the page read from a token is 1 when the piece at the index is missing or, stripped of whitespace and sign, is not a digit literal with underscores only between digits; otherwise it is the signed value of that literal's digits |
| Paging.LoopGuard | f.js:111 | the sweep loop runs exactly while `start = 1 + 100k` is within the bound, so ceil(bound/100) times |
| Paging.RangesPartition | f.js:111-112 | the sweep's blocks are non-empty, at most 100 long, increasing, adjacent, from 1 to exactly the bound, and every index lies in exactly one block |
| Paging.RangesOf250 | c.js:109-110 | a sweep of 250 links sends the blocks 1-100, 101-200, 201-250 |
| Paging.NavButtonsShape | f.js:93-100 | Next appears iff the page ends before the bound and carries `<prefix><end+1>`; Prev appears iff start > 1 and carries `<prefix><max(1, start-100)>`; Next comes first |
| Paging.PrevUndoesNext | f.js:93-100 | pressing Next then Prev returns to a page that started at 1 or later |
| Paging.NextUndoesPrev | f.js:93-100 | for 100 < start ≤ bound, pressing Prev then Next returns to the page |
| Paging.NextWalksSweep | f.js:94-95 | pressing Next from page 1 visits exactly the blocks of a sweep, in order |
| Paging.DefaultPrefixPieces | f.js:167 | `split("_")` of a `default_paginated_` token starts with the pieces `default`, `paginated` |
| Paging.JackPrefixPieces | b.js:54 | `split('_')` of a `jack_` token starts with the piece `jack` |
| Paging.DefaultTokenPiece | f.js:166-167 | a `default_paginated_` token always has a third piece, the text after the prefix up to the next `_` |
| Paging.JackTokenPiece | bbc.py:79-84 | a `jack_` token always has a second piece, so the IndexError branch is never taken |
| Paging.DefaultTokenRoundTrip | f.js:166-169 | the number a `default_paginated_` button carries is the number read back |
| Paging.JackTokenRoundTrip | b.js:52-56 | the number a `jack_` button carries is read back by `parseInt` and by `int()` alike |
| Paging.JackButtonTargets | b.js:78-85 | every `jack_` button starts with the prefix and reads back, in both bots, as the page it leads to |
| Paging.NegativeTokenPassesThrough | f.js:167-168 | only NaN falls back to 1: `default_paginated_-5` reads as -5 |
| Paging.NonNumericTokenIsPageOne | f.js:166-168 | `default_paginated_abc` takes the page branch and reads as page 1 |
| Paging.TrailingTextToken | bbc.py:81-84 | `jack_12x` reads as 12 with `parseInt` and as 1 with `int()` |
| Render.RenderJsBlock | f.js:88-91 | the `text +=` loop yields the header and every line of start..end, each followed by `\n` |
| Render.RenderPyLines | bbc.py:51-53 | the `append` loop yields the header followed by one line per index of start..end |
| Render.LinesAppend | f.js:114-116 | the lines of two adjacent ranges make the lines of the range that spans both |
| Render.LinesCount | b.js:73-75 | one line per index: max(0, end - start + 1) lines, the k-th for index start + k |
| Render.PlainLinkLine | b.js:74 | without keycaps a line is the template followed by the index |
| Render.KeycapPrefixPiece | f.js:90 | the first space-separated piece of a keycapped line is the index's glyph text |
| Render.PlainLineInjective | b.js:74 | the same template with different indices gives different lines |
| Render.LinkLineInjective | f.js:90 | different indices give different lines, with or without keycaps |
| Render.LinesDistinct | f.js:89-91 | no line of a block is repeated |
| Render.LinesWithoutNewline | f.js:90 | with a template free of newlines no line contains a newline |
| Render.JsBlockIsPyBlockPlusNewline | bbc.py:51-54 | the JavaScript text is the Python text plus one final newline |
| Render.JsBlockSplit | f.js:88-91 | for a header and lines without newlines, splitting the JavaScript text at newlines gives back the header, the lines and an empty last piece |
| Render.PyBlockSplit | bbc.py:54 | for a header and lines without newlines, splitting the Python text at newlines gives back the header and the lines |
| Render.PageLines | f.js:87-91 | a page holds at most 100 lines, all for indices start..100000, and none once start is past 100000 |
| Sweep.RunSweep | f.js:111-119 | the loop sends exactly the rendered blocks of the sweep, each followed by its pause |
| Sweep.PacedAt | f.js:117-118 | a paced log has two events per block: the send to the destination, then the pause |
| Sweep.SweepShape | f.js:111-119 | a sweep sends ceil(bound/100) blocks, all to one destination, the j-th carrying the j-th block of the partition, each followed by the pause |
| Sweep.BodyOfBlock | f.js:113-116 | for a header and template without newlines, the lines of a block text after its header are exactly the block's link lines |
| Sweep.DeliveredPrefix | f.js:111-119 | the first k blocks sent deliver the link lines 1..min(100k, bound), in order |
| Sweep.SweepDeliversEveryLinkOnce | c.js:123-131 | for a header and template without newlines, read back out of the sent messages, a sweep delivers the link lines for 1..bound in order, bound of them, all different |
| Retry.WaitSeconds | f.js:41 | `retry_after || 2`: never zero; the given value unless it is absent or zero, and 2 when it is absent or zero |
| Retry.RetrySpec | f.js:35-49 | the recursive policy uses at most the outcomes it is given; a call still pending made two events per outcome used, and an ended call made one event fewer (the per-event shape is RetryShape's) |
| Retry.SendWithRetry | f.js:35-49 | the loop over the leading 429s produces exactly the trace, the outcomes used and the ending of the recursive policy |
| Retry.LeadingRateLimits | f.js:40 | counts the 429 outcomes before the first other outcome |
| Retry.RetryShape | f.js:36-47 | each leading 429 costs one attempt and one wait; the first other outcome ends the call with one more attempt of the same message, delivered iff that outcome is a delivery and logged iff it is an error |
| Retry.RetryWaits | f.js:40-44 | the k-th wait is `retry_after` (or 2) seconds of the k-th 429, and the attempt before it sends the identical message |
| Retry.RetryIgnoresLaterOutcomes | f.js:45-47 | once a call has ended, later outcomes play no part: nothing is retried after a non-429 |
| Retry.RateLimitedThenDelivered | f.js:39-47 | a 429 with `retry_after` 5 then delivery gives send, wait 5000 ms, send |
| Messages.JsInfoText | f.js:174 | for a username without a newline (no Telegram username has one), the info text is two lines, `Username: ` with the username (or `undefined`) and `User ID: ` with the id |
| Messages.PyInfoText | bbc.py:89 | for a username without a newline (no Telegram username has one), the info text is two lines, `Username: ` with the username (or `None`) and `User ID: ` with the id |
| Pages.SendJsPage | f.js:86-106 | sendDefaultBlock / sendLinks send the page's text and its Next/Prev row to the chat |
| Pages.SendPyPage | bbc.py:44-71 | send_links sends the joined text, and `None` markup exactly when no button applies |
| Pages.NavigationRow | f.js:93-100 | the two `push` steps build exactly the Next/Prev row of the page |
| Pages.JsPageContents | f.js:86-105 | for a header and template without newlines (true of every bot's constant header and of the Jack template), a page goes to the chat, starts with its header, holds the lines for start..min(start+99, 100000), at most 100 of them and none past 100000, and carries the Next/Prev row |
| Pages.JsPageBody | f.js:88-91 | for a header and template without newlines, the lines of a page after its header are its link lines |
| Pages.PlainPageLinks | b.js:71-75 | the k-th line of a `b.js` page is `http://t.me/nft/JackintheBox-` followed by start + k |
| Pages.PyPageMatchesJsPage | bbc.py:49-64 | the Python page is the JavaScript page without the final newline, with the same buttons, or `None` exactly when the row is empty |
| Pages.EveryPageHasAButton | bbc.py:64 | with the bound 100000 every page has a button, so the markup is never `None` |
| GiftBotF.SendDefaultBlock | f.js:86-106 | sends the page for its start index |
| GiftBotF.SendAllDefaultGifts | f.js:109-120 | announces, then sweeps links 1..100000 into the chat with a 2000 ms pause after each block |
| GiftBotF.SendAllCustomGifts | f.js:123-134 | announces, then sweeps the template links 1..quantity into the chat |
| GiftBotF.SendAllCustomGiftsToChannel | f.js:137-149 | announces in the chat, sweeps the template links into the channel, then reports done in the chat |
| GiftBotF.ChannelSweepOrder | f.js:137-149 | the channel sweep is the announcement to the chat, then for each block j the j-th block of the partition sent to the channel followed by a 2000 ms pause, then "Done posting to channel." to the chat |
| GiftBotF.Bot.constructor | f.js:10 | the bot starts with no sessions |
| GiftBotF.Bot.OnCallback | f.js:160-204 | the button handler updates `state` and sends exactly what `Callback` defines, and keeps every session consistent |
| GiftBotF.Bot.OnMessage | f.js:207-245 | the text handler updates `state` and sends exactly what `Message` defines, and keeps every session consistent |
| GiftBotF.Callback | f.js:160-204 | a button press leaves no session whose fields disagree with its step, and leaves every other chat's session as it was |
| GiftBotF.Message | f.js:207-245 | a text message leaves no session whose fields disagree with its step, and leaves every other chat's session as it was |
| GiftBotF.PageButton | f.js:166-170 | a page button sends the page its token names and changes no session |
| GiftBotF.NonNumericPageButton | f.js:166-169 | a page token without a number shows page 1 |
| GiftBotF.CustomOptionsResets | f.js:182-185 | `custom_options` replaces the chat's session with a fresh one awaiting the link and asks for it |
| GiftBotF.CustomChoiceGuard | f.js:187-202 | without a non-empty link and a quantity both choices only send the error and change nothing; with them `custom_chat` sweeps and deletes the session, and `custom_channel` changes only the step and asks for the channel |
| GiftBotF.IgnoredTexts | f.js:210-211 | commands, chats without a session and chats at the choice menu are ignored |
| GiftBotF.LinkStep | f.js:213-217 | the link step stores the trimmed text and asks for the quantity |
| GiftBotF.QuantityStep | f.js:219-237 | the quantity step accepts exactly a text whose `parseInt` is positive, stores it and shows the menu; otherwise it only sends the error and the session is unchanged |
| GiftBotF.ChannelStep | f.js:239-243 | the channel step sweeps the stored link and quantity into the trimmed channel and deletes the session |
| GiftBotF.CustomSetup | f.js:182-237 | `custom_options`, a link and a valid quantity leave the chat with the trimmed link and the quantity stored |
| GiftBotF.CustomChatConversation | f.js:182-237 | the whole custom-chat conversation ends with no session and the sweep of that many links on the trimmed link |
| GiftBotF.CustomChannelFinish | f.js:195-243 | with a link and a quantity stored, `custom_channel` and a channel text end with no session and the channel sweep into the trimmed channel |
| GiftBotF.CustomChannelConversation | f.js:182-243 | the whole custom-channel conversation ends with no session and the trimmed channel swept with that many links on the trimmed link |
| GiftBotC.SendDefaultBlock | c.js:69-89 | sends the page for its start index |
| GiftBotC.SendAllDefaultGifts | c.js:92-104 | announces, then sweeps links 1..100000 into the chat with a 100 ms pause after each block |
| GiftBotC.SendAllCustomGifts | c.js:107-118 | announces, then sweeps the template links 1..maxQuantity into the chat |
| GiftBotC.SendAllCustomGiftsToChannel | c.js:121-133 | announces in the chat, sweeps the template links into the channel with 3000 ms pauses, then reports done |
| GiftBotC.ChatSweepPacing | c.js:107-118 | the chat sweep announces, then sends ceil(maxQuantity/100) blocks to the chat, the j-th carrying the j-th block of the partition and followed by a 100 ms pause |
| GiftBotC.ChannelSweepPacing | c.js:121-133 | the channel sweep is the announcement, then for each block j the j-th block of the partition sent to the channel followed by a 3000 ms pause, then "Done posting to channel." |
| GiftBotC.Bot.constructor | c.js:11 | the bot starts with no sessions |
| GiftBotC.Bot.OnCallback | c.js:144-189 | the button handler updates `state` and sends exactly what `Callback` defines, and keeps every session consistent |
| GiftBotC.Bot.OnMessage | c.js:192-233 | the text handler updates `state` and sends exactly what `Message` defines, and keeps every session consistent |
| GiftBotC.Callback | c.js:144-189 | a button press leaves no session whose fields disagree with its step, and leaves every other chat's session as it was |
| GiftBotC.Message | c.js:192-233 | a text message leaves no session whose fields disagree with its step, and leaves every other chat's session as it was |
| GiftBotC.PageButton | c.js:150-154 | a page button sends the page its token names and changes no session |
| GiftBotC.CustomOptionsResets | c.js:166-169 | `custom_options` replaces the chat's session with a fresh one awaiting the link |
| GiftBotC.LinkStep | c.js:198-213 | the link step stores the trimmed link and quantity 100000 and shows the menu; it asks for no quantity |
| GiftBotC.CustomChoiceGuard | c.js:171-187 | without a non-empty link both choices only send the error; with one `custom_chat` sweeps the stored quantity and deletes the session, and `custom_channel` moves only the step to the quantity question |
| GiftBotC.IgnoredTexts | c.js:195-196 | commands, chats without a session and chats at the menu are ignored |
| GiftBotC.QuantityStep | c.js:215-224 | the quantity step accepts exactly a text whose `parseInt` is positive, stores it and asks for the channel; otherwise it only sends the error |
| GiftBotC.ChannelStep | c.js:226-231 | the channel step sweeps the stored link and quantity into the trimmed channel and deletes the session |
| GiftBotC.ChannelSetup | c.js:166-187 | `custom_options`, a link and `custom_channel` leave the chat awaiting the quantity with the trimmed link stored |
| GiftBotC.ChannelFinish | c.js:215-231 | a valid quantity and a channel text end with no session and the channel sweep of that many links |
| GiftBotC.ChatConversation | c.js:166-213 | `custom_options`, a link and `custom_chat` end with no session and the chat swept with 100000 links on the trimmed link |
| GiftBotC.ChannelConversation | c.js:166-231 | the whole channel conversation ends with no session and the trimmed channel swept with that many links on the trimmed link |
| JackBotJs.SendLinks | b.js:70-94 | sends the plain page for its start index |
| JackBotJs.Callback | b.js:47-64 | a button press sends exactly one message, to the pressing chat, and it carries a Next/Prev row exactly for `jack_` data |
| JackBotJs.OnCallback | b.js:47-67 | `jack_` data opens the page `parseInt` reads, `info` sends the user text, anything else "Invalid selection." |
| JackBotJs.ButtonsLeadToTheirPages | b.js:78-85 | pressing a page's Next opens the page after it ends, pressing Prev the page 100 earlier (or page 1) |
| JackBotJs.PlainLinks | b.js:71-75 | the page holds max(0, end - start + 1) ≤ 100 lines, the k-th being the Jack-in-the-Box link for start + k |
| JackBotJs.OtherDataIsInvalid | b.js:61-63 | data that is neither a page token nor `info`, such as `jack`, gets "Invalid selection." |
| JackBotPy.SendLinks | bbc.py:44-71 | sends the joined page for its start index |
| JackBotPy.ButtonHandler | bbc.py:73-92 | a button press does exactly one thing: for `jack_` data it sends a page to the chat, for any other data it edits that chat's pressed message |
| JackBotPy.OnButton | bbc.py:73-92 | `jack_` data opens the page `int()` reads (or 1), `info` and other data edit the message |
| JackBotPy.ButtonsLeadToTheirPages | bbc.py:57-64 | every page has a button row, and each button opens the page it names |
| JackBotPy.AgreesWithJsBot | bbc.py:49-64 | the page is `b.js`'s page without the final newline, with the same buttons |
| JackBotPy.TokensAgreeWithJsBot | bbc.py:79-86 | a numeric token opens the same page in both bots |
| JackBotPy.TrailingTextDisagrees | bbc.py:81-84 | `jack_12x` opens page 1 here and page 12 in `b.js` |
| JackBotPy.EditsInsteadOfSending | bbc.py:87-92 | `info` and unknown data edit the pressed message, to the user text or to "Invalid selection." |

## Left out

- Reading the bot token, constructing the bot, polling, and acknowledging a callback: process and transport plumbing.
- The `/start` handler, the main menu and `saveUser`/`save_user`: a fixed greeting and a file append.
- Real timers: each pause is a `Delay(ms)` event in the log.
- Sweeps started from a handler run in the background in the source; the model runs each one to completion when it starts, so interleavings with later handler calls are not modelled.
- `parse_mode` and the exact header and menu wording: headers are constants, and menu keyboards are a single `CustomMenu` value.
- `f.js` calls its retry wrapper with a `bot` that is only bound inside the token callback, so every call as written throws and is logged. The model captures the retry policy against an outcome sequence, and the bot modules log the requests they hand to it. It does not compose the two or claim that a message is delivered. `c.js` has no retry.
- Messages without text, which make the handlers throw.
- The `Rate limited. Waiting …` console line in `f.js`'s retry wrapper: console output, not a message to any chat.
- GiftBotC.SendAllDefaultGifts, GiftBotC.SendAllCustomGifts, GiftBotC.SendAllCustomGiftsToChannel: `c.js` awaits each send of a sweep without a catch, so the first send that fails ends the sweep, and the channel sweep then never sends "Done posting to channel.". The model assumes every send resolves.
- Paging.JsTokenStart, Paging.PyTokenStart: their meaning is stated by the lemmas JsTokenStartReadsDigitRun and PyTokenStartReadsLiteral, and the round trips DefaultTokenRoundTrip, JackTokenRoundTrip and JackButtonTargets, rather than by postconditions, for the same reason as the parsers below.
- Sweep.BodyOfBlock, Sweep.SweepDeliversEveryLinkOnce, Render.JsBlockSplit, Render.PyBlockSplit: a custom template is the user's trimmed text, which may hold newlines inside it; for such a template the lines read back out of a block or the sent messages are not the link lines, and the model proves nothing about them.
- NumParse.JsParseInt, NumParse.PyInt, Text.Trim: their meaning is stated by the lemmas JsParseIntReadsDigitRun, PyIntAcceptsLiterals and TrimKeepsMiddle rather than by postconditions, so that proofs about the handlers that parse user text stay small.
- JavaScript numbers are unbounded integers here: no 2^53 precision limit and no exponent notation for very large values.
- Strings are sequences of code points. JavaScript strings are UTF-16, which only matters for `split('')` over digit strings, and those are all single units.
- Python `int()` also accepts non-ASCII decimal digits. The model accepts ASCII digits only.
- GiftBotF.Bot.OnMessage, GiftBotF.Message: require every session's fields to match its step. The constructor establishes this and every handler preserves it. States the handlers never build, such as a channel step without a link, are not modelled.
- GiftBotC.Bot.OnMessage, GiftBotC.Message: the same requirement, for the same reason.
- Retry.SendWithRetry: the outcome sequence is finite. A 429 streak that outlasts it ends as `Pending` instead of retrying forever.
