/**
 * What the bots hand to the messaging transport, as values: a destination,
 * the inline buttons and reply markup, and the log of outgoing actions
 * (messages sent, messages edited, pacing delays).
 */
module Messages {
  import opened Wrappers
  import opened Text

  /** A numeric chat id, or the channel id / `@username` text the user typed. */
  datatype Dest = Chat(id: int) | Channel(name: string)

  /** An inline button with its text and the callback token it carries. */
  datatype Button = Button(text: string, data: string)

  /**
   * Reply markup: none (JavaScript `undefined`, Python `None`), a single row of
   * navigation buttons (`inline_keyboard: [buttons]`, possibly an empty row),
   * or the fixed "Custom Chat / Custom Channel" menu.
   */
  datatype Markup = NoMarkup | NavRow(buttons: seq<Button>) | CustomMenu

  /** One outgoing action, in the order the bot performs it. */
  datatype Event =
    | Send(to: Dest, text: string, markup: Markup)
    | Edit(chat: int, text: string)
    | Delay(ms: int)

  /** A JavaScript string field that is present and not empty. */
  predicate Truthy(s: Option<string>) {
    s.Some? && s.value != ""
  }

  /** The sender of a button press: numeric id and optional username. */
  datatype User = User(id: int, username: Option<string>)

  /** The printed username: the name, or what JavaScript prints for a missing one. */
  function JsName(u: User): string {
    match u.username case Some(name) => name case None => "undefined"
  }

  /** The printed username: the name, or what Python prints for a missing one. */
  function PyName(u: User): string {
    match u.username case Some(name) => name case None => "None"
  }

  /**
   * `Username: ${user.username}\nUser ID: ${user.id}`: two lines, the username
   * line and the id line (for a username without a line break).
   */
  function JsInfoText(u: User): (t: string)
    ensures '\n' !in JsName(u) ==> Split(t, '\n') == ["Username: " + JsName(u), "User ID: " + IntToString(u.id)]
  {
    InfoLines("Username: " + JsName(u), u.id);
    "Username: " + JsName(u) + "\nUser ID: " + IntToString(u.id)
  }

  /** The Python f-string of the same text. */
  function PyInfoText(u: User): (t: string)
    ensures '\n' !in PyName(u) ==> Split(t, '\n') == ["Username: " + PyName(u), "User ID: " + IntToString(u.id)]
  {
    InfoLines("Username: " + PyName(u), u.id);
    "Username: " + PyName(u) + "\nUser ID: " + IntToString(u.id)
  }

  lemma InfoLines(first: string, id: int)
    ensures '\n' !in first ==> Split(first + "\nUser ID: " + IntToString(id), '\n') == [first, "User ID: " + IntToString(id)]
  {
    if '\n' !in first {
      var second := "User ID: " + IntToString(id);
      NumberHasNoNewline(id);
      assert first + "\nUser ID: " + IntToString(id) == first + ['\n'] + second;
      TwoLines(first, second);
    }
  }

  lemma TwoLines(a: string, b: string)
    requires '\n' !in a && '\n' !in b
    ensures Split(a + ['\n'] + b, '\n') == [a, b]
  {
    SplitAfterPiece(a, b, '\n');
    SplitWithoutSeparator(b, '\n');
  }
}
