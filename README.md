# Coffee Perk bot: callback router

This project is a Dafny model of the Coffee Perk Telegram bot's update handling (`main.py`). The bot keeps no state. It answers each inbound update with at most one message, new or edited. A button press is acknowledged before its message is edited:

- `/start` posts a language picker with two buttons, `lang_cs` and `lang_en`, as a new message.
- A press on a button whose callback data begins with `lang_` edits the pressed message into a six-row section menu. Exactly `lang_cs` gives the Czech menu; any other such data gives the English one. As written, the menu's buttons are URL buttons whose URLs are the section tokens, so pressing one sends the bot nothing (see "## Findings").
- A press whose data begins with `menu_`, `hours_`, `where_`, `contact_`, `preorder_` or `why_` edits the message into that key's text from the section catalog. A key the catalog lacks gets the fixed text `❌ Sekce nenalezena.`.
- Anything else gets no reply. The first registered handler that accepts an update answers it.

Modules, one per part of the program:

- `BotTypes` (`types.dfy`): callback and URL buttons and what pressing each sends the bot, keyboards, replies, the two delivery modes, and inbound events. An event is a command, a button press or another update. A press carries its chat and the id of the message that held the button, so a reply says which message it edits.
- `Catalog` (`catalog.dfy`): the `SECTIONS` dictionary and the fallback text. It also holds the six section names in menu order and the `<section>_<code>` token form, which serve as the reference the rest is checked against.
- `Handlers` (`handlers.dfy`): `start`, `lang_select` and `show_section`. `UrlButtonRows` is the list comprehension that builds the menu keyboard as written, and `LangSelect` is the language menu as written. `CallbackButtonRows` and `LangSelectIntended` build the same menu with callback buttons, as the picker's buttons are built.
- `Dispatch` (`dispatch.dfy`): the two callback patterns, the handler registry in registration order, first-match dispatch and `Route`, the reply to one update.
- `Navigation` (`navigation.dfy`): what pressing the bot's own buttons reaches, with the as-written menu and with the callback-button menu, replies to particular callback data, and the replies to a run of updates.

The patterns `^lang_` and `^(menu|hours|where|contact|preorder|why)_` are modelled as what Python's `re.match` does with them. The data matches when some alternative, followed by `_`, is a prefix of it. The display strings are the program's own literals.

The program has no token parser. It dispatches on a prefix and looks up the whole callback string in the catalog. So `lang_xx` gets the English menu, `menu_xx` gets `❌ Sekce nenalezena.`, and `bogus_token` gets no reply at all.

The constants (`Catalog.Sections`, `Catalog.NotFound`, `Handlers.WelcomeText`, `Handlers.PickerKeyboard`, `Handlers.Prompt`, `Handlers.MenuEntries`, `Dispatch.LangPattern`, `Dispatch.SectionPattern`, `Dispatch.Registered`) are the program's literals. The members in the table below state what they hold: `CatalogKeys`, `SectionTextsFound`, `Start`, `MenuEntriesAreSectionTokens`, `MenusDiffer` and `RegisteredAcceptance`.

## Model

| member | source | states |
|---|---|---|
| `Catalog.CatalogKeys` | main.py:71-87 | A string is a catalog key if and only if it is `<section>_<code>` for one of the six sections and `cs` or `en`. |
| `Catalog.TokenInCatalog` | main.py:71-87 | Every section token in either language is a catalog key. |
| `Catalog.SectionOf` | main.py:71-87 | Every catalog key has the `<section>_<code>` form for some section and language. |
| `Catalog.SectionTextsFound` | main.py:71-93 | No catalog text is empty or equal to the fallback text, so a found section can be told apart from a missing one. |
| `Handlers.Start` | main.py:25-37 | The picker carries the welcome text and is posted as a new message in the command's chat. Its keyboard is one row of two buttons, `lang_cs` then `lang_en`. |
| `Handlers.ChosenLanguage` | main.py:44-54 | The menu is Czech exactly when the data is `lang_cs`; any other data gives English. |
| `Handlers.MenuEntriesAreSectionTokens` | main.py:46-63 | Each language's entry list has six entries. Entry i carries the token of catalog section i in that language, in the order menu, hours, where, contact, preorder, why. |
| `Handlers.MenusDiffer` | main.py:45-63 | The Czech and English prompts differ, and in every row the two menus carry different tokens. |
| `Handlers.UrlButtonRows` | main.py:65 | The keyboard has one row per entry. Row i is a single URL button with entry i's text as its text and entry i's token as its URL: the second positional argument of `InlineKeyboardButton` is `url`. |
| `Handlers.LangSelect` | main.py:40-68 | The reply carries the chosen language's prompt and edits the pressed message. Its keyboard has six rows of one button each. Row i is a URL button with the text of menu entry i and the URL of section i's token in the chosen language. No button carries callback data. |
| `Handlers.CallbackButtonRows` | main.py:65 | The keyboard has one row per entry. Row i is a single callback button with entry i's text and entry i's token as its callback data, built as the picker's buttons are. |
| `Handlers.LangSelectIntended` | main.py:40-68 | The menu with `callback_data=cb`: the same prompt and delivery as `LangSelect`; row i is a callback button with the text of menu entry i and section i's token as its callback data. |
| `Handlers.IntendedDiffersInButtonKindOnly` | main.py:65 | The as-written and the intended menu have the same text, delivery and row count. Each has one button per row, and the two differ only in kind: the written button is a URL button with the intended button's text and its callback data as the URL. |
| `Handlers.ShowSection` | main.py:90-94 | The reply edits the pressed message and has no keyboard. Its text is the catalog text for a catalog key; it is the fallback text exactly when the data is not a key. |
| `Dispatch.MatchesAny` | main.py:98-99 | An anchored alternation followed by a separator matches exactly when some alternative plus the separator is a prefix of the data. |
| `Dispatch.FirstMatch` | main.py:97-99 | Dispatch picks the first registered handler that accepts the update. If none accepts it, there is no pick. |
| `Dispatch.Invoke` | main.py:32-94 | Each registered callback name runs its own handler: `Start` gives the picker, `LangSelect` the language menu, and `ShowSection` the section view, each on the update's own data, chat and message. The `/start` handler posts a new message in the command's chat. Each callback handler edits the message whose button was pressed. |
| `Dispatch.Route` | main.py:97-99 | An update gets no reply exactly when no registered handler accepts it. A command's reply is a new message in its chat; a press's reply edits the pressed message. `RouteCommand`, `RouteCallback` and `RouteOther` give the reply itself. |
| `Dispatch.RegisteredAcceptance` | main.py:97-99 | Three handlers are registered. The first accepts exactly the `start` command. The second accepts exactly presses whose data begins with `lang_`. The third accepts exactly presses whose data begins with a section name and `_`. |
| `Dispatch.PatternsDisjoint` | main.py:98-99 | No callback data matches both `^lang_` and the section pattern. |
| `Dispatch.SectionPatternMatchesSections` | main.py:99 | The section pattern matches exactly the data that begins with one of the catalog's six section names followed by `_`. |
| `Dispatch.RouteCommand` | main.py:97 | `/start` gets the picker; every other command gets no reply. |
| `Dispatch.RouteCallback` | main.py:98-99 | A press with data beginning `lang_` goes to the language menu. One beginning with a section name and `_` goes to the section view. Any other press gets no reply. |
| `Dispatch.RouteOther` | main.py:97-99 | An update that is neither a command nor a button press gets no reply. |
| `Navigation.PickerButtonsOpenMenus` | main.py:26-44 | Each picker button is a callback button, and pressing it sends its data. That data is dispatched to the language menu. The left button chooses Czech, the right English. |
| `Navigation.SectionTokenRoutesToSection` | main.py:99 | Every `<section>_<code>` token is dispatched to the section handler. |
| `Navigation.MenuButtonsSendNothing` | main.py:65 | As written, pressing any button of either language menu sends the bot nothing, so no menu press reaches the handler at main.py:99. |
| `Navigation.MenuButtonsShowSections` | main.py:46-99 | In either menu built with callback buttons, every button is a callback button and pressing it sends a catalog key. That press is answered with the key's text, never the fallback, as an edit without a keyboard. |
| `Navigation.TwoPressesReachCatalog` | main.py:25-99 | A picker press opens the menu of the language it chose. In that menu built with callback buttons, row i carries section i's token in that language, and pressing it shows that section's catalog text. |
| `Navigation.LangOtherIsEnglish` | main.py:54-63 | `lang_en`, `lang_xx` and every other `lang_` data except `lang_cs` open the English menu: the language chosen is English and the prompt is the English one. |
| `Navigation.LangCsIsCzech` | main.py:44-53 | `lang_cs` opens the Czech menu: the language chosen is Czech and the prompt is the Czech one. |
| `Navigation.MenuXxIsNotFound` | main.py:93 | `menu_xx` reaches the section handler and gets the fallback text as an edit. |
| `Navigation.BogusTokenIsIgnored` | main.py:97-99 | `bogus_token` matches no handler and gets no reply. |
| `Navigation.Replies` | main.py:97-99 | A run of updates, handled one after another, gets one reply entry per update. |
| `Navigation.RepliesPointwise` | main.py:90-99 | In a run of updates, each reply equals the reply to that update alone. |
| `Navigation.StartIsHistoryIndependent` | main.py:25-37 | Two `/start` commands in a chat get identical pickers, whatever updates came before or between them. |

## Findings

| source | as written | input that shows it | evidently intended | confidence | as-written member | corrected member |
|---|---|---|---|---|---|---|
| main.py:65 | `InlineKeyboardButton(t, cb)` passes the token as the second positional argument, which is `url`, so every menu button is a URL button without callback data | `/start`, then pressing `🇨🇿 Čeština` (`lang_cs`): the menu's six buttons have the URLs `menu_cs` … `why_cs` and no callback data, so pressing any of them never produces a callback query for the handler at main.py:99 | `InlineKeyboardButton(t, callback_data=cb)`, as the picker at main.py:28-29 builds its buttons, so that each press sends its section token | high, from the library's constructor signature; not executed | `Navigation.MenuButtonsSendNothing` (over `Handlers.LangSelect`) | `Handlers.LangSelectIntended`, with `Navigation.MenuButtonsShowSections` and `Navigation.TwoPressesReachCatalog` |

`Dispatch.Route` dispatches a `lang_` press to the as-written `Handlers.LangSelect`, since that is what the program does. The closure lemmas use the corrected menu for the second press.

## Left out

- The Flask app, the webhook route and the health-check route (main.py:17, 102-112): HTTP plumbing, not routing.
- Reading `BOT_TOKEN`, `BASE_URL` and `PORT` from the environment, and building the global application object (main.py:12-20): configuration.
- The startup job that registers the webhook and the built-in webhook server (main.py:115-126): network and scheduling.
- The awaited Telegram calls: the model returns the call that would be made (its text, keyboard, and new message or edit of which message) and does not perform it. In a group or other non-private chat, the library's default for `reply_text` sends the picker as a quoted reply to the `/start` message; the model's `NewMessage` does not record that quotation.
- Whether the platform accepts the as-written menu: the section tokens are not valid URLs, and Telegram may reject the edit at main.py:66-68 for that reason. The model returns the edit as it would be requested.
- `callback_query.answer()` (main.py:41, 91): both callback handlers make this call before editing, and the model does not include it in the reply value. When the call raises, for example because the query is too old to answer, the handler stops before the edit and nothing is edited. The model always edits.
- How the library parses a command: a command is an event carrying its name as the library compares it. The library lower-cases the name and drops the slash, an `@` suffix naming this bot, and the arguments, so `/START` and `/start@<this bot>` carry `start`. A command addressed to another bot is not accepted. Turning message text into that name is not modelled.
- Callback queries without string data (game callbacks): the model's callback data is always a string.
- Update handler groups, error handlers and concurrent update processing in the library: only the one group of three handlers the program registers is modelled, and `Navigation.Replies` handles updates one after another.
- The meaning of the display strings (Markdown, emoji): they are plain character sequences, and only their identity matters.
