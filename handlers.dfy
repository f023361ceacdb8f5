/** The three update handlers: the /start picker, the language menu and the section view. */
module Handlers {
  import opened BotTypes
  import opened Catalog

  /** The greeting posted with the language picker. */
  const WelcomeText: string :=
    "☕️ Welcome to Coffee Perk!\nWe’re happy to see you here. 🌟\nPlease choose your language. 🗣️"

  /** The picker: one row, Czech then English. */
  const PickerKeyboard: Keyboard :=
    [[CallbackButton("🇨🇿 Čeština", "lang_cs"), CallbackButton("🌍 English", "lang_en")]]

  /** The /start handler: the language picker, posted as a new message in the command's chat. */
  function Start(chat: int): (r: Response)
    ensures r.text == WelcomeText && r.delivery == NewMessage(chat)
    ensures r.keyboard.Some? && |r.keyboard.value| == 1 && |r.keyboard.value[0]| == 2
    ensures r.keyboard.value[0][0].CallbackButton? && r.keyboard.value[0][0].callbackData == "lang_cs"
    ensures r.keyboard.value[0][1].CallbackButton? && r.keyboard.value[0][1].callbackData == "lang_en"
  {
    Response(WelcomeText, Some(PickerKeyboard), NewMessage(chat))
  }

  /** The language a language-menu press chooses: Czech for exactly `lang_cs`, English for anything else. */
  function ChosenLanguage(data: string): (lang: Language)
    ensures lang == Czech <==> data == "lang_cs"
  {
    if data == "lang_cs" then Czech else English
  }

  /** The question shown above the section menu. */
  function Prompt(lang: Language): string {
    match lang
    case Czech => "Na co se mě můžeš zeptat:"
    case English => "What can you ask me:"
  }

  /** The section menu's entries as (button text, callback data) pairs, top to bottom. */
  function MenuEntries(lang: Language): seq<(string, string)> {
    match lang
    case Czech => [
      ("🧾 Menu a nabídka", "menu_cs"),
      ("🕐 Otevírací doba", "hours_cs"),
      ("📍 Kde nás najdete", "where_cs"),
      ("📞 Kontakt / Rezervace", "contact_cs"),
      ("📦 Předobjednávka", "preorder_cs"),
      ("😎 Proč k nám?", "why_cs")
    ]
    case English => [
      ("🧾 Menu & Offer", "menu_en"),
      ("🕐 Opening Hours", "hours_en"),
      ("📍 Location", "where_en"),
      ("📞 Contact / Booking", "contact_en"),
      ("📦 Pre-order", "preorder_en"),
      ("😎 Why Visit", "why_en")
    ]
  }

  /** The entries list the six sections in catalog order, each with the token of that section in `lang`. */
  lemma MenuEntriesAreSectionTokens(lang: Language)
    ensures |MenuEntries(lang)| == |SectionNames|
    ensures forall i :: 0 <= i < |SectionNames| ==> MenuEntries(lang)[i].1 == Token(SectionNames[i], lang)
  {
  }

  /** The two menus can be told apart: different prompts, and in every row a different token. */
  lemma MenusDiffer()
    ensures Prompt(Czech) != Prompt(English)
    ensures forall i :: 0 <= i < |SectionNames| ==> MenuEntries(Czech)[i].1 != MenuEntries(English)[i].1
  {
  }

  /** One row per entry, each row a single button built as `InlineKeyboardButton(text, cb)`: the
      second positional parameter of that constructor is the URL, so each is a URL button. */
  function UrlButtonRows(entries: seq<(string, string)>): (kb: Keyboard)
    ensures |kb| == |entries|
    ensures forall i :: 0 <= i < |entries| ==> kb[i] == [UrlButton(entries[i].0, entries[i].1)]
  {
    if entries == [] then []
    else [[UrlButton(entries[0].0, entries[0].1)]] + UrlButtonRows(entries[1..])
  }

  /** The language-menu handler as written: the prompt and six rows of the chosen language, written
      over the message whose button was pressed. The rows are URL buttons whose URLs are the section
      tokens; none of them carries callback data. */
  function LangSelect(data: string, chat: int, message: int): (r: Response)
    ensures r.text == Prompt(ChosenLanguage(data))
    ensures r.delivery == EditMessage(chat, message)
    ensures r.keyboard.Some? && |r.keyboard.value| == |SectionNames|
    ensures forall i :: 0 <= i < |SectionNames| ==>
      r.keyboard.value[i] == [UrlButton(MenuEntries(ChosenLanguage(data))[i].0, Token(SectionNames[i], ChosenLanguage(data)))]
    ensures forall i, j :: 0 <= i < |r.keyboard.value| && 0 <= j < |r.keyboard.value[i]| ==>
      !r.keyboard.value[i][j].CallbackButton?
  {
    var lang := ChosenLanguage(data);
    MenuEntriesAreSectionTokens(lang);
    Response(Prompt(lang), Some(UrlButtonRows(MenuEntries(lang))), EditMessage(chat, message))
  }

  /** One row per entry, each row a single callback button, built as
      `InlineKeyboardButton(text, callback_data=cb)` like the picker's buttons. */
  function CallbackButtonRows(entries: seq<(string, string)>): (kb: Keyboard)
    ensures |kb| == |entries|
    ensures forall i :: 0 <= i < |entries| ==> kb[i] == [CallbackButton(entries[i].0, entries[i].1)]
  {
    if entries == [] then []
    else [[CallbackButton(entries[0].0, entries[0].1)]] + CallbackButtonRows(entries[1..])
  }

  /** The language menu with callback buttons: the same prompt, texts, tokens and delivery as
      `LangSelect`, but each row's token is sent back as callback data when pressed. */
  function LangSelectIntended(data: string, chat: int, message: int): (r: Response)
    ensures r.text == Prompt(ChosenLanguage(data))
    ensures r.delivery == EditMessage(chat, message)
    ensures r.keyboard.Some? && |r.keyboard.value| == |SectionNames|
    ensures forall i :: 0 <= i < |SectionNames| ==>
      r.keyboard.value[i] == [CallbackButton(MenuEntries(ChosenLanguage(data))[i].0, Token(SectionNames[i], ChosenLanguage(data)))]
  {
    var lang := ChosenLanguage(data);
    MenuEntriesAreSectionTokens(lang);
    Response(Prompt(lang), Some(CallbackButtonRows(MenuEntries(lang))), EditMessage(chat, message))
  }

  /** The two menus differ only in the kind of their buttons: a URL button as written where a
      callback button with the same text and the URL as its data was meant. */
  lemma IntendedDiffersInButtonKindOnly(data: string, chat: int, message: int)
    ensures var written := LangSelect(data, chat, message);
      var intended := LangSelectIntended(data, chat, message);
      && written.text == intended.text && written.delivery == intended.delivery
      && |written.keyboard.value| == |intended.keyboard.value|
      && forall i :: 0 <= i < |written.keyboard.value| ==>
           && |written.keyboard.value[i]| == |intended.keyboard.value[i]| == 1
           && written.keyboard.value[i][0] == UrlButton(intended.keyboard.value[i][0].text, intended.keyboard.value[i][0].callbackData)
  {
  }

  /** The section handler: the catalog text for the callback data, or the fallback text when the
      catalog has no such key, written over the pressed message with no keyboard. */
  function ShowSection(data: string, chat: int, message: int): (r: Response)
    ensures r.keyboard == None && r.delivery == EditMessage(chat, message)
    ensures data in Sections ==> r.text == Sections[data]
    ensures r.text == NotFound <==> data !in Sections
  {
    if data in Sections then
      SectionTextsFound(data);
      Response(Sections[data], None, EditMessage(chat, message))
    else
      Response(NotFound, None, EditMessage(chat, message))
  }
}
