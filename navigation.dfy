/** What a user can reach by pressing the bot's own buttons, replies to particular callback data,
    and the independence of every reply from the updates before it. */
module Navigation {
  import opened BotTypes
  import opened Catalog
  import Handlers
  import opened Dispatch

  /** Every picker button is a callback button whose press is dispatched to the language menu; the
      left one chooses Czech, the right one English. */
  lemma PickerButtonsOpenMenus(chat: int, i: int, j: int, chat': int, message': int)
    requires 0 <= i < |Handlers.Start(chat).keyboard.value|
    requires 0 <= j < |Handlers.Start(chat).keyboard.value[i]|
    ensures var b := Handlers.Start(chat).keyboard.value[i][j];
      && b.CallbackButton?
      && Press(b, chat', message') == Some(CallbackQuery(b.callbackData, chat', message'))
      && Route(CallbackQuery(b.callbackData, chat', message')) == Some(Handlers.LangSelect(b.callbackData, chat', message'))
      && Handlers.ChosenLanguage(b.callbackData) == (if j == 0 then Czech else English)
  {
    var t := Handlers.Start(chat).keyboard.value[i][j].callbackData;
    assert t == "lang_cs" || t == "lang_en";
    assert StartsWith(t, "lang_");
    RouteCallback(t, chat', message');
  }

  /** Callback data of the form `<section>_...` is dispatched to the section handler. */
  lemma SectionTokenRoutesToSection(i: int, lang: Language, chat: int, message: int)
    requires 0 <= i < |SectionNames|
    ensures var t := Token(SectionNames[i], lang);
      Route(CallbackQuery(t, chat, message)) == Some(Handlers.ShowSection(t, chat, message))
  {
    var t := Token(SectionNames[i], lang);
    assert t[..|SectionNames[i] + "_"|] == SectionNames[i] + "_";
    assert SectionPrefixed(t);
    assert t[0] != 'l';
    assert !StartsWith(t, "lang_");
    RouteCallback(t, chat, message);
  }

  /** As written, no button of either language menu sends the bot anything when pressed: each is a URL
      button, so no press on the menu ever reaches the section handler. */
  lemma MenuButtonsSendNothing(data: string, chat: int, message: int, i: int, j: int, chat': int, message': int)
    requires 0 <= i < |Handlers.LangSelect(data, chat, message).keyboard.value|
    requires 0 <= j < |Handlers.LangSelect(data, chat, message).keyboard.value[i]|
    ensures Press(Handlers.LangSelect(data, chat, message).keyboard.value[i][j], chat', message') == None
  {
    var b := Handlers.LangSelect(data, chat, message).keyboard.value[i][j];
    assert !b.CallbackButton?;
  }

  /** With callback buttons, every button of either language menu sends a catalog key, which is
      dispatched to the section handler and shows that section's text, never the fallback. */
  lemma MenuButtonsShowSections(data: string, chat: int, message: int, i: int, j: int, chat': int, message': int)
    requires 0 <= i < |Handlers.LangSelectIntended(data, chat, message).keyboard.value|
    requires 0 <= j < |Handlers.LangSelectIntended(data, chat, message).keyboard.value[i]|
    ensures var b := Handlers.LangSelectIntended(data, chat, message).keyboard.value[i][j];
      && b.CallbackButton?
      && Press(b, chat', message') == Some(CallbackQuery(b.callbackData, chat', message'))
      && b.callbackData in Sections
      && Route(CallbackQuery(b.callbackData, chat', message'))
         == Some(Response(Sections[b.callbackData], None, EditMessage(chat', message')))
      && Sections[b.callbackData] != NotFound
  {
    var lang := Handlers.ChosenLanguage(data);
    var t := Handlers.LangSelectIntended(data, chat, message).keyboard.value[i][j].callbackData;
    assert t == Token(SectionNames[i], lang);
    TokenInCatalog(i, lang);
    SectionTokenRoutesToSection(i, lang, chat', message');
  }

  /** A picker press opens the menu of the language it chose. With callback buttons, a press on that
      menu's row i then shows section i's catalog text in that language. */
  lemma TwoPressesReachCatalog(chat: int, j: int, chat1: int, message1: int, i: int, chat2: int, message2: int)
    requires 0 <= j < 2
    requires 0 <= i < |SectionNames|
    ensures var pick := Handlers.Start(chat).keyboard.value[0][j].callbackData;
      var lang := if j == 0 then Czech else English;
      var t := Token(SectionNames[i], lang);
      && Route(CallbackQuery(pick, chat1, message1)) == Some(Handlers.LangSelect(pick, chat1, message1))
      && Handlers.LangSelectIntended(pick, chat1, message1).keyboard.value[i][0].callbackData == t
      && t in Sections
      && Route(CallbackQuery(t, chat2, message2)) == Some(Response(Sections[t], None, EditMessage(chat2, message2)))
  {
    var pick := Handlers.Start(chat).keyboard.value[0][j].callbackData;
    PickerButtonsOpenMenus(chat, 0, j, chat1, message1);
    MenuButtonsShowSections(pick, chat1, message1, i, 0, chat2, message2);
  }

  /** `lang_en` and any other `lang_` data except `lang_cs`, such as `lang_xx`, open the English menu. */
  lemma LangOtherIsEnglish(data: string, chat: int, message: int)
    requires StartsWith(data, "lang_") && data != "lang_cs"
    ensures Route(CallbackQuery(data, chat, message)) == Some(Handlers.LangSelect(data, chat, message))
    ensures Handlers.ChosenLanguage(data) == English
    ensures Handlers.LangSelect(data, chat, message).text == Handlers.Prompt(English)
  {
    RouteCallback(data, chat, message);
  }

  /** `lang_cs` opens the Czech menu. */
  lemma LangCsIsCzech(chat: int, message: int)
    ensures Route(CallbackQuery("lang_cs", chat, message)) == Some(Handlers.LangSelect("lang_cs", chat, message))
    ensures Handlers.ChosenLanguage("lang_cs") == Czech
    ensures Handlers.LangSelect("lang_cs", chat, message).text == Handlers.Prompt(Czech)
  {
    RouteCallback("lang_cs", chat, message);
  }

  /** A known section prefix with an unknown language, such as `menu_xx`, reaches the section handler
      and gets the fallback text. */
  lemma MenuXxIsNotFound(chat: int, message: int)
    ensures Route(CallbackQuery("menu_xx", chat, message)) == Some(Response(NotFound, None, EditMessage(chat, message)))
  {
    assert StartsWith("menu_xx", SectionNames[0] + "_");
    assert !StartsWith("menu_xx", "lang_") by { assert "menu_xx"[0] != "lang_"[0]; }
    assert "menu_xx" !in Sections;
    RouteCallback("menu_xx", chat, message);
  }

  /** Data matching neither pattern, such as `bogus_token`, gets no reply at all. */
  lemma BogusTokenIsIgnored(chat: int, message: int)
    ensures Route(CallbackQuery("bogus_token", chat, message)) == None
  {
    var d := "bogus_token";
    assert !StartsWith(d, "lang_") by { assert d[0] != "lang_"[0]; }
    forall i | 0 <= i < |SectionNames| ensures !StartsWith(d, SectionNames[i] + "_") {
      assert d[0] != (SectionNames[i] + "_")[0];
    }
    RouteCallback(d, chat, message);
  }

  /** The replies to a run of updates handled one after another. */
  function Replies(events: seq<Event>): (replies: seq<Option<Response>>)
    ensures |replies| == |events|
  {
    if events == [] then []
    else Replies(events[..|events| - 1]) + [Route(events[|events| - 1])]
  }

  /** Each reply depends on its own update alone, never on the updates before it. */
  lemma {:induction false} RepliesPointwise(events: seq<Event>, k: int)
    requires 0 <= k < |events|
    ensures Replies(events)[k] == Route(events[k])
  {
    if k < |events| - 1 {
      RepliesPointwise(events[..|events| - 1], k);
    }
  }

  /** Two `/start` commands in a chat get identical pickers, whatever was pressed before or between them. */
  lemma StartIsHistoryIndependent(before: seq<Event>, between: seq<Event>, chat: int)
    ensures var events := before + [Command("start", chat)] + between + [Command("start", chat)];
      && Replies(events)[|before|] == Some(Handlers.Start(chat))
      && Replies(events)[|before| + 1 + |between|] == Replies(events)[|before|]
  {
    var events := before + [Command("start", chat)] + between + [Command("start", chat)];
    RepliesPointwise(events, |before|);
    RepliesPointwise(events, |before| + 1 + |between|);
    RouteCommand("start", chat);
  }
}
