/** Handler registration and dispatch: the first registered handler that accepts an update answers it. */
module Dispatch {
  import opened BotTypes
  import opened Catalog
  import Handlers

  /** A regular expression of the shape `^(a1|a2|...|an)sep`, the only shape the handlers register. */
  datatype Pattern = AnchoredAlternatives(alternatives: seq<string>, separator: string)

  /** Some alternative followed by the separator is a prefix of `s` (a match at the start of `s`,
      trying the alternatives in turn). */
  function MatchesAny(alternatives: seq<string>, separator: string, s: string): (b: bool)
    ensures b <==> exists i :: 0 <= i < |alternatives| && StartsWith(s, alternatives[i] + separator)
  {
    if alternatives == [] then false
    else StartsWith(s, alternatives[0] + separator) || MatchesAny(alternatives[1..], separator, s)
  }

  function Matches(p: Pattern, s: string): bool {
    MatchesAny(p.alternatives, p.separator, s)
  }

  /** The handler functions a registration can name. */
  datatype Callback = Start | LangSelect | ShowSection

  datatype Handler =
    | CommandHandler(command: string, callback: Callback)
    | CallbackQueryHandler(pattern: Pattern, callback: Callback)

  /** A command handler takes messages with its command; a callback handler takes button presses
      whose data its pattern matches. */
  predicate Accepts(h: Handler, e: Event) {
    match h
    case CommandHandler(command, _) => e.Command? && e.name == command
    case CallbackQueryHandler(pattern, _) => e.CallbackQuery? && Matches(pattern, e.data)
  }

  const LangPattern: Pattern := AnchoredAlternatives(["lang"], "_")
  const SectionPattern: Pattern := AnchoredAlternatives(["menu", "hours", "where", "contact", "preorder", "why"], "_")

  /** The handlers in registration order. */
  const Registered: seq<Handler> := [
    CommandHandler("start", Start),
    CallbackQueryHandler(LangPattern, LangSelect),
    CallbackQueryHandler(SectionPattern, ShowSection)
  ]

  /** The position of the first handler in `hs` that accepts `e`, if any. */
  function FirstMatch(hs: seq<Handler>, e: Event): (r: Option<nat>)
    ensures r.None? <==> forall i :: 0 <= i < |hs| ==> !Accepts(hs[i], e)
    ensures r.Some? ==> r.value < |hs| && Accepts(hs[r.value], e)
    ensures r.Some? ==> forall j :: 0 <= j < r.value ==> !Accepts(hs[j], e)
  {
    if hs == [] then None
    else if Accepts(hs[0], e) then Some(0)
    else match FirstMatch(hs[1..], e)
      case None => None
      case Some(k) => Some(k + 1)
  }

  /** Runs the named handler on the update; the command handler reads the message, the callback handlers
      the button press, so each needs an update of its own kind. */
  function Invoke(callback: Callback, e: Event): (r: Response)
    requires callback == Start ==> e.Command?
    requires callback != Start ==> e.CallbackQuery?
    ensures callback == Start ==> r == Handlers.Start(e.chat) && r.delivery == NewMessage(e.chat)
    ensures callback == LangSelect ==> r == Handlers.LangSelect(e.data, e.chat, e.message)
    ensures callback == ShowSection ==> r == Handlers.ShowSection(e.data, e.chat, e.message)
    ensures callback != Start ==> r.delivery == EditMessage(e.chat, e.message)
  {
    match callback
    case Start => Handlers.Start(e.chat)
    case LangSelect => Handlers.LangSelect(e.data, e.chat, e.message)
    case ShowSection => Handlers.ShowSection(e.data, e.chat, e.message)
  }

  /** The bot's reply to an update: the first accepting handler's response, or none. A command is
      answered with a new message in its chat, a button press by an edit of the pressed message. */
  function Route(e: Event): (r: Option<Response>)
    ensures r.None? <==> forall i :: 0 <= i < |Registered| ==> !Accepts(Registered[i], e)
    ensures r.Some? && e.Command? ==> r.value.delivery == NewMessage(e.chat)
    ensures r.Some? && e.CallbackQuery? ==> r.value.delivery == EditMessage(e.chat, e.message)
  {
    match FirstMatch(Registered, e)
    case None => None
    case Some(i) => Some(Invoke(Registered[i].callback, e))
  }

  /** Callback data routed to the section handler: a section name and an underscore begin it. */
  predicate SectionPrefixed(s: string) {
    exists i :: 0 <= i < |SectionNames| && StartsWith(s, SectionNames[i] + "_")
  }

  /** The two callback patterns never both match. */
  lemma PatternsDisjoint(s: string)
    ensures !(Matches(LangPattern, s) && Matches(SectionPattern, s))
  {
    if Matches(LangPattern, s) {
      assert StartsWith(s, "lang_");
      assert s[0] == 'l';
      forall i | 0 <= i < |SectionPattern.alternatives|
        ensures !StartsWith(s, SectionPattern.alternatives[i] + "_")
      {
        assert (SectionPattern.alternatives[i] + "_")[0] != 'l';
      }
    }
  }

  /** The section pattern matches exactly the data that begins with a catalog section name and `_`. */
  lemma SectionPatternMatchesSections(s: string)
    ensures Matches(SectionPattern, s) <==> SectionPrefixed(s)
  {
  }

  /** What each registered handler accepts: the first the `/start` command, the second presses whose
      data begins with `lang_`, the third presses whose data begins with a section name and `_`. */
  lemma RegisteredAcceptance(e: Event)
    ensures |Registered| == 3
    ensures Accepts(Registered[0], e) <==> e.Command? && e.name == "start"
    ensures Accepts(Registered[1], e) <==> e.CallbackQuery? && StartsWith(e.data, "lang_")
    ensures Accepts(Registered[2], e) <==> e.CallbackQuery? && SectionPrefixed(e.data)
  {
  }

  /** The `/start` command is answered by the picker; every other command gets no reply. */
  lemma RouteCommand(name: string, chat: int)
    ensures Route(Command(name, chat)) == if name == "start" then Some(Handlers.Start(chat)) else None
  {
  }

  /** A button press goes to the language menu when its data begins with `lang_`, to the section view
      when it begins with a section name and `_`, and gets no reply otherwise. */
  lemma RouteCallback(data: string, chat: int, message: int)
    ensures Route(CallbackQuery(data, chat, message)) ==
      if StartsWith(data, "lang_") then Some(Handlers.LangSelect(data, chat, message))
      else if SectionPrefixed(data) then Some(Handlers.ShowSection(data, chat, message))
      else None
  {
    var e := CallbackQuery(data, chat, message);
    assert Matches(LangPattern, data) <==> StartsWith(data, "lang_") by {
      assert LangPattern.alternatives[0] + "_" == "lang_";
    }
    SectionPatternMatchesSections(data);
    assert !Accepts(Registered[0], e);
    var r := FirstMatch(Registered, e);
    if StartsWith(data, "lang_") {
      assert Accepts(Registered[1], e);
      assert r == Some(1);
    } else if SectionPrefixed(data) {
      assert Accepts(Registered[2], e);
      assert r == Some(2);
    } else {
      assert r == None;
    }
  }

  /** Updates that are neither commands nor button presses get no reply. */
  lemma RouteOther()
    ensures Route(OtherUpdate) == None
  {
  }
}
