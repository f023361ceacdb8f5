/** The values the bot exchanges with the chat platform: inbound updates and outbound replies. */
module BotTypes {

  datatype Option<+T> = None | Some(value: T)

  /** An inline button: the text the user sees and what a press does. A callback button sends its
      callback data back to the bot; a URL button opens its URL and sends the bot nothing. */
  datatype Button =
    | CallbackButton(text: string, callbackData: string)
    | UrlButton(text: string, url: string)

  /** An inline keyboard: rows from top to bottom, each row's buttons from left to right. */
  type Keyboard = seq<seq<Button>>

  /** How a reply reaches the user: posted as a new message in a chat, or written over
      the message that hosted the button that was pressed. */
  datatype Delivery =
    | NewMessage(chat: int)
    | EditMessage(chat: int, message: int)

  /** One outbound platform call: the text, the keyboard attached to it (if any) and the delivery. */
  datatype Response = Response(text: string, keyboard: Option<Keyboard>, delivery: Delivery)

  /** An inbound update, reduced to what the handlers read from it. */
  datatype Event =
      /** A message carrying a bot command, sent in `chat`. `name` is the command as the library
          compares it: lower-cased, without the slash, without an `@` suffix naming this bot and
          without arguments, so `/START` and `/start@<this bot>` both carry the name `start`. A command
          addressed to another bot is not accepted as a command at all, and is an `OtherUpdate`. */
    | Command(name: string, chat: int)
      /** A press of an inline button whose callback data is `data`; `message` is the message holding it. */
    | CallbackQuery(data: string, chat: int, message: int)
      /** Any other update (plain text, an edited message, ...). */
    | OtherUpdate

  /** The update a press of `b` on message `message` in `chat` sends to the bot: a callback query
      for a callback button, nothing for a URL button. */
  function Press(b: Button, chat: int, message: int): Option<Event> {
    match b
    case CallbackButton(_, data) => Some(CallbackQuery(data, chat, message))
    case UrlButton(_, _) => None
  }

  /** `s` begins with `prefix`. */
  predicate StartsWith(s: string, prefix: string) {
    |prefix| <= |s| && s[..|prefix|] == prefix
  }
}
