/** What the bot sends back: each reply the handler can give, the exact text
    it is sent as, and the effects that carry replies or move the bot
    between channels. */
module Replies {
  import opened Uptime

  /** IRC's bold toggle, control character 2. */
  const Bold := "\U{2}"

  /** Every reply of the handler. The variable parts are fields; the fixed
      wording is in `Text`. */
  datatype Reply =
    | NoOpPrivileges
    | MissingChannel
    | MustStayJoined(botNick: string)
    | AwayListEmptied
    | NoLongerAway
    | NotMarkedAway
    | AlreadyAway
    | NowAway
    | CurrentTime(date: string)
    | UptimeIs(parts: Duration)
    | Listed(line: string)
    | CoinLands(nick: string, heads: bool)
    | Greeting(nick: string)
    | HandsCocoa(nick: string)
    | StokesFire
    | CommandList
    | HelpFor(nick: string)

  /** The text each reply is sent as. */
  function Text(r: Reply): string
  {
    match r
    case NoOpPrivileges => "You do not have Op privileges in this channel."
    case MissingChannel => "Missing channel parameter."
    case MustStayJoined(nick) => nick + " must be joined to at least 1 channel."
    case AwayListEmptied => "The away list as been emptied."
    case NoLongerAway => "You are no longer marked as away."
    case NotMarkedAway => "You are not marked as away!"
    case AlreadyAway => "You are already marked as away!"
    case NowAway => "You are now marked as away."
    case CurrentTime(date) => "Time: " + date
    case UptimeIs(u) =>
      "Uptime: " + TwoDigits(u.days) + ":" + TwoDigits(u.hours) + ":" +
      TwoDigits(u.minutes) + ":" + TwoDigits(u.seconds)
    case Listed(line) => line
    case CoinLands(nick, heads) =>
      Bold + nick + Bold + " flips a coin... and it lands on " +
      (if heads then Bold + "heads" + Bold + "." else Bold + "tails" + Bold + ".")
    case Greeting(nick) => "Hi " + nick + "!"
    case HandsCocoa(nick) => "hands " + nick + " a cup of hot chocolate. Cheers!"
    case StokesFire => "stokes the glowing ambers of the fire."
    case CommandList => "Commands: channels, time, uptime, cocoa, stoke, away, back, ping, coin, hi, help"
    case HelpFor(nick) => nick + ": Read the topic. For a list of non-game commands, type .commands."
  }

  /** One externally observable action of the bot, in the order it is issued. */
  datatype Effect =
    | Notice(target: string, reply: Reply)   // a notice to a user, addressed by nick
    | Message(target: string, reply: Reply)  // a message to a channel
    | Action(target: string, reply: Reply)   // an action ("/me") in a channel
    | Join(channel: string)                  // join the named channel
    | Part(channel: string)                  // leave the named channel
}
