/** Plain values that stand in for the IRC library's bot, channel and user
    objects at the boundary of the command handler. */
module Irc {

  /** A user as the handler sees one: the nick shown in channels and the
      user@host identity that the away list is keyed on. */
  datatype UserInfo = UserInfo(nick: string, hostmask: string)

  /** The bot itself: its current nick and the names of the channels it is
      joined to, in the iteration order of its channel set. */
  datatype BotView = BotView(nick: string, channels: seq<string>)

  /** The channel a command came from: its name, its users in the iteration
      order of its user set, and whether the caller holds Op in it. */
  datatype ChannelView = ChannelView(name: string, users: seq<UserInfo>, callerIsOp: bool)
}
