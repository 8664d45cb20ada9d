/** What the command handler promises, branch by branch and across
    successive commands. */
module HandlerProperties {
  import opened Irc
  import opened AwayStore
  import opened Listing
  import opened Uptime
  import opened Replies
  import opened CommandHandler

  /** The chain matches exactly the sixteen command words. */
  lemma KnownWords(command: string)
    ensures Classify(command) != Unrecognized <==> command in KnownCommands
  {
  }

  /** A caller who is not Op gets exactly the one refusal notice from
      `joinchannel`, `partchannel`, `leavechannel` and `clearaway`: nothing is
      joined or parted and the away list stays as it was. */
  lemma OpGate(bot: BotView, channel: ChannelView, user: UserInfo, command: string,
               params: seq<string>, env: Environment, away: seq<string>)
    requires command in OpCommands && !channel.callerIsOp
    ensures Dispatch(bot, channel, user, command, params, env, away)
            == Outcome([Notice(user.nick, NoOpPrivileges)], away)
  {
    assert Classify(command) in {JoinChannel, PartChannel, ClearAway};
  }

  /** An Op's `joinchannel` joins exactly the first parameter, or reports
      the missing parameter and joins nothing. */
  lemma JoinChannelByOp(bot: BotView, channel: ChannelView, user: UserInfo,
                        params: seq<string>, env: Environment, away: seq<string>)
    requires channel.callerIsOp
    ensures var o := Dispatch(bot, channel, user, "joinchannel", params, env, away);
            o.away == away &&
            (params == [] ==> o.effects == [Notice(user.nick, MissingChannel)]) &&
            (params != [] ==> o.effects == [Join(params[0])])
  {
  }

  /** An Op's `partchannel` (or `leavechannel`): with at most one channel
      joined it only sends the explanation; otherwise it parts `params[0]`, or
      the origin channel when there is no parameter. */
  lemma PartChannelByOp(bot: BotView, channel: ChannelView, user: UserInfo, command: string,
                        params: seq<string>, env: Environment, away: seq<string>)
    requires command == "partchannel" || command == "leavechannel"
    requires channel.callerIsOp
    ensures var o := Dispatch(bot, channel, user, command, params, env, away);
            o.away == away &&
            (|bot.channels| <= 1 ==>
               o.effects == [Notice(user.nick, MustStayJoined(bot.nick))]) &&
            (|bot.channels| > 1 && params != [] ==> o.effects == [Part(params[0])]) &&
            (|bot.channels| > 1 && params == [] ==> o.effects == [Part(channel.name)])
  {
  }

  /** `away` appends an absent hostmask at the end, after which the list holds
      it; a hostmask already present leaves the list as it was and draws the
      "already marked" notice. */
  lemma AwayAppendsOnce(bot: BotView, channel: ChannelView, user: UserInfo,
                        params: seq<string>, env: Environment, away: seq<string>)
    ensures var o := Dispatch(bot, channel, user, "away", params, env, away);
            user.hostmask in o.away &&
            (user.hostmask !in away ==>
               o == Outcome([Notice(user.nick, NowAway)], away + [user.hostmask])) &&
            (user.hostmask in away ==> o == Outcome([Notice(user.nick, AlreadyAway)], away))
  {
  }

  /** A second `away` from the same user changes nothing more. */
  lemma AwayIdempotent(bot: BotView, channel: ChannelView, user: UserInfo,
                       params: seq<string>, env: Environment, away: seq<string>)
    ensures var once := Dispatch(bot, channel, user, "away", params, env, away).away;
            Dispatch(bot, channel, user, "away", params, env, once)
            == Outcome([Notice(user.nick, AlreadyAway)], once)
  {
    AwayAppendsOnce(bot, channel, user, params, env, away);
  }

  /** `back` from a user on the away list removes only the first occurrence
      of their hostmask and keeps the other entries in their order. */
  lemma BackRemovesFirst(bot: BotView, channel: ChannelView, user: UserInfo,
                         params: seq<string>, env: Environment, away: seq<string>)
    requires user.hostmask in away
    ensures var o := Dispatch(bot, channel, user, "back", params, env, away);
            var i := FirstIndex(away, user.hostmask);
            o.effects == [Notice(user.nick, NoLongerAway)] &&
            o.away == away[..i] + away[i + 1..] &&
            multiset(o.away) == multiset(away) - multiset{user.hostmask}
  {
    var h := user.hostmask;
    var o := Dispatch(bot, channel, user, "back", params, env, away);
    assert o == Outcome([Notice(user.nick, NoLongerAway)], RemoveFirst(away, h)) by {
      BackOutcome(bot, channel, user, params, env, away);
    }
    RemoveFirstAt(away, h, FirstIndex(away, h));
    RemoveFirstCount(away, h);
  }

  /** Which branch `back` takes. */
  lemma BackOutcome(bot: BotView, channel: ChannelView, user: UserInfo,
                    params: seq<string>, env: Environment, away: seq<string>)
    ensures Dispatch(bot, channel, user, "back", params, env, away)
            == if user.hostmask in away
               then Outcome([Notice(user.nick, NoLongerAway)], RemoveFirst(away, user.hostmask))
               else Outcome([Notice(user.nick, NotMarkedAway)], away)
  {
  }

  /** `back` from a user not on the away list leaves it as it was and draws
      the "not marked" notice. */
  lemma BackWhenNotAway(bot: BotView, channel: ChannelView, user: UserInfo,
                        params: seq<string>, env: Environment, away: seq<string>)
    requires user.hostmask !in away
    ensures Dispatch(bot, channel, user, "back", params, env, away)
            == Outcome([Notice(user.nick, NotMarkedAway)], away)
  {
  }

  /** `away` followed by `back` from the same user restores the list it found. */
  lemma AwayThenBack(bot: BotView, channel: ChannelView, user: UserInfo,
                     params: seq<string>, env: Environment, away: seq<string>)
    requires user.hostmask !in away
    ensures var marked := Dispatch(bot, channel, user, "away", params, env, away).away;
            Dispatch(bot, channel, user, "back", params, env, marked)
            == Outcome([Notice(user.nick, NoLongerAway)], away)
  {
    RemoveFirstAfterAppend(away, user.hostmask);
  }

  /** An Op's `clearaway` empties the list, so a later `back` from anyone,
      anywhere, is told they are not marked as away. */
  lemma ClearThenBack(bot: BotView, channel: ChannelView, user: UserInfo,
                      params: seq<string>, env: Environment, away: seq<string>,
                      bot': BotView, channel': ChannelView, user': UserInfo,
                      params': seq<string>, env': Environment)
    requires channel.callerIsOp
    ensures var cleared := Dispatch(bot, channel, user, "clearaway", params, env, away).away;
            cleared == [] &&
            Dispatch(bot', channel', user', "back", params', env', cleared)
            == Outcome([Notice(user'.nick, NotMarkedAway)], [])
  {
  }

  /** `uptime` reports the unique split of the elapsed seconds into days,
      hours below 24, minutes below 60 and seconds below 60. */
  lemma UptimeReply(bot: BotView, channel: ChannelView, user: UserInfo,
                    params: seq<string>, env: Environment, away: seq<string>)
    ensures var o := Dispatch(bot, channel, user, "uptime", params, env, away);
            o.away == away && |o.effects| == 1 &&
            o.effects[0].Message? && o.effects[0].target == channel.name &&
            o.effects[0].reply.UptimeIs? &&
            var u := o.effects[0].reply.parts;
            Normalized(u) && TotalSeconds(u) == env.elapsedSeconds &&
            u.days == env.elapsedSeconds / 86400
  {
  }

  /** `ping` names, in the channel's order, exactly the users who are not
      ChanServ, not the bot and not away, joined with ", " after "Ping: ";
      with nobody to name the reply is the bare "Ping". */
  lemma PingReply(bot: BotView, channel: ChannelView, user: UserInfo,
                  params: seq<string>, env: Environment, away: seq<string>)
    ensures var o := Dispatch(bot, channel, user, "ping", params, env, away);
            var nicks := PingNicks(channel.users, bot.nick, away);
            o == Outcome([Message(channel.name, Listed(Rendered("Ping", nicks)))], away) &&
            (forall n :: n in nicks <==> HasPingableNick(channel.users, bot.nick, away, n)) &&
            ((forall j :: 0 <= j < |channel.users| ==> !Pingable(channel.users[j], bot.nick, away)) ==>
               o.effects[0].reply == Listed("Ping"))
  {
    var nicks := PingNicks(channel.users, bot.nick, away);
    PingNicksExact(channel.users, bot.nick, away);
    if nicks != [] {
      assert nicks[0] in nicks;
      assert HasPingableNick(channel.users, bot.nick, away, nicks[0]);
    }
  }

  /** `channels` lists the joined channels after "Channels: ", joined with
      ", "; with none joined the reply is the bare "Channels". */
  lemma ChannelsReply(bot: BotView, channel: ChannelView, user: UserInfo,
                      params: seq<string>, env: Environment, away: seq<string>)
    ensures var o := Dispatch(bot, channel, user, "channels", params, env, away);
            o == Outcome([Message(channel.name, Listed(Rendered("Channels", bot.channels)))], away) &&
            (bot.channels == [] ==> o.effects[0].reply == Listed("Channels")) &&
            (|bot.channels| == 1 ==> o.effects[0].reply == Listed("Channels: " + bot.channels[0]))
  {
  }
}
