/** The command handler: one command word from a user in a channel becomes
    an ordered list of bot effects and, for the away commands, a new away
    list. `Dispatch` states what each branch does; `ProcessCommand` does it
    step by step against the away file. */
module CommandHandler {
  import opened Irc
  import opened AwayStore
  import opened Listing
  import opened Uptime
  import opened Replies

  /** What the handler takes from outside the program: the text of the
      current date, the bot's elapsed uptime in whole seconds, and the value
      the random generator draws for `coin` (0 or 1). */
  datatype Environment = Environment(now: string, elapsedSeconds: nat, coin: int)

  /** The effects of one command and the away list afterwards. */
  datatype Outcome = Outcome(effects: seq<Effect>, away: seq<string>)

  /** Every command word the handler answers; matching is exact and case-sensitive. */
  const KnownCommands: set<string> :=
    {"joinchannel", "partchannel", "leavechannel", "clearaway", "time", "uptime",
     "channels", "back", "away", "ping", "coin", "hi", "cocoa", "stoke", "commands", "help"}

  /** The commands that need the caller to be Op in the origin channel. */
  const OpCommands: set<string> := {"joinchannel", "partchannel", "leavechannel", "clearaway"}

  /** The branch of the handler's if/else-if chain a command word selects. */
  datatype Command =
    | JoinChannel | PartChannel | ClearAway | ShowTime | ShowUptime | ListChannels
    | MarkBack | MarkAway | PingUsers | FlipCoin | Greet | GiveCocoa | StokeFire
    | ListCommands | ShowHelp | Unrecognized

  /** The command word's branch: words are compared exactly, in the chain's
      order; `partchannel` and `leavechannel` share one branch, and a word
      matching none falls off the end of the chain. */
  function Classify(command: string): Command
  {
    if command == "joinchannel" then JoinChannel
    else if command == "partchannel" || command == "leavechannel" then PartChannel
    else if command == "clearaway" then ClearAway
    else if command == "time" then ShowTime
    else if command == "uptime" then ShowUptime
    else if command == "channels" then ListChannels
    else if command == "back" then MarkBack
    else if command == "away" then MarkAway
    else if command == "ping" then PingUsers
    else if command == "coin" then FlipCoin
    else if command == "hi" then Greet
    else if command == "cocoa" then GiveCocoa
    else if command == "stoke" then StokeFire
    else if command == "commands" then ListCommands
    else if command == "help" then ShowHelp
    else Unrecognized
  }

  /** The whole handler as one function of its inputs and of the away list
      it reads. Each word the chain matches issues exactly one effect; a word
      it does not match issues none and changes nothing; only `clearaway`,
      `back` and `away` can change the away list. */
  function Dispatch(bot: BotView, channel: ChannelView, user: UserInfo, command: string,
                    params: seq<string>, env: Environment, away: seq<string>): (o: Outcome)
    ensures Classify(command) != Unrecognized <==> |o.effects| == 1
    ensures Classify(command) == Unrecognized ==> o == Outcome([], away)
    ensures o.away != away ==> Classify(command) in {ClearAway, MarkBack, MarkAway}
  {
    match Classify(command)
    case JoinChannel =>
      if !channel.callerIsOp then Outcome([Notice(user.nick, NoOpPrivileges)], away)
      else if |params| > 0 then Outcome([Join(params[0])], away)
      else Outcome([Notice(user.nick, MissingChannel)], away)
    case PartChannel =>
      if !channel.callerIsOp then Outcome([Notice(user.nick, NoOpPrivileges)], away)
      else if |bot.channels| > 1 then
        if |params| > 0 then Outcome([Part(params[0])], away)
        else Outcome([Part(channel.name)], away)
      else Outcome([Notice(user.nick, MustStayJoined(bot.nick))], away)
    case ClearAway =>
      if !channel.callerIsOp then Outcome([Notice(user.nick, NoOpPrivileges)], away)
      else Outcome([Notice(user.nick, AwayListEmptied)], [])
    case ShowTime => Outcome([Message(channel.name, CurrentTime(env.now))], away)
    case ShowUptime => Outcome([Message(channel.name, UptimeIs(Split(env.elapsedSeconds)))], away)
    case ListChannels => Outcome([Message(channel.name, Listed(Rendered("Channels", bot.channels)))], away)
    case MarkBack =>
      if user.hostmask in away then
        Outcome([Notice(user.nick, NoLongerAway)], RemoveFirst(away, user.hostmask))
      else Outcome([Notice(user.nick, NotMarkedAway)], away)
    case MarkAway =>
      if user.hostmask in away then Outcome([Notice(user.nick, AlreadyAway)], away)
      else Outcome([Notice(user.nick, NowAway)], away + [user.hostmask])
    case PingUsers =>
      Outcome([Message(channel.name, Listed(Rendered("Ping", PingNicks(channel.users, bot.nick, away))))], away)
    case FlipCoin => Outcome([Message(channel.name, CoinLands(user.nick, env.coin != 0))], away)
    case Greet => Outcome([Message(channel.name, Greeting(user.nick))], away)
    case GiveCocoa => Outcome([Action(channel.name, HandsCocoa(user.nick))], away)
    case StokeFire => Outcome([Action(channel.name, StokesFire)], away)
    case ListCommands => Outcome([Message(channel.name, CommandList)], away)
    case ShowHelp => Outcome([Message(channel.name, HelpFor(user.nick))], away)
    case Unrecognized => Outcome([], away)
  }

  /** processCommand: the if/else-if chain over the command word, reading and
      writing the away file through its helpers. */
  method ProcessCommand(file: AwayFile, bot: BotView, channel: ChannelView, user: UserInfo,
                        command: string, params: seq<string>, env: Environment)
    returns (effects: seq<Effect>)
    modifies file
    ensures var o := Dispatch(bot, channel, user, command, params, env, old(file.lines));
            effects == o.effects && file.lines == o.away
  {
    effects := [];
    var c := Classify(command);
    if c == JoinChannel {
      if !channel.callerIsOp {
        effects := effects + [Notice(user.nick, NoOpPrivileges)];
      } else {
        if |params| > 0 {
          effects := effects + [Join(params[0])];
        } else {
          effects := effects + [Notice(user.nick, MissingChannel)];
        }
      }
    } else if c == PartChannel {
      if !channel.callerIsOp {
        effects := effects + [Notice(user.nick, NoOpPrivileges)];
      } else {
        if |bot.channels| > 1 {
          if |params| > 0 {
            effects := effects + [Part(params[0])];
          } else {
            effects := effects + [Part(channel.name)];
          }
        } else {
          effects := effects + [Notice(user.nick, MustStayJoined(bot.nick))];
        }
      }
    } else if c == ClearAway {
      if !channel.callerIsOp {
        effects := effects + [Notice(user.nick, NoOpPrivileges)];
      } else {
        file.ClearAwayList();
        effects := effects + [Notice(user.nick, AwayListEmptied)];
      }
    } else if c == ShowTime {
      effects := effects + [Message(channel.name, CurrentTime(env.now))];
    } else if c == ShowUptime {
      var d := env.elapsedSeconds;
      var seconds := d % 60;
      var minutes := (d / 60) % 60;
      var hours := (d / 3600) % 24;
      var days := d / 86400;
      effects := effects + [Message(channel.name, UptimeIs(Duration(days, hours, minutes, seconds)))];
    } else if c == ListChannels {
      var text := BuildChannels(bot.channels);
      effects := effects + [Message(channel.name, Listed(text))];
    } else if c == MarkBack {
      var awayList := file.GetAwayList();
      if user.hostmask in awayList {
        var _ := file.SetUserBack(awayList, user.hostmask);
        effects := effects + [Notice(user.nick, NoLongerAway)];
      } else {
        effects := effects + [Notice(user.nick, NotMarkedAway)];
      }
    } else if c == MarkAway {
      var awayList := file.GetAwayList();
      if user.hostmask in awayList {
        effects := effects + [Notice(user.nick, AlreadyAway)];
      } else {
        file.SetUserAway(user.hostmask);
        effects := effects + [Notice(user.nick, NowAway)];
      }
    } else if c == PingUsers {
      var awayList := file.GetAwayList();
      var text := BuildPing(bot.nick, channel.users, awayList);
      effects := effects + [Message(channel.name, Listed(text))];
    } else if c == FlipCoin {
      var n := env.coin;
      if n == 0 {
        effects := effects + [Message(channel.name, CoinLands(user.nick, false))];
      } else {
        effects := effects + [Message(channel.name, CoinLands(user.nick, true))];
      }
    } else if c == Greet {
      effects := effects + [Message(channel.name, Greeting(user.nick))];
    } else if c == GiveCocoa {
      effects := effects + [Action(channel.name, HandsCocoa(user.nick))];
    } else if c == StokeFire {
      effects := effects + [Action(channel.name, StokesFire)];
    } else if c == ListCommands {
      effects := effects + [Message(channel.name, CommandList)];
    } else if c == ShowHelp {
      effects := effects + [Message(channel.name, HelpFor(user.nick))];
    }
  }
}
