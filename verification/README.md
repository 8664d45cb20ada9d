# ircutil command handler, modelled in Dafny

This project models the command handler of the ircutil IRC bot
(`Utilities.processCommand` and its away-list helpers). A user in a channel
types a command word with parameters. The handler answers with an ordered list
of bot effects: a notice to the user, a message or action in the channel, or a
join or part of a channel. The `away`, `back` and `clearaway` commands also
change the away list, which is the file `away.txt` with one hostmask per line
(`away` appends a line; `back` and `clearaway` rewrite the file).

The bot, channel and user objects of the IRC library are replaced by plain
values (`Irc`): the bot's nick and channel names, the origin channel's name,
its users as (nick, hostmask) pairs, and whether the caller is Op there.

Modules:

- `Irc`: the boundary value types.
- `Replies`: every reply the handler gives, as a `Reply` value whose exact
  wording is `Text(reply)`, and the `Effect` datatype (notice, message,
  action, join, part) that carries replies.
- `AwayStore`: the class `AwayFile` (the file's lines as a `seq<string>`) with
  the four helpers `GetAwayList`, `SetUserAway`, `SetUserBack` and
  `ClearAwayList`, and `RemoveFirst`, which stands for `ArrayList.remove(Object)`.
- `Listing`: the append-then-cut string building of `ping` and `channels`,
  as loops (`BuildPing`, `BuildChannels`) proved against a join-with-", "
  reference (`Rendered`).
- `Uptime`: the split of elapsed seconds into days, hours, minutes and seconds,
  and the two-digit `%02d` rendering.
- `CommandHandler`: `Classify` (which branch of the if/else-if chain a word
  selects), `Dispatch` (the whole handler as a function of its inputs and the
  away list) and `ProcessCommand` (the handler step by step against an
  `AwayFile`, proved equal to `Dispatch`).
- `HandlerProperties`: what each branch and some command sequences promise.

Command words are matched exactly and case-sensitively (`String.equals`); the
only privilege check is Op status in the origin channel.

## Model

| member | source | states |
|---|---|---|
| AwayStore.RemoveFirst | Utilities.java:200 | removing an absent hostmask changes nothing; removing a present one shortens the list by exactly one |
| AwayStore.RemoveFirstCount | Utilities.java:200 | removal takes exactly one copy of the hostmask out of the multiset of entries and leaves every other entry's count alone |
| AwayStore.RemoveFirstAt | Utilities.java:197-203 | when the first occurrence is at index i, removal yields the entries before i followed by the entries after i, so the remaining entries keep their order |
| AwayStore.RemoveFirstAfterAppend | Utilities.java:114-131 | appending an absent hostmask and then removing it gives back the original list |
| AwayStore.AwayFile.GetAwayList | Utilities.java:221-229 | the line-by-line read returns exactly the file's lines, in order |
| AwayStore.AwayFile.SetUserAway | Utilities.java:186-190 | the file gains the hostmask as one more last line |
| AwayStore.AwayFile.SetUserBack | Utilities.java:197-203 | the file is rewritten to hold the given list with its first copy of the hostmask removed, and that list is handed back |
| AwayStore.AwayFile.ClearAwayList | Utilities.java:211-215 | the file is left empty |
| Listing.CutBuilderOutput | Utilities.java:106-111 | cutting the last two characters off "Heading: " plus every item followed by ", " gives "Heading: a, b, ...", or the bare heading when there are no items |
| Listing.PingNicks | Utilities.java:141-148 | the named nicks are never "ChanServ" or the bot's own nick and are at most as many as the users |
| Listing.PingNicksExact | Utilities.java:144-146 | a nick is named if and only if some user with that nick is not ChanServ, not the bot and not on the away list |
| Listing.BuildPing | Utilities.java:134-149 | the loop's reply equals "Ping" rendered with the pingable users' nicks in iteration order |
| Listing.BuildChannels | Utilities.java:104-111 | the loop's reply equals "Channels" rendered with the joined channel names in iteration order |
| Uptime.Split | Utilities.java:96-100 | seconds, minutes and hours are below 60, 60 and 24; days is d / 86400; the parts add back up to d |
| Uptime.SplitOfTotal | Utilities.java:96-100 | any duration with hours, minutes and seconds below their carry limits is the split of its own total, so the split is unique |
| Uptime.DecimalRoundTrip | Utilities.java:101 | reading the printed decimal digits back gives the number |
| Uptime.TwoDigits | Utilities.java:101 | `%02d` output is decimal digits only, at least two characters and exactly two below 100, has no leading zero from 10 up, and reads back as the number |
| CommandHandler.Dispatch | Utilities.java:52-183 | a word the if/else-if chain matches issues exactly one effect; a word it does not match issues none and leaves the away list unchanged; only clearaway, back and away can change the away list |
| HandlerProperties.KnownWords | Utilities.java:54-182 | the chain matches a word exactly when it is one of the sixteen command words, compared exactly and case-sensitively |
| CommandHandler.ProcessCommand | Utilities.java:52-183 | the step-by-step handler issues exactly the effects of Dispatch and leaves the file holding Dispatch's away list |
| HandlerProperties.OpGate | Utilities.java:54-88 | a non-Op caller of joinchannel, partchannel, leavechannel or clearaway gets exactly one notice that they lack Op; nothing is joined or parted and the away list is unchanged |
| HandlerProperties.JoinChannelByOp | Utilities.java:58-62 | for an Op, no parameters gives only "Missing channel parameter."; otherwise exactly params[0] is joined |
| HandlerProperties.PartChannelByOp | Utilities.java:70-78 | for an Op, with at most one channel joined only "<nick> must be joined to at least 1 channel." is sent; otherwise params[0] is parted if given, else the origin channel |
| HandlerProperties.AwayAppendsOnce | Utilities.java:124-131 | away appends an absent hostmask at the end and the list then holds it; a present one leaves the list unchanged with the "already marked" notice |
| HandlerProperties.AwayIdempotent | Utilities.java:124-131 | a second away from the same user leaves the list as the first left it and says "already marked" |
| HandlerProperties.BackRemovesFirst | Utilities.java:114-121 | back from a user on the list removes only the first occurrence of their hostmask, keeps the other entries in order, takes one copy out of the multiset and says "You are no longer marked as away." |
| HandlerProperties.BackWhenNotAway | Utilities.java:114-121 | back from a user not on the list leaves it unchanged and sends only "You are not marked as away!" |
| HandlerProperties.AwayThenBack | Utilities.java:114-131 | away followed by back from a user not yet away restores the original list |
| HandlerProperties.ClearThenBack | Utilities.java:82-121 | an Op's clearaway empties the list, and a later back from any user reports "not marked as away" |
| HandlerProperties.UptimeReply | Utilities.java:95-101 | uptime sends one message carrying days, hours below 24, minutes below 60 and seconds below 60 that add back up to the elapsed seconds, with days the elapsed seconds divided by 86400 |
| HandlerProperties.PingReply | Utilities.java:134-149 | ping sends one message naming exactly the pingable users in channel order; with none it is the bare "Ping"; the away list is unchanged |
| HandlerProperties.ChannelsReply | Utilities.java:104-111 | channels sends one message listing the joined channels after "Channels: "; with none it is the bare "Channels" |

## Left out

- CloneBot.java is not part of this model. It only configures a PircBotX subclass, connects it to the network and joins one channel when the library reports the connection; all of that is library calls and network I/O.
- The fixed-text branches (`time`, `coin`, `hi`, `cocoa`, `stoke`, `commands`, `help`) have no lemma of their own. `Dispatch` says which reply each sends and `Replies.Text` gives its wording. Dispatch's contract covers them only as "one effect, away list unchanged".
- Concurrent commands are not modelled. `ProcessCommand` treats each command as one atomic read-then-write of the away list. In the source, the read and the write of away.txt are separate file opens with no lock, and `processCommand` is not synchronized. Two commands handled at once could interleave; for example, two `away` commands from one hostmask could both append it. The caller that decides the threading is not part of this model.
- Sending effects over IRC is not modelled. The handler's effects are returned as an ordered list instead of being sent through the library.
- I/O failures on away.txt are not modelled. The source swallows every `IOException`, and a failed read yields an empty list. In the model every read, append and rewrite succeeds.
- A hostmask that contains a line break is not modelled. It would be split into two lines when the file is read back.
- AwayStore.AwayFile.SetUserBack: the source removes the hostmask from the caller's `ArrayList` in place; the model returns the shortened list instead. The handler never uses that list again.
- The wall clock is an input. `new Date().toString()` becomes `Environment.now`, and the elapsed uptime becomes `Environment.elapsedSeconds`, a `nat`. A clock set back before the start time is not modelled. It would make the source's truncating division yield negative fields.
- Java `long` overflow of the uptime arithmetic is not modelled.
- The random coin flip is an input, `Environment.coin`. The model mirrors the source's comparison: 0 means tails and any other value heads.
- IRC formatting is kept only as the bold control character (code 2) around the coin reply's parts. Nothing else about IRC colour codes is modelled.
- The bot's channel set and the channel's user set are given as sequences in their iteration order. `getChannels().size()` is the length of that sequence, which assumes it has no duplicate names.
- `partChannel(bot.getChannel(name))` is modelled as a part of the named channel. The library's lookup of the channel object is not modelled.
