/** The two list-rendering replies, `ping` and `channels`: each appends
    "item, " for every item to a "Heading: " prefix and then cuts the last two
    characters off the result. */
module Listing {
  import opened Irc

  /** The items separated by ", ". */
  function CommaJoin(items: seq<string>): string
  {
    if |items| == 0 then ""
    else if |items| == 1 then items[0]
    else CommaJoin(items[..|items| - 1]) + ", " + items[|items| - 1]
  }

  /** The reply as a reader sees it: "Heading: a, b, c", or the bare heading when
      there are no items. */
  function Rendered(heading: string, items: seq<string>): string
  {
    if items == [] then heading else heading + ": " + CommaJoin(items)
  }

  /** What the builder loop has appended after the prefix: every item
      followed by ", ". */
  function Terminated(items: seq<string>): string
  {
    if items == [] then "" else Terminated(items[..|items| - 1]) + items[|items| - 1] + ", "
  }

  lemma {:induction false} TerminatedIsJoinPlusSeparator(items: seq<string>)
    requires items != []
    ensures Terminated(items) == CommaJoin(items) + ", "
  {
    var init := items[..|items| - 1];
    if init != [] {
      TerminatedIsJoinPlusSeparator(init);
    }
  }

  /** Cutting the last two characters off "Heading: " followed by the
      terminated items gives exactly the rendered reply; with no items the
      cut eats the ": " of the prefix. */
  lemma CutBuilderOutput(heading: string, items: seq<string>)
    ensures |heading + ": " + Terminated(items)| >= 2
    ensures var out := heading + ": " + Terminated(items);
            out[..|out| - 2] == Rendered(heading, items)
  {
    var out := heading + ": " + Terminated(items);
    if items == [] {
      assert out == heading + ": ";
      assert out[..|out| - 2] == heading;
    } else {
      TerminatedIsJoinPlusSeparator(items);
      assert out == (heading + ": " + CommaJoin(items)) + ", ";
    }
  }

  /** Whether `ping` names user `u`: not ChanServ, not the bot, not away. */
  predicate Pingable(u: UserInfo, botNick: string, away: seq<string>)
  {
    u.nick != "ChanServ" && u.nick != botNick && u.hostmask !in away
  }

  /** The nicks `ping` names, in the users' iteration order. */
  function PingNicks(users: seq<UserInfo>, botNick: string, away: seq<string>): (r: seq<string>)
    ensures |r| <= |users|
    ensures "ChanServ" !in r && botNick !in r
  {
    if users == [] then []
    else
      var rest := PingNicks(users[..|users| - 1], botNick, away);
      var u := users[|users| - 1];
      if Pingable(u, botNick, away) then rest + [u.nick] else rest
  }

  /** Whether some pingable user in `users` has nick `n`. */
  predicate HasPingableNick(users: seq<UserInfo>, botNick: string, away: seq<string>, n: string)
  {
    exists j :: 0 <= j < |users| && Pingable(users[j], botNick, away) && users[j].nick == n
  }

  /** Every named nick belongs to a pingable user, and every pingable user's
      nick is named. */
  lemma {:induction false} PingNicksExact(users: seq<UserInfo>, botNick: string, away: seq<string>)
    ensures forall n :: n in PingNicks(users, botNick, away) <==> HasPingableNick(users, botNick, away, n)
  {
    if users != [] {
      var init := users[..|users| - 1];
      var last := users[|users| - 1];
      PingNicksExact(init, botNick, away);
      forall n ensures n in PingNicks(users, botNick, away) <==> HasPingableNick(users, botNick, away, n)
      {
        if HasPingableNick(init, botNick, away, n) {
          var j :| 0 <= j < |init| && Pingable(init[j], botNick, away) && init[j].nick == n;
          assert users[j] == init[j];
        }
        if HasPingableNick(users, botNick, away, n) {
          var j :| 0 <= j < |users| && Pingable(users[j], botNick, away) && users[j].nick == n;
          if j < |init| {
            assert init[j] == users[j];
          }
        }
        if Pingable(last, botNick, away) && last.nick == n {
          assert users[|users| - 1] == last;
        }
      }
    }
  }

  /** The `ping` branch's loop: builds "Ping: " plus "nick, " for each
      pingable user and cuts the last two characters. */
  method BuildPing(botNick: string, users: seq<UserInfo>, awayList: seq<string>) returns (text: string)
    ensures text == Rendered("Ping", PingNicks(users, botNick, awayList))
  {
    var outStr := "Ping: ";
    var i := 0;
    while i < |users|
      invariant 0 <= i <= |users|
      invariant outStr == "Ping: " + Terminated(PingNicks(users[..i], botNick, awayList))
    {
      var tUser := users[i];
      var tNick := tUser.nick;
      assert users[..i + 1][..i] == users[..i];
      ghost var named := PingNicks(users[..i], botNick, awayList);
      if tNick != "ChanServ" && tNick != botNick && tUser.hostmask !in awayList {
        assert (named + [tNick])[..|named|] == named;
        outStr := outStr + tNick + ", ";
      }
      i := i + 1;
    }
    assert users[..i] == users;
    CutBuilderOutput("Ping", PingNicks(users, botNick, awayList));
    text := outStr[..|outStr| - 2];
  }

  /** The `channels` branch's loop: builds "Channels: " plus "name, " for each
      joined channel and cuts the last two characters. */
  method BuildChannels(channels: seq<string>) returns (text: string)
    ensures text == Rendered("Channels", channels)
  {
    var outStr := "Channels: ";
    var i := 0;
    while i < |channels|
      invariant 0 <= i <= |channels|
      invariant outStr == "Channels: " + Terminated(channels[..i])
    {
      assert channels[..i + 1][..i] == channels[..i];
      outStr := outStr + channels[i] + ", ";
      i := i + 1;
    }
    assert channels[..i] == channels;
    CutBuilderOutput("Channels", channels);
    text := outStr[..|outStr| - 2];
  }
}
