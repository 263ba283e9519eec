/**
 * Chat: a per-player rate limit, a global message log of at most 100 entries
 * and four channel logs of at most 50, each trimmed at the front, the slash
 * command parser, emotes and system notices.
 *
 * The clock (`Date.now()`) is passed in as `now` (milliseconds).
 */
module Chat {
  import opened Common
  import opened Characters
  import Clans

  datatype Message =
    | ChatMessage(sender: string, text: string, timestamp: int, channel: string,
                  job: string, level: int, clan: Option<string>)
    | SystemNotice(text: string, kind: string, timestamp: int)

  const MessageLimit: nat := 100
  const ChannelLimit: nat := 50
  /** The minimum gap between two messages of one player, in milliseconds. */
  const RateLimitMs: int := 1000

  const ChannelNames: set<string> := {"global", "party", "clan", "trade"}

  // ---------------------------------------------------------------------------
  // Rate limit and bounded logs
  // ---------------------------------------------------------------------------

  /** `now - (lastMessageTime[id] || 0) >= 1000`: a missing (or 0) entry counts as time 0. */
  predicate Admits(last: map<string, int>, id: string, now: int)
  {
    now - (if id in last then last[id] else 0) >= RateLimitMs
  }

  /** A player who was admitted at `t` is refused at any time less than a second later. */
  lemma RateLimited(last: map<string, int>, id: string, t: int, now: int)
    requires t <= now < t + RateLimitMs
    ensures !Admits(last[id := t], id, now)
  {
  }

  /** `push` then, above the limit, one `shift`. */
  function PushBounded(log: seq<Message>, m: Message, limit: nat): (r: seq<Message>)
    requires limit > 0
    ensures |r| > 0 && r[|r| - 1] == m
    ensures r == log + [m] || r == (log + [m])[1..]
    ensures |log| <= limit ==> |r| <= limit
    ensures |log| < limit ==> r == log + [m]
  {
    var t := log + [m];
    if |t| > limit then t[1..] else t
  }

  /** Across any number of sends a log stays within its limit, and it keeps the newest entries in order. */
  lemma PushBoundedKeepsNewest(log: seq<Message>, m: Message, limit: nat)
    requires 0 < limit && |log| <= limit
    ensures var r := PushBounded(log, m, limit);
      |r| == (if |log| < limit then |log| + 1 else limit) && r == (log + [m])[|log| + 1 - |r|..]
  {
  }

  /**
   * What `sendMessage` does to the global log, the channel logs and the
   * rate-limit map, with the verdict first: a refused send changes nothing; an
   * admitted one records the time and pushes the message onto both logs.
   */
  function SendSpec(log: seq<Message>, channels: map<string, seq<Message>>, last: map<string, int>,
                    id: string, m: Message, channel: string, now: int)
    : (bool, seq<Message>, map<string, seq<Message>>, map<string, int>)
    requires channel in channels
  {
    if !Admits(last, id, now) then (false, log, channels, last)
    else (true, PushBounded(log, m, MessageLimit),
          channels[channel := PushBounded(channels[channel], m, ChannelLimit)], last[id := now])
  }

  /** The global log holds at most 100 messages and every channel log at most 50. */
  predicate WithinLimits(log: seq<Message>, channels: map<string, seq<Message>>)
  {
    |log| <= MessageLimit && forall c :: c in channels ==> |channels[c]| <= ChannelLimit
  }

  /**
   * A send keeps the logs within their limits and the set of channels as it
   * was; an admitted message is the newest entry of the global log and of its
   * channel, and the other channels are untouched.
   */
  lemma SendKeepsLimits(log: seq<Message>, channels: map<string, seq<Message>>, last: map<string, int>,
                        id: string, m: Message, channel: string, now: int)
    requires channel in channels && WithinLimits(log, channels)
    ensures var r := SendSpec(log, channels, last, id, m, channel, now);
      && WithinLimits(r.1, r.2) && r.2.Keys == channels.Keys
      && (forall c :: c in channels && c != channel ==> r.2[c] == channels[c])
      && (r.0 ==> r.1[|r.1| - 1] == m && r.2[channel][|r.2[channel]| - 1] == m)
  {
  }

  /** A run of sends, each given as the sender's id, the message, its channel and the time. */
  function SendAll(log: seq<Message>, channels: map<string, seq<Message>>, last: map<string, int>,
                   sends: seq<(string, Message, string, int)>)
    : (r: (seq<Message>, map<string, seq<Message>>, map<string, int>))
    requires forall k :: 0 <= k < |sends| ==> sends[k].2 in channels
    ensures r.1.Keys == channels.Keys
    decreases |sends|
  {
    if sends == [] then (log, channels, last)
    else
      var p := SendAll(log, channels, last, sends[..|sends| - 1]);
      var s := sends[|sends| - 1];
      var r := SendSpec(p.0, p.1, p.2, s.0, s.1, s.2, s.3);
      (r.1, r.2, r.3)
  }

  /** `notifySystem`: the notice is pushed onto the global log with no trimming. */
  function Notify(log: seq<Message>, text: string, kind: string, now: int): (r: seq<Message>)
    ensures |r| == |log| + 1 && r[..|log|] == log && r[|log|] == SystemNotice(text, kind, now)
  {
    log + [SystemNotice(text, kind, now)]
  }

  /** The message a player's send stores; the clan name is present exactly when the player has a clan. */
  function Format(sender: string, text: string, now: int, channel: string, job: string, level: int,
                  clanName: Option<string>): (m: Message)
    ensures m.ChatMessage? && m.text == text && m.timestamp == now && m.channel == channel
    ensures m.clan.Some? <==> clanName.Some?
  {
    ChatMessage(sender, text, now, channel, job, level, clanName)
  }

  // ---------------------------------------------------------------------------
  // Command parsing
  // ---------------------------------------------------------------------------

  /** `s.split(' ')`: always at least one part; consecutive spaces give empty parts. */
  function Split(s: string): (parts: seq<string>)
    ensures |parts| >= 1
    ensures forall k :: 0 <= k < |parts| ==> ' ' !in parts[k]
  {
    if s == [] then [""]
    else if s[0] == ' ' then [""] + Split(s[1..])
    else var rest := Split(s[1..]); [[s[0]] + rest[0]] + rest[1..]
  }

  /** `parts.join(' ')` */
  function Join(parts: seq<string>): string
  {
    if parts == [] then ""
    else if |parts| == 1 then parts[0]
    else parts[0] + " " + Join(parts[1..])
  }

  /** Splitting on spaces and joining with spaces gives back the text. */
  lemma {:induction false} JoinSplit(s: string)
    ensures Join(Split(s)) == s
  {
    if s != [] {
      JoinSplit(s[1..]);
      var rest := Split(s[1..]);
      if s[0] == ' ' {
        assert Split(s) == [""] + rest;
        assert Join(Split(s)) == "" + " " + Join(rest);
      } else {
        var parts := [[s[0]] + rest[0]] + rest[1..];
        if |rest| == 1 {
          assert Join(parts) == [s[0]] + rest[0];
        } else {
          assert Join(parts) == [s[0]] + rest[0] + " " + Join(rest[1..]);
          assert Join(rest) == rest[0] + " " + Join(rest[1..]);
        }
        assert s == [s[0]] + s[1..];
      }
    }
  }

  /** A word followed by a space and a text splits into the word and then the text's parts. */
  lemma {:induction false} SplitWord(word: string, text: string)
    requires ' ' !in word
    ensures Split(word + " " + text) == [word] + Split(text)
  {
    if word == [] {
      assert word + " " + text == [' '] + text;
    } else {
      assert (word + " " + text)[1..] == word[1..] + " " + text;
      SplitWord(word[1..], text);
      assert [word[0]] + word[1..] == word;
    }
  }

  /** What a slash command does: send a text to a channel, send an emote, or nothing. */
  datatype CommandAction = Send(text: string, channel: string) | Emote(action: string) | NoAction

  /**
   * `handleCommand`: the first character is dropped and the rest split on
   * spaces. `party` needs a non-empty first argument, `clan` also needs the
   * player to have a clan, `trade` always sends, `me` emotes; anything else
   * does nothing.
   */
  function ParseCommand(command: string, hasClan: bool): (a: CommandAction)
    ensures a.Send? ==> a.channel in ChannelNames
  {
    var args := Split(if |command| > 0 then command[1..] else "");
    var rest := Join(args[1..]);
    var hasArg := |args| > 1 && args[1] != "";
    if args[0] == "party" then (if hasArg then Send(rest, "party") else NoAction)
    else if args[0] == "clan" then (if hasClan && hasArg then Send(rest, "clan") else NoAction)
    else if args[0] == "trade" then Send(rest, "trade")
    else if args[0] == "me" then Emote(rest)
    else NoAction
  }

  /**
   * `/party hello world` sends exactly `hello world` to the party channel, and
   * `/trade ...` sends its text to the trade channel whatever it is.
   */
  lemma CommandSendsItsText(slash: char, text: string, hasClan: bool)
    requires text != [] && text[0] != ' '
    ensures ParseCommand([slash] + "party " + text, hasClan) == Send(text, "party")
    ensures ParseCommand([slash] + "trade " + text, hasClan) == Send(text, "trade")
    ensures ParseCommand([slash] + "clan " + text, hasClan) == (if hasClan then Send(text, "clan") else NoAction)
  {
    JoinSplit(text);
    SplitWord("party", text);
    SplitWord("trade", text);
    SplitWord("clan", text);
    assert ([slash] + "party " + text)[1..] == "party" + " " + text;
    assert ([slash] + "trade " + text)[1..] == "trade" + " " + text;
    assert ([slash] + "clan " + text)[1..] == "clan" + " " + text;
    var parts := Split(text);
    var rest := Split(text[1..]);
    assert parts[0] == [text[0]] + rest[0];
  }

  /** A command that is not one of the four does nothing. */
  lemma UnknownCommandIgnored(command: string, hasClan: bool)
    requires var args := Split(if |command| > 0 then command[1..] else "");
      args[0] !in {"party", "clan", "trade", "me"}
    ensures ParseCommand(command, hasClan) == NoAction
  {
  }

  // ---------------------------------------------------------------------------
  // The chat system
  // ---------------------------------------------------------------------------

  class ChatSystem {
    var messages: seq<Message>
    var channels: map<string, seq<Message>>
    var lastMessageTime: map<string, int>
    const clanSystem: Clans.ClanSystem

    /** The four channels exist from the start and no other is ever added. */
    predicate Valid()
      reads this
    {
      channels.Keys == ChannelNames
    }

    constructor (clanSystem: Clans.ClanSystem)
      ensures Valid() && this.clanSystem == clanSystem
      ensures messages == [] && lastMessageTime == map[]
      ensures forall c :: c in ChannelNames ==> channels[c] == []
    {
      this.clanSystem := clanSystem;
      messages := [];
      channels := map["global" := [], "party" := [], "clan" := [], "trade" := []];
      lastMessageTime := map[];
    }

    /** The message `sendMessage` stores for the player: their name, job, level and clan name, if any. */
    function Outgoing(player: Character, text: string, channel: string, now: int): Message
      reads player, clanSystem
      requires player.clan.Some? ==> player.clan.value in clanSystem.clans
    {
      Format(player.name, text, now, channel, player.job, player.level,
             if player.clan.Some? then Some(clanSystem.clans[player.clan.value].name) else None)
    }

    /**
     * `sendMessage`: refused with no change within a second of the player's
     * previous message; otherwise the time is recorded and the formatted
     * message goes to the end of the global log and of its channel, each
     * trimmed by one at the front above its limit. A player in a clan must be
     * in a clan the clan system knows, whose name the message carries.
     */
    method SendMessage(player: Character, message: string, channel: string, now: int) returns (ok: bool)
      requires Valid() && channel in ChannelNames
      requires player.clan.Some? ==> player.clan.value in clanSystem.clans
      modifies this`messages, this`channels, this`lastMessageTime
      ensures Valid()
      ensures ok == Admits(old(lastMessageTime), player.id, now)
      ensures (ok, messages, channels, lastMessageTime) ==
        SendSpec(old(messages), old(channels), old(lastMessageTime), player.id,
                 Outgoing(player, message, channel, now), channel, now)
    {
      if !Admits(lastMessageTime, player.id, now) {
        return false;
      }
      lastMessageTime := lastMessageTime[player.id := now];
      var clanName := if player.clan.Some? then Some(clanSystem.clans[player.clan.value].name) else None;
      var formatted := Format(player.name, message, now, channel, player.job, player.level, clanName);
      messages := PushBounded(messages, formatted, MessageLimit);
      channels := channels[channel := PushBounded(channels[channel], formatted, ChannelLimit)];
      return true;
    }

    /** `sendEmote`: `sendMessage` of `* <name> <action>` on the global channel. */
    method SendEmote(player: Character, action: string, now: int) returns (ok: bool)
      requires Valid()
      requires player.clan.Some? ==> player.clan.value in clanSystem.clans
      modifies this`messages, this`channels, this`lastMessageTime
      ensures Valid()
      ensures ok == Admits(old(lastMessageTime), player.id, now)
      ensures (ok, messages, channels, lastMessageTime) ==
        SendSpec(old(messages), old(channels), old(lastMessageTime), player.id,
                 Outgoing(player, "* " + player.name + " " + action, "global", now), "global", now)
    {
      ok := SendMessage(player, "* " + player.name + " " + action, "global", now);
    }

    /**
     * `handleCommand`: a parsed send goes through `sendMessage`, an emote
     * through `sendEmote`, and anything else changes nothing.
     */
    method HandleCommand(player: Character, command: string, now: int)
      requires Valid()
      requires player.clan.Some? ==> player.clan.value in clanSystem.clans
      modifies this`messages, this`channels, this`lastMessageTime
      ensures Valid()
      ensures ParseCommand(command, player.clan.Some?) == NoAction ==>
        messages == old(messages) && channels == old(channels) && lastMessageTime == old(lastMessageTime)
      ensures ParseCommand(command, player.clan.Some?).Send? ==>
        var a := ParseCommand(command, player.clan.Some?);
        var r := SendSpec(old(messages), old(channels), old(lastMessageTime), player.id,
                          Outgoing(player, a.text, a.channel, now), a.channel, now);
        messages == r.1 && channels == r.2 && lastMessageTime == r.3
      ensures ParseCommand(command, player.clan.Some?).Emote? ==>
        var text := "* " + player.name + " " + ParseCommand(command, player.clan.Some?).action;
        var r := SendSpec(old(messages), old(channels), old(lastMessageTime), player.id,
                          Outgoing(player, text, "global", now), "global", now);
        messages == r.1 && channels == r.2 && lastMessageTime == r.3
    {
      var action := ParseCommand(command, player.clan.Some?);
      match action
      case Send(text, channel) =>
        var _ := SendMessage(player, text, channel, now);
      case Emote(a) =>
        var _ := SendEmote(player, a, now);
      case NoAction =>
    }

    /** `notifySystem`: appended to the global log with no trimming and no rate limit. */
    method NotifySystem(message: string, kind: string, now: int)
      modifies this`messages
      ensures messages == Notify(old(messages), message, kind, now)
    {
      messages := messages + [SystemNotice(message, kind, now)];
    }
  }

  /**
   * Notices are not trimmed: a notice pushes a full global log past 100, and
   * every later send then drops one entry and adds one, so the log stays above
   * the bound for good.
   */
  lemma {:induction false} NoticeExceedsLimit(log: seq<Message>, channels: map<string, seq<Message>>,
                                              last: map<string, int>, text: string, kind: string, now: int,
                                              sends: seq<(string, Message, string, int)>)
    requires |log| == MessageLimit
    requires forall k :: 0 <= k < |sends| ==> sends[k].2 in channels
    ensures !WithinLimits(Notify(log, text, kind, now), channels)
    ensures |SendAll(Notify(log, text, kind, now), channels, last, sends).0| == MessageLimit + 1
    decreases |sends|
  {
    if sends != [] {
      NoticeExceedsLimit(log, channels, last, text, kind, now, sends[..|sends| - 1]);
    }
  }
}
