/**
 * The static configuration and the four chat-event shapes shared by the
 * admission rules and the dispatch engine.
 *
 * The configuration is loaded once at start-up and never changes: one entry
 * per Minecraft server (with its two RCON switches), and four tables that map
 * a chat source key to the ordered list of server names bound to it, one table
 * per chat origin.
 */
module Bindings {
  import opened Wrappers
  import opened PyStr

  /** Per-server switches: relay chat messages over RCON, send commands over RCON. */
  datatype ServerConfig = ServerConfig(rconMsg: bool, rconCmd: bool)

  /** Source key -> ordered server names. */
  type ServerTable = map<string, seq<string>>

  datatype Config = Config(
    serverDict: map<string, ServerConfig>,
    qqGroupTable: ServerTable,
    qqGuildTable: ServerTable,
    onebotGroupTable: ServerTable,
    onebotGuildTable: ServerTable,
    guildAdminRoles: seq<string>)

  /**
   * The four inbound chat events: a QQ group @-message, a QQ guild channel
   * message, a OneBot group message (numeric ids) and a OneBot guild channel
   * message. `memberRoles` are the role ids the QQ guild event carries for
   * its sender.
   */
  datatype ChatEvent =
    | QQGroupAt(groupId: string)
    | QQGuild(guildId: string, channelId: string, memberRoles: seq<string>)
    | OneBotGroup(groupNumber: int, selfId: int, userId: int)
    | OneBotGuild(guildId: string, channelId: string)

  /** The OneBot guild key "guild_id:channel_id". */
  function GuildKey(guildId: string, channelId: string): string
  {
    guildId + ":" + channelId
  }

  /** The key an event is looked up under in its origin's table. */
  function SourceKey(e: ChatEvent): string
  {
    match e
    case QQGroupAt(g) => g
    case QQGuild(_, c, _) => c
    case OneBotGroup(g, _, _) => IntToString(g)
    case OneBotGuild(g, c) => GuildKey(g, c)
  }

  /** The table that serves an event's origin. */
  function SourceTable(cfg: Config, e: ChatEvent): ServerTable
  {
    match e
    case QQGroupAt(_) => cfg.qqGroupTable
    case QQGuild(_, _, _) => cfg.qqGuildTable
    case OneBotGroup(_, _, _) => cfg.onebotGroupTable
    case OneBotGuild(_, _) => cfg.onebotGuildTable
  }

  /** `TABLE.get(key)`: the server list bound to the event's source, if any. */
  function LookupServers(cfg: Config, e: ChatEvent): (r: Option<seq<string>>)
    ensures r.Some? <==> SourceKey(e) in SourceTable(cfg, e)
    ensures r.Some? ==> r.value == SourceTable(cfg, e)[SourceKey(e)]
  {
    Get(SourceTable(cfg, e), SourceKey(e))
  }

  /** Two OneBot groups share a key only when they are the same group. */
  lemma OneBotGroupKeyInjective(g1: int, g2: int, s1: int, u1: int, s2: int, u2: int)
    requires SourceKey(OneBotGroup(g1, s1, u1)) == SourceKey(OneBotGroup(g2, s2, u2))
    ensures g1 == g2
  {
    IntToStringInjective(g1, g2);
  }

  /**
   * The composite guild key is unambiguous as long as guild ids contain no ':'
   * (they are numeric): equal keys mean the same guild and the same channel.
   */
  lemma GuildKeyInjective(g1: string, c1: string, g2: string, c2: string)
    requires ':' !in g1 && ':' !in g2
    requires GuildKey(g1, c1) == GuildKey(g2, c2)
    ensures g1 == g2 && c1 == c2
  {
    var k := GuildKey(g1, c1);
    assert k[|g1|] == ':' && k[|g2|] == ':';
    assert forall i :: 0 <= i < |g1| ==> k[i] == g1[i];
    assert forall i :: 0 <= i < |g2| ==> k[i] == g2[i];
    assert |g1| == |g2|;
    assert g1 == k[..|g1|] == g2;
    assert c1 == k[|g1| + 1..] == c2;
  }

  /** Without the no-':' condition the key is ambiguous. */
  lemma GuildKeyNeedsColonFreeGuild()
    ensures GuildKey("1:2", "3") == GuildKey("1", "2:3")
  {
  }
}
