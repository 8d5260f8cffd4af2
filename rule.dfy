/**
 * Admission rules: which chat events the plugin listens to, which Minecraft
 * events it accepts, and who may run a command.
 *
 * Adapter permissions (group/guild admin and owner, superuser) enter as the
 * booleans the adapter would answer; the role lists fetched from the chat
 * platform enter as sequences.
 */
module Rule {
  import opened Wrappers
  import opened PyStr
  import opened Bindings

  /** A OneBot group message sent by the bot account itself. */
  predicate IsSelfMessage(e: ChatEvent)
  {
    e.OneBotGroup? && e.selfId == e.userId
  }

  /** QQ adapter rule: the group or channel is bound to some server list. */
  function QqMsgRule(cfg: Config, e: ChatEvent): (accepted: bool)
    ensures accepted ==> e.QQGroupAt? || e.QQGuild?
    ensures (e.QQGroupAt? || e.QQGuild?) ==> (accepted <==> LookupServers(cfg, e).Some?)
  {
    match e
    case QQGroupAt(g) => g in cfg.qqGroupTable
    case QQGuild(_, c, _) => c in cfg.qqGuildTable
    case _ => false
  }

  /** OneBot adapter rule: the group or guild channel is bound, and the bot never hears itself. */
  function OneBotMsgRule(cfg: Config, e: ChatEvent): (accepted: bool)
    ensures accepted ==> e.OneBotGroup? || e.OneBotGuild?
    ensures IsSelfMessage(e) ==> !accepted
    ensures (e.OneBotGroup? || e.OneBotGuild?) ==>
              (accepted <==> LookupServers(cfg, e).Some? && !IsSelfMessage(e))
  {
    match e
    case OneBotGroup(g, self, user) => IntToString(g) in cfg.onebotGroupTable && !(self == user)
    case OneBotGuild(g, c) => GuildKey(g, c) in cfg.onebotGuildTable
    case _ => false
  }

  /**
   * The rule for every chat message: OneBot or QQ. An event is accepted exactly
   * when the dispatch table of its origin binds its source key, unless it is
   * the bot's own OneBot group message.
   */
  function AllMsgRule(cfg: Config, e: ChatEvent): (accepted: bool)
    ensures accepted <==> LookupServers(cfg, e).Some? && !IsSelfMessage(e)
  {
    OneBotMsgRule(cfg, e) || QqMsgRule(cfg, e)
  }

  /** A Minecraft event is accepted when its server has a configuration entry. */
  function McMsgRule(cfg: Config, serverName: string): (accepted: bool)
    ensures accepted <==> Get(cfg.serverDict, serverName).Some?
  {
    serverName in cfg.serverDict.Keys
  }

  // ---------------------------------------------------------------------------
  // Guild role administrators

  /** Two lists share an element. */
  predicate Overlap(a: seq<string>, b: seq<string>)
  {
    exists i, j :: 0 <= i < |a| && 0 <= j < |b| && a[i] == b[j]
  }

  /** Python's `bool(set(a) & set(b))` holds exactly when the lists share an element. */
  lemma SetIntersectionOverlap(a: seq<string>, b: seq<string>)
    ensures ((set r | r in a) * (set r | r in b) != {}) <==> Overlap(a, b)
  {
    var both := (set r | r in a) * (set r | r in b);
    if both != {} {
      var x :| x in both;
      var i :| 0 <= i < |a| && a[i] == x;
      var j :| 0 <= j < |b| && b[j] == x;
    }
    if Overlap(a, b) {
      var i, j :| 0 <= i < |a| && 0 <= j < |b| && a[i] == b[j];
      assert a[i] in both;
    }
  }

  /**
   * OneBot guild: the member is a role administrator when one of the role
   * names in their member profile is a configured admin role name.
   */
  function OneBotGuildRoleAdmin(profileRoleNames: seq<string>, adminRoles: seq<string>): (isAdmin: bool)
    ensures isAdmin <==> exists i, j :: 0 <= i < |profileRoleNames| && 0 <= j < |adminRoles| &&
                                        profileRoleNames[i] == adminRoles[j]
  {
    SetIntersectionOverlap(profileRoleNames, adminRoles);
    (set r | r in profileRoleNames) * (set r | r in adminRoles) != {}
  }

  /** A QQ guild role as the guild's role list reports it. */
  datatype GuildRole = GuildRole(id: string, name: string)

  /** The ids of the guild roles whose names are admin roles, in guild order. */
  function AdminRoleIds(guildRoles: seq<GuildRole>, adminRoles: seq<string>): (ids: seq<string>)
    ensures |ids| <= |guildRoles|
    ensures forall x :: x in ids <==>
              exists k :: 0 <= k < |guildRoles| && guildRoles[k].name in adminRoles && guildRoles[k].id == x
  {
    if guildRoles == [] then []
    else
      var last := guildRoles[|guildRoles| - 1];
      var ids := AdminRoleIds(guildRoles[..|guildRoles| - 1], adminRoles);
      assert forall k :: 0 <= k < |guildRoles| - 1 ==> guildRoles[..|guildRoles| - 1][k] == guildRoles[k];
      ids + (if last.name in adminRoles then [last.id] else [])
  }

  /**
   * QQ guild: the member is a role administrator when one of their role ids
   * is the id of a guild role whose name is an admin role.
   */
  predicate IsQqGuildRoleAdmin(guildRoles: seq<GuildRole>, adminRoles: seq<string>, memberRoles: seq<string>)
  {
    exists i, k :: 0 <= i < |memberRoles| && 0 <= k < |guildRoles| &&
                   guildRoles[k].name in adminRoles && guildRoles[k].id == memberRoles[i]
  }

  /** Collects the admin role ids in a loop, then intersects them with the member's role ids. */
  method QqGuildRoleAdmin(guildRoles: seq<GuildRole>, adminRoles: seq<string>, memberRoles: seq<string>)
    returns (isAdmin: bool)
    ensures isAdmin <==> exists i :: 0 <= i < |memberRoles| && memberRoles[i] in AdminRoleIds(guildRoles, adminRoles)
    ensures isAdmin == IsQqGuildRoleAdmin(guildRoles, adminRoles, memberRoles)
  {
    var temRoles: seq<string> := [];
    for k := 0 to |guildRoles|
      invariant temRoles == AdminRoleIds(guildRoles[..k], adminRoles)
    {
      assert guildRoles[..k + 1][..k] == guildRoles[..k];
      if guildRoles[k].name in adminRoles {
        temRoles := temRoles + [guildRoles[k].id];
      }
    }
    assert guildRoles[..|guildRoles|] == guildRoles;
    isAdmin := (set r | r in memberRoles) * (set r | r in temRoles) != {};
    SetIntersectionOverlap(memberRoles, temRoles);
  }

  // ---------------------------------------------------------------------------
  // Command permission

  datatype BotKind = OneBotBot | QQBot

  /**
   * What the adapter answers for the sender: superuser, admin and owner of the
   * group or guild the event comes from.
   */
  datatype Grants = Grants(superuser: bool, admin: bool, owner: bool)

  /**
   * The rejection condition of the permission gate: the event and bot kinds
   * match one of the four cases and the sender holds none of that case's
   * permissions. A rejected sender is told "你没有权限使用此命令".
   */
  function PermissionRejected(cfg: Config, bot: BotKind, e: ChatEvent, g: Grants,
                              profileRoleNames: seq<string>, guildRoles: seq<GuildRole>): (rejected: bool)
    ensures rejected ==> !g.superuser
    ensures rejected ==> (bot == OneBotBot <==> (e.OneBotGroup? || e.OneBotGuild?))
    ensures rejected && !e.QQGroupAt? ==> !g.admin && !g.owner
    ensures e.QQGroupAt? && bot == QQBot ==> (rejected <==> !g.superuser)
    ensures e.OneBotGuild? && OneBotGuildRoleAdmin(profileRoleNames, cfg.guildAdminRoles) ==> !rejected
    ensures e.QQGuild? && IsQqGuildRoleAdmin(guildRoles, cfg.guildAdminRoles, e.memberRoles) ==> !rejected
    // within each of the four (event, bot) cases, rejected exactly when none of that case's permissions holds
    ensures e.OneBotGroup? && bot == OneBotBot ==> (rejected <==> !g.admin && !g.owner && !g.superuser)
    ensures e.OneBotGuild? && bot == OneBotBot ==>
              (rejected <==> !g.admin && !g.owner && !g.superuser && !Overlap(profileRoleNames, cfg.guildAdminRoles))
    ensures e.QQGuild? && bot == QQBot ==>
              (rejected <==> !g.admin && !g.owner && !g.superuser &&
                             !IsQqGuildRoleAdmin(guildRoles, cfg.guildAdminRoles, e.memberRoles))
    // a bot of the other platform never rejects
    ensures (bot == OneBotBot) != (e.OneBotGroup? || e.OneBotGuild?) ==> !rejected
  {
    match e
    case OneBotGroup(_, _, _) =>
      bot == OneBotBot && !(g.admin || g.owner || g.superuser)
    case OneBotGuild(_, _) =>
      bot == OneBotBot &&
      !(g.admin || g.owner || OneBotGuildRoleAdmin(profileRoleNames, cfg.guildAdminRoles) || g.superuser)
    case QQGuild(_, _, memberRoles) =>
      bot == QQBot &&
      !(g.admin || g.owner || g.superuser || IsQqGuildRoleAdmin(guildRoles, cfg.guildAdminRoles, memberRoles))
    case QQGroupAt(_) =>
      bot == QQBot && !g.superuser
  }
}
