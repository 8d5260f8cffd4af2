# mcqq-tool dispatch and admission rules in Dafny

This project models two parts of the mcqq-tool plugin, which bridges QQ/OneBot chats and Minecraft servers.

- **The outbound dispatch engine** (`mcqq_tool/send_to_mc.py`). A chat event is resolved to the ordered list of Minecraft servers bound to its source. A command (raw, title or action bar) or a relayed chat message is then sent to each of those servers, over RCON or the native bot connection. Each server adds one status block to a report. The report loses one trailing line break and goes back to the chat, but only for commands.
- **The admission rules** (`mcqq_tool/rule.py`). These decide which chat events are listened to and which Minecraft events are accepted. They include the guild role-administrator checks and the condition under which `permission_check` rejects a sender.

Modules:

- `Wrappers`: the `Option` type and `dict.get`.
- `PyStr`: the Python string built-ins the engine relies on: `str(int)`, `split` (with `join`, used only to state that a split loses nothing), one-character `replace` and `removesuffix`.
- `Bindings`: the static configuration, the four chat-event shapes, and source-key resolution.
- `Rule`: `rule.py`.
- `SendToMc`: `send_to_mc.py`.

The dispatch is specified by pure functions:

- `ServerStep`: one iteration of the loop.
- `RunAll`: the loop over a list.
- `Finish`: the trim and the return value.
- `Expected`: one whole call.

The imperative methods are proved equal to these functions:

- `SendToServer` and its branch methods build `send_temp_result` with `+=`.
- `SendEach` is the `for` loop over `server_list`.
- `SendCommon` and `Send` add the gate and the finish.
- The four public wrappers sit on top.

The outside world is an `Env` value:

- the bot registry is a map from server name to bot;
- RCON is an oracle from (server, command) to element 0 of the reply `send_cmd` returns;
- the message parsers are the values they return for the event;
- the shorthand-command parser is a function.

Every transport call is recorded, in order, in a trace of `Call`s.

Behaviour of the code worth knowing when reading the model:

- **An exception stops the loop.** No `try` surrounds a server's handling, so the first exception aborts the remaining servers. Two exceptions can occur:
  - a server with a bot but no configuration entry fails when its switches are read (`AttributeError` on `None`, `send_to_mc.py:144,151,182`);
  - a title with more than one line break fails when it is unpacked into two names (`ValueError`, `send_to_mc.py:153,171`).

  The model has a `Raised` outcome for both (`FirstRaiseAborts`, `RaisedErrorExplained`).
- **The RCON title block runs on.** Its status block ends without a line break (`send_to_mc.py:159`), so the next server's block continues on the same line (`RconTitleHasNoLineBreak`).
- **A native raw command goes through `send_msg`** (`send_to_mc.py:176`).

## Model

| member | source | states |
|---|---|---|
| Bindings.LookupServers | mcqq_tool/send_to_mc.py:61-69 | the server list is found exactly when the event's source key (group id, channel id, `str(group_id)` or `"guild:channel"`) is a key of its origin's table, and it is that entry |
| Bindings.OneBotGroupKeyInjective | mcqq_tool/send_to_mc.py:67 | two OneBot groups resolve to the same list key only when they are the same group |
| Bindings.GuildKeyInjective | mcqq_tool/send_to_mc.py:69 | the composite `guild:channel` key identifies guild and channel when guild ids contain no ':' |
| Bindings.GuildKeyNeedsColonFreeGuild | mcqq_tool/send_to_mc.py:69 | without that condition two different (guild, channel) pairs share a key |
| PyStr.IntToStringInjective | mcqq_tool/send_to_mc.py:67 | `str` on integers is injective |
| PyStr.DecimalRoundTrip | mcqq_tool/send_to_mc.py:67 | reading back the decimal form of a natural number gives the number |
| PyStr.Split | mcqq_tool/send_to_mc.py:153 | `split` returns one piece more than there are separators, and no piece holds a separator |
| PyStr.JoinSplit | mcqq_tool/send_to_mc.py:153 | joining the pieces of a split with the separator gives back the string |
| PyStr.ReplaceChar | mcqq_tool/send_to_mc.py:184 | every occurrence of the first character is replaced by the second and nothing else changes, so none is left |
| PyStr.RemoveSuffix | mcqq_tool/send_to_mc.py:202 | a present suffix is removed once, otherwise the string is unchanged |
| PyStr.RemoveSuffixOnce | mcqq_tool/send_to_mc.py:202 | only one trailing line break is removed; a report ending in two keeps one |
| SendToMc.TitleSplit | mcqq_tool/send_to_mc.py:153 | unpacking succeeds iff there is at most one line break; then title and subtitle hold none, and rejoined by the break they give the payload; with no break the subtitle is empty |
| SendToMc.TellrawCommand | mcqq_tool/send_to_mc.py:184-186 | the relayed `tellraw` command carries no single quote |
| SendToMc.RconTitle | mcqq_tool/send_to_mc.py:152-159 | the subtitle command is issued only for a non-empty subtitle, after the title command; the status is the replies concatenated with no trailing line break |
| SendToMc.RconCommandStep | mcqq_tool/send_to_mc.py:151-166 | over RCON a title raises iff it has more than one line break, and otherwise is `RconTitle`; a raw command is sent verbatim, any other type as its shorthand parse, and both report `结果：<reply>\n`; all calls are RCON calls to this server |
| SendToMc.NativeCommandStep | mcqq_tool/send_to_mc.py:169-177 | natively exactly one call (title, action bar, or `send_msg` for everything else) reported as success; a title with more than one break raises |
| SendToMc.CommandStep | mcqq_tool/send_to_mc.py:151-177 | a command raises iff it is a title with more than one line break and a transport is available; all calls go to this server |
| SendToMc.MessageStep | mcqq_tool/send_to_mc.py:180-195 | relaying a chat message never raises; over RCON it issues the quote-normalised `tellraw` and reports `<echo> 结果：<reply>\n`, natively one message reported as `<echo>\n`, and RCON without a connection the fixed marker and no call |
| SendToMc.ConfiguredStep | mcqq_tool/send_to_mc.py:146-197 | a configured server's block starts with its header unless it raised, in which case it adds nothing |
| SendToMc.ServerStep | mcqq_tool/send_to_mc.py:142-200 | one server: raises exactly as `Raises` says, with the error of its cause; a raise adds no text and no call; a server without a bot gets only its fixed line; calls go to this server and only with a bot |
| SendToMc.StepRconMissing | mcqq_tool/send_to_mc.py:167-168 | RCON switched on without a connection gives the fixed marker and no transport call (commands and, lines 189-190, messages) |
| SendToMc.StepViaRcon | mcqq_tool/send_to_mc.py:151-166 | a server reached over RCON gets at least one call and only RCON calls |
| SendToMc.StepViaNative | mcqq_tool/send_to_mc.py:169-177 | a server reached natively gets exactly one non-RCON call |
| SendToMc.StepCalls | mcqq_tool/send_to_mc.py:151-195 | each request kind only issues its own command, in RCON or native form; a title only its title/subtitle commands or the native title built from its split |
| SendToMc.StepCommandText | mcqq_tool/send_to_mc.py:146-177 | a delivered raw or shorthand command over RCON reports `发送至服务器：<name> 命令：<command> 结果：<reply>\n`; natively `… 结果：成功\n` |
| SendToMc.StepMessageText | mcqq_tool/send_to_mc.py:180-195 | a relayed message reports `发送至服务器：<name> 消息：<echo> 结果：<reply>\n` over RCON and `… 消息：<echo>\n` natively |
| SendToMc.BlockEndsWithLineBreak | mcqq_tool/send_to_mc.py:159-200 | every block that does not raise ends with a line break, except an RCON title block |
| SendToMc.RunAllCalls | mcqq_tool/send_to_mc.py:142-200 | every call of the loop is one of a listed server's calls, to a listed server with a bot |
| SendToMc.RunAllRaises | mcqq_tool/send_to_mc.py:142-200 | the loop raises iff one of the listed servers raises |
| SendToMc.RunAllAppend | mcqq_tool/send_to_mc.py:142 | handling a list in two halves is the first half, then the second unless the first raised |
| SendToMc.BlockOrder | mcqq_tool/send_to_mc.py:142-200 | the report and the calls follow the list order: server i's block sits between those before and after it |
| SendToMc.MissingBotContinues | mcqq_tool/send_to_mc.py:199-200 | a server without a bot adds `"<name>：未找到服务器 Bot\n"` and the loop goes on |
| SendToMc.FirstRaiseAborts | mcqq_tool/send_to_mc.py:142-153 | the first raising server's error ends the loop; no later server is contacted |
| SendToMc.NoRaiseWhenConfigured | mcqq_tool/send_to_mc.py:144-153 | with every listed server configured and a title of at most two lines nothing raises |
| SendToMc.RconTitleHasNoLineBreak | mcqq_tool/send_to_mc.py:152-159 | a delivered RCON title block is its header, the command, then the title's reply followed by the subtitle's reply when there is a subtitle, with no line break |
| SendToMc.Finish | mcqq_tool/send_to_mc.py:202-205 | a run that raises ends with exactly its error; any other run returns: a command the report with one trailing line break removed, a chat message "" |
| SendToMc.RunAllTextNonEmpty | mcqq_tool/send_to_mc.py:142-200 | a non-empty list that does not raise always yields some report text |
| SendToMc.ReportKeepsPrefix | mcqq_tool/send_to_mc.py:60-63 | a command's returned report is the prefix followed by the trimmed server blocks, so the trim never reaches the prefix and the report opens with a line break exactly for QQ group events |
| PyStr.RemoveSuffixKeepsHead | mcqq_tool/send_to_mc.py:202 | removing a suffix no longer than the tail leaves the head whole |
| SendToMc.Expected | mcqq_tool/send_to_mc.py:104-117 | no list or an empty list: a command finishes with "该群聊没有对应的服务器，无法发送", a message returns nothing, and no server is contacted; calls only reach bound servers with a bot |
| SendToMc.RaisedErrorNamesItsCause | mcqq_tool/send_to_mc.py:142-153 | a raised error is the error of the first listed server that raises |
| SendToMc.RaisedErrorExplained | mcqq_tool/send_to_mc.py:144-153 | a title error means more than one line break; a configuration error names a bound server with a bot and no configuration entry |
| SendToMc.CallsFit | mcqq_tool/send_to_mc.py:151-195 | every call of a dispatch is one the request's kind allows |
| SendToMc.SendRconCommand | mcqq_tool/send_to_mc.py:151-166 | the RCON command branch computes `RconCommandStep` |
| SendToMc.SendNativeCommand | mcqq_tool/send_to_mc.py:169-177 | the native command branch computes `NativeCommandStep` |
| SendToMc.SendMessagePart | mcqq_tool/send_to_mc.py:180-195 | the message branch computes `MessageStep` |
| SendToMc.SendConfigured | mcqq_tool/send_to_mc.py:146-197 | the `send_temp_result +=` sequence computes `ConfiguredStep` |
| SendToMc.SendToServer | mcqq_tool/send_to_mc.py:143-200 | one loop iteration computes `ServerStep` |
| SendToMc.SendEach | mcqq_tool/send_to_mc.py:142-200 | the `for` loop appends exactly `RunAll`'s report to the prefix, issues its calls and stops at its exception |
| SendToMc.SendCommon | mcqq_tool/send_to_mc.py:142-205 | loop plus finish compute `Finish` of `RunAll` |
| SendToMc.Send | mcqq_tool/send_to_mc.py:50-117 | resolution, gate and loop compute `Expected` |
| SendToMc.SendCommandToTargetServer | mcqq_tool/send_to_mc.py:208-234 | a raw command is sent verbatim over RCON or with `send_msg` |
| SendToMc.SendActionBarToTargetServer | mcqq_tool/send_to_mc.py:237-260 | an action bar goes out as its shorthand RCON command or the native action-bar call |
| SendToMc.SendTitleToTargetServer | mcqq_tool/send_to_mc.py:263-286 | a title issues only `title @a title/subtitle` commands of its split or the native title call with its split; a title error means more than one line break |
| SendToMc.SendMessageToTargetServer | mcqq_tool/send_to_mc.py:289-311 | a relayed message returns nothing or "", and no RCON command carries a single quote |
| Rule.QqMsgRule | mcqq_tool/rule.py:32-42 | only QQ events are accepted, and exactly when their group or channel id is bound |
| Rule.OneBotMsgRule | mcqq_tool/rule.py:45-55 | only OneBot events are accepted, exactly when their key is bound and they are not the bot's own group message |
| Rule.AllMsgRule | mcqq_tool/rule.py:62-72 | an event is accepted iff its source key is bound and it is not the bot's own OneBot group message |
| Rule.McMsgRule | mcqq_tool/rule.py:58-59 | a Minecraft event is accepted iff its server has a configuration entry |
| Rule.SetIntersectionOverlap | mcqq_tool/rule.py:90 | the set intersection of two lists is non-empty iff they share an element |
| Rule.OneBotGuildRoleAdmin | mcqq_tool/rule.py:75-90 | a role admin iff one of the member's role names is a configured admin role |
| Rule.AdminRoleIds | mcqq_tool/rule.py:100-104 | the collected ids are exactly those of guild roles whose names are admin roles |
| Rule.QqGuildRoleAdmin | mcqq_tool/rule.py:93-105 | the loop collects those ids; a role admin iff one of the member's role ids is among them |
| Rule.PermissionRejected | mcqq_tool/rule.py:114-139 | in each of the four (event, bot) cases the sender is rejected exactly when none of that case's permissions holds (admin, owner, superuser, and in guilds the role-admin check); a bot of the other platform never rejects; a rejected sender is never a superuser |

## Left out

- Logging (`send_to_mc.py:37-39,203`) has no effect on the result and is not modelled.
- `get_bot` and its `KeyError`/`ValueError` handling are a map lookup: both failures are "no bot".
- `async`/`await` and the decorators are plain sequential calls. `matcher.finish` is the `Finished` outcome, and the rejection in `permission_check` is the boolean `PermissionRejected`.
- The transports never fail. The code has no handler for their exceptions, so such an exception would end the dispatch as the two modelled ones do.
- An empty RCON reply list (`IndexError` on `[0]`) is not modelled. The oracle always yields an element 0.
- RCON replies depend only on (server, command). A server that answers the same command differently twice is not modelled.
- The message parsers and the shorthand-command parser are not part of this model. Their results enter as values and functions of the environment.
- The tables and the configuration (`model.py`, `config.py`) are not part of this model. They enter as the `Config` value.
- Adapter permissions (`GROUP_ADMIN`, `SUPERUSER`, ...) are booleans. The role lists fetched from `get_guild_roles` and `get_guild_member_profile` are inputs.
- `mcqq_tool/event/fabric.py` holds schema declarations without behaviour.
- The order in which the adapter permissions are awaited is not modelled. The rejection condition is a function on their values.
