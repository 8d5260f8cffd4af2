/**
 * Outbound dispatch: a chat event and a request (a raw command, a title, an
 * action bar or a relayed chat message) are sent to every Minecraft server
 * bound to the event's source, in the order of the bound list, and a status
 * report is built line by line.
 *
 * The chat adapters, the Minecraft bot registry and both transports are
 * outside the model: the registry is a map from server name to bot, the RCON
 * transport an oracle from (server, command) to element 0 of what `send_cmd` returns,
 * and the native calls are recorded, in order, in a trace of `Call`s. The
 * message parsers enter as the values they produce for the event.
 */
module SendToMc {
  import opened Wrappers
  import opened PyStr
  import opened Bindings
  import Rule

  const NoServerMessage: string := "该群聊没有对应的服务器，无法发送"
  const BotNotFound: string := "：未找到服务器 Bot\n"
  const RconCmdUnavailable: string := "选择了Rcon发送命令，但无rcon可用，无法发送命令\n"
  const RconMsgUnavailable: string := "选择了Rcon发送消息，但无rcon未开启，无法发送消息\n"
  const NativeDone: string := "结果：成功\n"

  /**
   * What the four public entry points pass down: whether the request is a
   * command (its report goes back to the chat), the command type ("command",
   * "title", "action_bar"; "" for a chat message) and the command text.
   */
  datatype Request = Request(isCmd: bool, commandType: string, command: string)

  /** A connected Minecraft bot: whether it carries a live RCON connection. */
  datatype McBot = McBot(hasRcon: bool)

  /**
   * The world outside the dispatcher.
   * - bots: the bot registry (a name with no entry is "no bot").
   * - rconReply(server, command): element 0 of the reply `send_cmd` returns.
   * - rconModel / baseModel: (message, echo text) produced by the chat-message
   *   parsers for the event, for the RCON and the native transport.
   * - screenCmd(type, text): the RCON command a shorthand command type stands for.
   */
  datatype Env = Env(
    bots: map<string, McBot>,
    rconReply: (string, string) -> string,
    rconModel: (string, string),
    baseModel: (string, string),
    screenCmd: (string, string) -> string)

  /** One transport call, in the order it is issued. */
  datatype Call =
    | Rcon(server: string, command: string)
    | NativeTitle(server: string, title: string, subtitle: string)
    | NativeActionBar(server: string, message: string)
    | NativeMsg(server: string, message: string)

  /**
   * Python exceptions the loop can raise: reading the switches of a server
   * with no configuration entry (AttributeError on None), and unpacking a
   * title with more than one line break into two names (ValueError).
   */
  datatype PyError = ConfigMissing(server: string) | TitleUnpack(server: string)

  /** The report text, the calls issued and the exception raised, for one server or a run of them. */
  datatype Step = Step(text: string, calls: seq<Call>, raised: Option<PyError>)

  /**
   * How a dispatch ends: the matcher finishes with a message, the function
   * returns a string, returns nothing, or raises.
   */
  datatype Outcome = Finished(message: string) | Returned(text: string) | NoReturn | Raised(error: PyError)

  // ---------------------------------------------------------------------------
  // Source resolution and transport selection

  /** The report starts with a line break for QQ group events only. */
  function ReportPrefix(e: ChatEvent): string
  {
    if e.QQGroupAt? then "\n返回结果：\n" else "返回结果：\n"
  }

  /** No list is bound to the source, or the bound list is empty. */
  predicate NoServers(cfg: Config, e: ChatEvent)
  {
    LookupServers(cfg, e).None? || LookupServers(cfg, e).value == []
  }

  datatype Transport = ViaRcon | RconMissing | ViaNative

  /** RCON when it is switched on and connected; switched on but absent is a failure; otherwise native. */
  function SelectTransport(rconEnabled: bool, hasRcon: bool): Transport
  {
    if rconEnabled && hasRcon then ViaRcon
    else if rconEnabled && !hasRcon then RconMissing
    else ViaNative
  }

  /** The transport a configured, connected server gets for a request, if it gets that far. */
  function Chosen(cfg: Config, env: Env, req: Request, name: string): Option<Transport>
  {
    if name in env.bots && name in cfg.serverDict then
      var conf := cfg.serverDict[name];
      Some(SelectTransport(if req.isCmd then conf.rconCmd else conf.rconMsg, env.bots[name].hasRcon))
    else None
  }

  // ---------------------------------------------------------------------------
  // Formatting

  /**
   * `title, subtitle = command.split("\n") if "\n" in command else (command, "")`:
   * None where the unpacking raises, that is, when there is more than one line break.
   */
  function TitleSplit(command: string): (r: Option<(string, string)>)
    ensures r.Some? <==> CountChar(command, '\n') <= 1
    ensures r.Some? ==> '\n' !in r.value.0 && '\n' !in r.value.1
    ensures r.Some? && '\n' in command ==> r.value.0 + "\n" + r.value.1 == command
    ensures '\n' !in command ==> r == Some((command, ""))
  {
    if '\n' in command then
      var parts := Split(command, '\n');
      if |parts| == 2 then
        JoinSplit(command, '\n');
        assert Join(parts, '\n') == parts[0] + "\n" + parts[1];
        Some((parts[0], parts[1]))
      else None
    else Some((command, ""))
  }

  /** `title @a <field> ["<text>"]`. */
  function TitleCommand(field: string, text: string): string
  {
    "title @a " + field + " [\"" + text + "\"]"
  }

  /** The RCON command a chat message is relayed with. */
  function TellrawCommand(msg: string): (cmd: string)
    ensures '\'' !in cmd
  {
    "tellraw @a " + ReplaceChar(msg, '\'', '"')
  }

  /** Title over RCON: the title, then the subtitle only when it is non-empty; the replies are joined. */
  function RconTitle(env: Env, name: string, title: string, subtitle: string): (s: Step)
    ensures s.raised.None?
    ensures |s.calls| == (if subtitle == "" then 1 else 2)
    ensures s.calls[0] == Rcon(name, TitleCommand("title", title))
    ensures subtitle != "" ==> s.calls[1] == Rcon(name, TitleCommand("subtitle", subtitle))
    ensures s.text == "结果：" + env.rconReply(name, s.calls[0].command) +
                      (if subtitle == "" then "" else env.rconReply(name, s.calls[1].command))
  {
    var titleCmd := TitleCommand("title", title);
    var first := env.rconReply(name, titleCmd);
    if subtitle != "" then
      var subtitleCmd := TitleCommand("subtitle", subtitle);
      Step("结果：" + first + env.rconReply(name, subtitleCmd), [Rcon(name, titleCmd), Rcon(name, subtitleCmd)], None)
    else
      Step("结果：" + first, [Rcon(name, titleCmd)], None)
  }

  /** The command branch over RCON: the report text after "命令：<command> ". */
  function RconCommandStep(env: Env, req: Request, name: string): (s: Step)
    ensures s.raised.Some? <==> req.commandType == "title" && CountChar(req.command, '\n') > 1
    ensures s.raised.Some? ==> s == Step("", [], Some(TitleUnpack(name)))
    ensures s.raised.None? ==> 1 <= |s.calls| <= 2
    ensures forall c :: c in s.calls ==> c.Rcon? && c.server == name
    ensures req.commandType == "command" ==> s.calls == [Rcon(name, req.command)]
    ensures req.commandType != "command" && req.commandType != "title" ==>
              s.calls == [Rcon(name, env.screenCmd(req.commandType, req.command))]
    // a raw or shorthand command reports the reply on a line of its own; a title reports as RconTitle says
    ensures req.commandType != "title" ==> s.text == "结果：" + env.rconReply(name, s.calls[0].command) + "\n"
    ensures req.commandType == "title" && s.raised.None? ==>
              s == RconTitle(env, name, TitleSplit(req.command).value.0, TitleSplit(req.command).value.1)
  {
    if req.commandType == "title" then
      match TitleSplit(req.command)
      case None => Step("", [], Some(TitleUnpack(name)))
      case Some((title, subtitle)) => RconTitle(env, name, title, subtitle)
    else if req.commandType == "command" then
      Step("结果：" + env.rconReply(name, req.command) + "\n", [Rcon(name, req.command)], None)
    else
      var cmd := env.screenCmd(req.commandType, req.command);
      Step("结果：" + env.rconReply(name, cmd) + "\n", [Rcon(name, cmd)], None)
  }

  /** The command branch over the native transport: one call, reported as a success. */
  function NativeCommandStep(req: Request, name: string): (s: Step)
    ensures s.raised.Some? <==> req.commandType == "title" && CountChar(req.command, '\n') > 1
    ensures s.raised.Some? ==> s == Step("", [], Some(TitleUnpack(name)))
    ensures s.raised.None? ==> s.text == NativeDone && |s.calls| == 1
    ensures forall c :: c in s.calls ==> !c.Rcon? && c.server == name
    ensures req.commandType == "title" && s.raised.None? ==>
              s.calls == [NativeTitle(name, TitleSplit(req.command).value.0, TitleSplit(req.command).value.1)]
    ensures req.commandType == "action_bar" ==> s.calls == [NativeActionBar(name, req.command)]
    ensures req.commandType != "title" && req.commandType != "action_bar" ==> s.calls == [NativeMsg(name, req.command)]
  {
    if req.commandType == "title" then
      match TitleSplit(req.command)
      case None => Step("", [], Some(TitleUnpack(name)))
      case Some((title, subtitle)) => Step(NativeDone, [NativeTitle(name, title, subtitle)], None)
    else if req.commandType == "action_bar" then
      Step(NativeDone, [NativeActionBar(name, req.command)], None)
    else
      Step(NativeDone, [NativeMsg(name, req.command)], None)
  }

  /** The command branch for a configured server. */
  function CommandStep(conf: ServerConfig, bot: McBot, env: Env, req: Request, name: string): (s: Step)
    ensures s.raised.Some? <==> req.commandType == "title" && CountChar(req.command, '\n') > 1 &&
                                SelectTransport(conf.rconCmd, bot.hasRcon) != RconMissing
    ensures s.raised.Some? ==> s == Step("", [], Some(TitleUnpack(name)))
    ensures forall c :: c in s.calls ==> c.server == name
  {
    match SelectTransport(conf.rconCmd, bot.hasRcon)
    case ViaRcon => RconCommandStep(env, req, name)
    case RconMissing => Step(RconCmdUnavailable, [], None)
    case ViaNative => NativeCommandStep(req, name)
  }

  /** The chat-message branch for a configured server: the report text after "消息：". */
  function MessageStep(conf: ServerConfig, bot: McBot, env: Env, name: string): (s: Step)
    ensures s.raised.None?
    ensures forall c :: c in s.calls ==> c.server == name
    ensures forall c :: c in s.calls ==> c == Rcon(name, TellrawCommand(env.rconModel.0)) || c == NativeMsg(name, env.baseModel.0)
    // over RCON: the echo text, then the reply to the relayed command
    ensures SelectTransport(conf.rconMsg, bot.hasRcon) == ViaRcon ==>
              s.calls == [Rcon(name, TellrawCommand(env.rconModel.0))] &&
              s.text == env.rconModel.1 + " 结果：" + env.rconReply(name, s.calls[0].command) + "\n"
    // natively: the echo text alone, after the one native message
    ensures SelectTransport(conf.rconMsg, bot.hasRcon) == ViaNative ==>
              s.calls == [NativeMsg(name, env.baseModel.0)] && s.text == env.baseModel.1 + "\n"
    ensures SelectTransport(conf.rconMsg, bot.hasRcon) == RconMissing ==> s == Step(RconMsgUnavailable, [], None)
  {
    match SelectTransport(conf.rconMsg, bot.hasRcon)
    case ViaRcon =>
      var cmd := TellrawCommand(env.rconModel.0);
      Step(env.rconModel.1 + " " + "结果：" + env.rconReply(name, cmd) + "\n", [Rcon(name, cmd)], None)
    case RconMissing =>
      Step(RconMsgUnavailable, [], None)
    case ViaNative =>
      Step(env.baseModel.1 + "\n", [NativeMsg(name, env.baseModel.0)], None)
  }

  /** The opening of a configured server's status block. */
  function Header(name: string): string
  {
    "发送至服务器：" + name + " "
  }

  /** The one server whose handling raises: it has a bot but no configuration, or its title cannot be unpacked. */
  predicate Raises(cfg: Config, env: Env, req: Request, name: string)
  {
    name in env.bots &&
    (name !in cfg.serverDict ||
     (req.isCmd && req.commandType == "title" && CountChar(req.command, '\n') > 1 &&
      Chosen(cfg, env, req, name) != Some(RconMissing)))
  }

  /** The status block of a server that has a bot and a configuration entry. */
  function ConfiguredStep(conf: ServerConfig, bot: McBot, env: Env, req: Request, name: string): (s: Step)
    ensures s.raised.Some? ==> s.text == [] && s.calls == []
    ensures s.raised.None? ==> Header(name) <= s.text
    ensures forall c :: c in s.calls ==> c.server == name
  {
    var part := if req.isCmd then CommandStep(conf, bot, env, req, name) else MessageStep(conf, bot, env, name);
    if part.raised.Some? then part
    else Step(Header(name) + (if req.isCmd then "命令：" + req.command + " " else "消息：") + part.text,
              part.calls, None)
  }

  /** The status block and the calls for one server of the list. */
  function ServerStep(cfg: Config, env: Env, req: Request, name: string): (s: Step)
    // a raising server adds nothing to the report and issues no call
    ensures s.raised.Some? <==> Raises(cfg, env, req, name)
    ensures s.raised.Some? ==> s.text == [] && s.calls == []
    // a server without configuration fails on the attribute access, any other on the title unpacking
    ensures s.raised.Some? ==> s.raised.value == (if name in cfg.serverDict then TitleUnpack(name) else ConfigMissing(name))
    // every call goes to this server, and only when its bot is connected
    ensures forall c :: c in s.calls ==> c.server == name
    ensures s.calls != [] ==> name in env.bots
    // the status block's shape
    ensures name !in env.bots ==> s == Step(name + BotNotFound, [], None)
    ensures name in env.bots && s.raised.None? ==> Header(name) <= s.text
    ensures s.raised.None? ==> s.text != []
  {
    if name !in env.bots then Step(name + BotNotFound, [], None)
    else if name !in cfg.serverDict then Step("", [], Some(ConfigMissing(name)))
    else ConfiguredStep(cfg.serverDict[name], env.bots[name], env, req, name)
  }

  /** A server that wants RCON without a connection gets no call and the fixed marker. */
  lemma StepRconMissing(cfg: Config, env: Env, req: Request, name: string)
    requires Chosen(cfg, env, req, name) == Some(RconMissing)
    ensures ServerStep(cfg, env, req, name) ==
              Step(Header(name) + (if req.isCmd then "命令：" + req.command + " " + RconCmdUnavailable
                                   else "消息：" + RconMsgUnavailable), [], None)
  {
  }

  /** A server reached over RCON gets only RCON calls. */
  lemma StepViaRcon(cfg: Config, env: Env, req: Request, name: string)
    requires Chosen(cfg, env, req, name) == Some(ViaRcon)
    requires ServerStep(cfg, env, req, name).raised.None?
    ensures 1 <= |ServerStep(cfg, env, req, name).calls|
    ensures forall c :: c in ServerStep(cfg, env, req, name).calls ==> c.Rcon?
  {
  }

  /** A server reached natively gets exactly one native call. */
  lemma StepViaNative(cfg: Config, env: Env, req: Request, name: string)
    requires Chosen(cfg, env, req, name) == Some(ViaNative)
    requires ServerStep(cfg, env, req, name).raised.None?
    ensures |ServerStep(cfg, env, req, name).calls| == 1
    ensures !ServerStep(cfg, env, req, name).calls[0].Rcon?
  {
  }

  /** The block of a delivered command: its header, the command, then the transport's status line. */
  lemma StepCommandText(cfg: Config, env: Env, req: Request, name: string)
    requires req.isCmd && ServerStep(cfg, env, req, name).raised.None?
    ensures var s := ServerStep(cfg, env, req, name);
      && (Chosen(cfg, env, req, name) == Some(ViaRcon) && req.commandType != "title" ==>
            s.text == Header(name) + "命令：" + req.command + " " + "结果：" + env.rconReply(name, s.calls[0].command) + "\n")
      && (Chosen(cfg, env, req, name) == Some(ViaNative) ==>
            s.text == Header(name) + "命令：" + req.command + " " + NativeDone)
  {
  }

  /** The block of a relayed chat message: its header, the parser's echo text and, over RCON, the reply. */
  lemma StepMessageText(cfg: Config, env: Env, req: Request, name: string)
    requires !req.isCmd
    ensures var s := ServerStep(cfg, env, req, name);
      && (Chosen(cfg, env, req, name) == Some(ViaRcon) ==>
            s.text == Header(name) + "消息：" + env.rconModel.1 + " 结果：" +
                      env.rconReply(name, TellrawCommand(env.rconModel.0)) + "\n")
      && (Chosen(cfg, env, req, name) == Some(ViaNative) ==>
            s.text == Header(name) + "消息：" + env.baseModel.1 + "\n")
  {
  }

  /** Every block that does not raise ends its line, except a title sent over RCON. */
  lemma BlockEndsWithLineBreak(cfg: Config, env: Env, req: Request, name: string)
    requires ServerStep(cfg, env, req, name).raised.None?
    requires !(req.isCmd && req.commandType == "title" && Chosen(cfg, env, req, name) == Some(ViaRcon))
    ensures var t := ServerStep(cfg, env, req, name).text; t[|t| - 1] == '\n'
  {
    if name in env.bots && name in cfg.serverDict {
      var t := ServerStep(cfg, env, req, name).text;
      if req.isCmd {
        StepCommandText(cfg, env, req, name);
        if Chosen(cfg, env, req, name) == Some(RconMissing) {
          StepRconMissing(cfg, env, req, name);
        }
      } else {
        StepMessageText(cfg, env, req, name);
        if Chosen(cfg, env, req, name) == Some(RconMissing) {
          StepRconMissing(cfg, env, req, name);
        }
      }
    }
  }

  /** The calls each kind of request may make: the wrapper's own command, in its RCON or its native form. */
  predicate CallFits(env: Env, req: Request, c: Call)
  {
    if !req.isCmd then c == Rcon(c.server, TellrawCommand(env.rconModel.0)) || c == NativeMsg(c.server, env.baseModel.0)
    else if req.commandType == "command" then c == Rcon(c.server, req.command) || c == NativeMsg(c.server, req.command)
    else if req.commandType == "action_bar" then
      c == Rcon(c.server, env.screenCmd("action_bar", req.command)) || c == NativeActionBar(c.server, req.command)
    else if req.commandType == "title" then
      TitleSplit(req.command).Some? &&
      var (title, subtitle) := TitleSplit(req.command).value;
      c == Rcon(c.server, TitleCommand("title", title)) || c == Rcon(c.server, TitleCommand("subtitle", subtitle)) ||
      c == NativeTitle(c.server, title, subtitle)
    else c == Rcon(c.server, env.screenCmd(req.commandType, req.command)) || c == NativeMsg(c.server, req.command)
  }

  /** What each kind of request sends to one server. */
  lemma StepCalls(cfg: Config, env: Env, req: Request, name: string)
    ensures forall c :: c in ServerStep(cfg, env, req, name).calls ==> CallFits(env, req, c)
  {
  }

  // ---------------------------------------------------------------------------
  // The loop over the server list

  /** Runs `b` after `a`, unless `a` raised. */
  function Then(a: Step, b: Step): Step
  {
    if a.raised.Some? then a else Step(a.text + b.text, a.calls + b.calls, b.raised)
  }

  /** The servers of the list handled in order, stopping at the first exception. */
  function RunAll(cfg: Config, env: Env, req: Request, names: seq<string>): Step
  {
    if names == [] then Step("", [], None)
    else Then(ServerStep(cfg, env, req, names[0]), RunAll(cfg, env, req, names[1..]))
  }

  /** Every call of a run is a call of one listed server's step, so it goes to a listed server with a bot. */
  lemma {:induction false} RunAllCalls(cfg: Config, env: Env, req: Request, names: seq<string>)
    ensures forall c :: c in RunAll(cfg, env, req, names).calls ==>
              c.server in names && c.server in env.bots &&
              exists i :: 0 <= i < |names| && c in ServerStep(cfg, env, req, names[i]).calls
  {
    if names != [] {
      RunAllCalls(cfg, env, req, names[1..]);
      forall c | c in RunAll(cfg, env, req, names).calls
        ensures exists i :: 0 <= i < |names| && c in ServerStep(cfg, env, req, names[i]).calls
      {
        if c !in ServerStep(cfg, env, req, names[0]).calls {
          var j :| 0 <= j < |names[1..]| && c in ServerStep(cfg, env, req, names[1..][j]).calls;
          assert names[1..][j] == names[j + 1];
        }
      }
    }
  }

  /** A run raises exactly when one of its servers raises. */
  lemma {:induction false} RunAllRaises(cfg: Config, env: Env, req: Request, names: seq<string>)
    ensures RunAll(cfg, env, req, names).raised.Some? <==> exists i :: 0 <= i < |names| && Raises(cfg, env, req, names[i])
  {
    if names != [] {
      RunAllRaises(cfg, env, req, names[1..]);
      if exists j :: 0 <= j < |names[1..]| && Raises(cfg, env, req, names[1..][j]) {
        var j :| 0 <= j < |names[1..]| && Raises(cfg, env, req, names[1..][j]);
        assert names[1..][j] == names[j + 1];
      }
      if exists i :: 0 <= i < |names| && Raises(cfg, env, req, names[i]) {
        var i :| 0 <= i < |names| && Raises(cfg, env, req, names[i]);
        if i > 0 {
          assert names[1..][i - 1] == names[i];
        }
      }
    }
  }

  lemma ThenAssociative(a: Step, b: Step, c: Step)
    ensures Then(Then(a, b), c) == Then(a, Then(b, c))
  {
  }

  /** Handling a list in two halves is handling the first half, then the second unless the first raised. */
  lemma {:induction false} RunAllAppend(cfg: Config, env: Env, req: Request, xs: seq<string>, ys: seq<string>)
    ensures RunAll(cfg, env, req, xs + ys) == Then(RunAll(cfg, env, req, xs), RunAll(cfg, env, req, ys))
  {
    if xs == [] {
      assert xs + ys == ys;
    } else {
      assert (xs + ys)[1..] == xs[1..] + ys;
      RunAllAppend(cfg, env, req, xs[1..], ys);
      ThenAssociative(ServerStep(cfg, env, req, xs[0]), RunAll(cfg, env, req, xs[1..]), RunAll(cfg, env, req, ys));
    }
  }

  lemma RunAllSingle(cfg: Config, env: Env, req: Request, name: string)
    ensures RunAll(cfg, env, req, [name]) == ServerStep(cfg, env, req, name)
  {
    assert [name][1..] == [];
  }

  /** The list seen around its i-th server. */
  lemma RunAllAt(cfg: Config, env: Env, req: Request, names: seq<string>, i: nat)
    requires i < |names|
    ensures RunAll(cfg, env, req, names) ==
              Then(RunAll(cfg, env, req, names[..i]),
                   Then(ServerStep(cfg, env, req, names[i]), RunAll(cfg, env, req, names[i + 1..])))
  {
    assert names == names[..i] + ([names[i]] + names[i + 1..]);
    RunAllAppend(cfg, env, req, names[..i], [names[i]] + names[i + 1..]);
    RunAllAppend(cfg, env, req, [names[i]], names[i + 1..]);
    RunAllSingle(cfg, env, req, names[i]);
  }

  /**
   * Status blocks and calls follow the list order: server i's block sits
   * between those of the servers before it and those after it.
   */
  lemma BlockOrder(cfg: Config, env: Env, req: Request, names: seq<string>, i: nat)
    requires i < |names|
    requires RunAll(cfg, env, req, names).raised.None?
    ensures RunAll(cfg, env, req, names).text ==
              RunAll(cfg, env, req, names[..i]).text + ServerStep(cfg, env, req, names[i]).text +
              RunAll(cfg, env, req, names[i + 1..]).text
    ensures RunAll(cfg, env, req, names).calls ==
              RunAll(cfg, env, req, names[..i]).calls + ServerStep(cfg, env, req, names[i]).calls +
              RunAll(cfg, env, req, names[i + 1..]).calls
  {
    var before, step, after := RunAll(cfg, env, req, names[..i]), ServerStep(cfg, env, req, names[i]),
                               RunAll(cfg, env, req, names[i + 1..]);
    RunAllAt(cfg, env, req, names, i);
    ThenThree(before, step, after);
  }

  /** Three steps that raise nowhere before the last: texts and calls are simply concatenated. */
  lemma ThenThree(a: Step, b: Step, c: Step)
    requires Then(a, Then(b, c)).raised.None?
    ensures Then(a, Then(b, c)).text == a.text + b.text + c.text
    ensures Then(a, Then(b, c)).calls == a.calls + b.calls + c.calls
  {
    assert a.text + (b.text + c.text) == a.text + b.text + c.text;
    assert a.calls + (b.calls + c.calls) == a.calls + b.calls + c.calls;
  }

  /** A server without a bot adds its fixed line and the loop goes on with the next server. */
  lemma MissingBotContinues(cfg: Config, env: Env, req: Request, name: string, rest: seq<string>)
    requires name !in env.bots
    ensures RunAll(cfg, env, req, [name] + rest) ==
              var tail := RunAll(cfg, env, req, rest);
              Step(name + BotNotFound + tail.text, tail.calls, tail.raised)
  {
    assert ([name] + rest)[1..] == rest;
  }

  /**
   * The first server that raises ends the dispatch: the servers before it have
   * been handled, the servers after it are never contacted.
   */
  lemma FirstRaiseAborts(cfg: Config, env: Env, req: Request, names: seq<string>, i: nat)
    requires i < |names|
    requires Raises(cfg, env, req, names[i])
    requires forall j :: 0 <= j < i ==> !Raises(cfg, env, req, names[j])
    ensures RunAll(cfg, env, req, names).raised == ServerStep(cfg, env, req, names[i]).raised
    ensures RunAll(cfg, env, req, names).calls == RunAll(cfg, env, req, names[..i]).calls
  {
    RunAllAt(cfg, env, req, names, i);
    RunAllRaises(cfg, env, req, names[..i]);
    assert forall j :: 0 <= j < i ==> names[..i][j] == names[j];
  }

  /** With every bound server configured and a title of at most two lines, nothing raises. */
  lemma NoRaiseWhenConfigured(cfg: Config, env: Env, req: Request, names: seq<string>)
    requires forall i :: 0 <= i < |names| ==> Rule.McMsgRule(cfg, names[i])
    requires req.isCmd && req.commandType == "title" ==> CountChar(req.command, '\n') <= 1
    ensures RunAll(cfg, env, req, names).raised.None?
  {
    RunAllRaises(cfg, env, req, names);
  }

  /** How the report ends: trimmed of one line break for a command, empty for a chat message. */
  function Finish(req: Request, prefix: string, run: Step): (out: Outcome)
    ensures run.raised.Some? ==> out == Raised(run.raised.value)
    ensures run.raised.None? ==> out.Returned?
    ensures out.Returned? && !req.isCmd ==> out.text == ""
    ensures out.Returned? && req.isCmd ==>
              var report := prefix + run.text;
              if report != [] && report[|report| - 1] == '\n' then out.text + "\n" == report else out.text == report
  {
    if run.raised.Some? then Raised(run.raised.value)
    else if req.isCmd then Returned(RemoveSuffix(prefix + run.text, "\n"))
    else Returned("")
  }

  /**
   * One whole dispatch: the source is resolved, an empty or missing list stops
   * a command with a fixed message and a chat message silently, otherwise the
   * list is handled in order.
   */
  function Expected(cfg: Config, env: Env, e: ChatEvent, req: Request): (r: (Outcome, seq<Call>))
    ensures NoServers(cfg, e) ==> r.1 == []
    ensures r.0.Finished? <==> req.isCmd && NoServers(cfg, e)
    ensures r.0.Finished? ==> r.0.message == NoServerMessage
    ensures r.0.NoReturn? <==> !req.isCmd && NoServers(cfg, e)
    ensures r.0.Returned? && !req.isCmd ==> r.0.text == ""
    ensures forall c :: c in r.1 ==>
              LookupServers(cfg, e).Some? && c.server in LookupServers(cfg, e).value && c.server in env.bots
  {
    var servers := LookupServers(cfg, e);
    if servers.None? || servers.value == [] then
      (if req.isCmd then Finished(NoServerMessage) else NoReturn, [])
    else
      var run := RunAll(cfg, env, req, servers.value);
      RunAllCalls(cfg, env, req, servers.value);
      (Finish(req, ReportPrefix(e), run), run.calls)
  }

  /** A list with a server that does not raise yields some report text. */
  lemma {:induction false} RunAllTextNonEmpty(cfg: Config, env: Env, req: Request, names: seq<string>)
    requires names != [] && RunAll(cfg, env, req, names).raised.None?
    ensures RunAll(cfg, env, req, names).text != []
  {
    assert ServerStep(cfg, env, req, names[0]).raised.None?;
  }

  /**
   * A command's report keeps its prefix: the one trailing line break removed
   * at the end comes from the server blocks, never from the prefix, so the
   * report opens with a line break exactly for QQ group events.
   */
  lemma ReportKeepsPrefix(cfg: Config, env: Env, e: ChatEvent, req: Request)
    requires req.isCmd
    ensures var out := Expected(cfg, env, e, req).0;
      out.Returned? ==>
        && out.text == ReportPrefix(e) + RemoveSuffix(RunAll(cfg, env, req, LookupServers(cfg, e).value).text, "\n")
        && (out.text[0] == '\n' <==> e.QQGroupAt?)
  {
    var out := Expected(cfg, env, e, req).0;
    if out.Returned? {
      var run := RunAll(cfg, env, req, LookupServers(cfg, e).value);
      RunAllTextNonEmpty(cfg, env, req, LookupServers(cfg, e).value);
      RemoveSuffixKeepsHead(ReportPrefix(e), run.text, "\n");
    }
  }

  /**
   * The title status over RCON carries no line break of its own: the block ends
   * with the title's reply, followed by the subtitle's reply when there is a
   * subtitle, so the next server's block runs on in the same line.
   */
  lemma RconTitleHasNoLineBreak(cfg: Config, env: Env, req: Request, name: string)
    requires req.isCmd && req.commandType == "title" && CountChar(req.command, '\n') <= 1
    requires Chosen(cfg, env, req, name) == Some(ViaRcon)
    ensures var split := TitleSplit(req.command).value;
      ServerStep(cfg, env, req, name).text ==
        Header(name) + "命令：" + req.command + " " + "结果：" + env.rconReply(name, TitleCommand("title", split.0)) +
        (if split.1 == "" then "" else env.rconReply(name, TitleCommand("subtitle", split.1)))
  {
  }

  /** Handling one more server of the list. */
  lemma RunAllSnoc(cfg: Config, env: Env, req: Request, names: seq<string>, i: nat)
    requires i < |names|
    ensures RunAll(cfg, env, req, names[..i + 1]) ==
              Then(RunAll(cfg, env, req, names[..i]), ServerStep(cfg, env, req, names[i]))
  {
    assert names[..i + 1] == names[..i] + [names[i]];
    RunAllAppend(cfg, env, req, names[..i], [names[i]]);
    RunAllSingle(cfg, env, req, names[i]);
  }

  /** Once a prefix of the list raised, the rest of the list changes nothing. */
  lemma RunAllStops(cfg: Config, env: Env, req: Request, names: seq<string>, i: nat)
    requires i <= |names|
    requires RunAll(cfg, env, req, names[..i]).raised.Some?
    ensures RunAll(cfg, env, req, names) == RunAll(cfg, env, req, names[..i])
  {
    assert names == names[..i] + names[i..];
    RunAllAppend(cfg, env, req, names[..i], names[i..]);
  }

  // ---------------------------------------------------------------------------
  // The imperative engine

  /** The RCON command branch: issues the title/subtitle, raw or shorthand command and reports the reply. */
  method SendRconCommand(env: Env, req: Request, name: string)
    returns (text: string, calls: seq<Call>, raised: Option<PyError>)
    ensures Step(text, calls, raised) == RconCommandStep(env, req, name)
  {
    text, calls, raised := "", [], None;
    if req.commandType == "title" {
      var split := TitleSplit(req.command);
      if split.None? {
        raised := Some(TitleUnpack(name));
        return;
      }
      var title, subtitle := split.value.0, split.value.1;
      var titleCmd := TitleCommand("title", title);
      calls := calls + [Rcon(name, titleCmd)];
      var titleResult := env.rconReply(name, titleCmd);
      if subtitle != "" {
        var subtitleCmd := TitleCommand("subtitle", subtitle);
        calls := calls + [Rcon(name, subtitleCmd)];
        titleResult := titleResult + env.rconReply(name, subtitleCmd);
      }
      text := "结果：" + titleResult;
    } else if req.commandType == "command" {
      calls := calls + [Rcon(name, req.command)];
      var response := env.rconReply(name, req.command);
      text := "结果：" + response + "\n";
    } else {
      var cmd := env.screenCmd(req.commandType, req.command);
      calls := calls + [Rcon(name, cmd)];
      var response := env.rconReply(name, cmd);
      text := "结果：" + response + "\n";
    }
  }

  /** The native command branch: one title, action-bar or send-message call. */
  method SendNativeCommand(req: Request, name: string)
    returns (text: string, calls: seq<Call>, raised: Option<PyError>)
    ensures Step(text, calls, raised) == NativeCommandStep(req, name)
  {
    text, calls, raised := "", [], None;
    if req.commandType == "title" {
      var split := TitleSplit(req.command);
      if split.None? {
        raised := Some(TitleUnpack(name));
        return;
      }
      calls := calls + [NativeTitle(name, split.value.0, split.value.1)];
    } else if req.commandType == "action_bar" {
      calls := calls + [NativeActionBar(name, req.command)];
    } else {
      calls := calls + [NativeMsg(name, req.command)];
    }
    text := NativeDone;
  }

  /** The chat-message branch: relays the parsed message over RCON or natively and reports it. */
  method SendMessagePart(conf: ServerConfig, bot: McBot, env: Env, name: string)
    returns (text: string, calls: seq<Call>)
    ensures Step(text, calls, None) == MessageStep(conf, bot, env, name)
  {
    text, calls := "", [];
    if conf.rconMsg && bot.hasRcon {
      var msg, echo := env.rconModel.0, env.rconModel.1;
      msg := ReplaceChar(msg, '\'', '"');
      text := echo + " ";
      var cmd := "tellraw @a " + msg;
      calls := calls + [Rcon(name, cmd)];
      var response := env.rconReply(name, cmd);
      text := text + "结果：" + response + "\n";
    } else if conf.rconMsg && !bot.hasRcon {
      text := RconMsgUnavailable;
    } else {
      var msg, echo := env.baseModel.0, env.baseModel.1;
      text := echo + "\n";
      calls := calls + [NativeMsg(name, msg)];
    }
  }

  /** The body of the loop for a server with a bot and a configuration entry. */
  method SendConfigured(conf: ServerConfig, bot: McBot, env: Env, req: Request, name: string)
    returns (text: string, calls: seq<Call>, raised: Option<PyError>)
    ensures Step(text, calls, raised) == ConfiguredStep(conf, bot, env, req, name)
  {
    text, calls, raised := "", [], None;
    var send := Header(name);
    var result := "";
    if req.isCmd {
      send := send + "命令：" + req.command + " ";
      if conf.rconCmd && bot.hasRcon {
        result, calls, raised := SendRconCommand(env, req, name);
      } else if conf.rconCmd && !bot.hasRcon {
        result := RconCmdUnavailable;
      } else {
        result, calls, raised := SendNativeCommand(req, name);
      }
      if raised.Some? {
        return;
      }
    } else {
      send := send + "消息：";
      result, calls := SendMessagePart(conf, bot, env, name);
    }
    text := send + result;
  }

  /** One iteration of the loop: builds the server's status block and issues its calls. */
  method SendToServer(cfg: Config, env: Env, req: Request, name: string)
    returns (text: string, calls: seq<Call>, raised: Option<PyError>)
    ensures Step(text, calls, raised) == ServerStep(cfg, env, req, name)
  {
    text, calls, raised := "", [], None;
    var bot := Get(env.bots, name);
    if bot.None? {
      text := name + BotNotFound;
      return;
    }
    var serverConfig := Get(cfg.serverDict, name);
    if serverConfig.None? {
      raised := Some(ConfigMissing(name));
      return;
    }
    text, calls, raised := SendConfigured(serverConfig.value, bot.value, env, req, name);
  }

  /**
   * The loop over a non-empty server list: appends each server's block to the
   * report in list order, then trims one trailing line break.
   */
  method SendCommon(cfg: Config, env: Env, req: Request, names: seq<string>, prefix: string)
    returns (out: Outcome, calls: seq<Call>)
    ensures calls == RunAll(cfg, env, req, names).calls
    ensures out == Finish(req, prefix, RunAll(cfg, env, req, names))
  {
    var temp, raised;
    temp, calls, raised := SendEach(cfg, env, req, names, prefix);
    if raised.Some? {
      out := Raised(raised.value);
      return;
    }
    temp := RemoveSuffix(temp, "\n");
    out := if req.isCmd then Returned(temp) else Returned("");
  }

  /** The `for` loop itself: the report grows by each server's block until a server raises. */
  method SendEach(cfg: Config, env: Env, req: Request, names: seq<string>, prefix: string)
    returns (temp: string, calls: seq<Call>, raised: Option<PyError>)
    ensures raised == RunAll(cfg, env, req, names).raised
    ensures calls == RunAll(cfg, env, req, names).calls
    ensures raised.None? ==> temp == prefix + RunAll(cfg, env, req, names).text
  {
    temp, calls, raised := prefix, [], None;
    for i := 0 to |names|
      invariant prefix <= temp
      invariant RunAll(cfg, env, req, names[..i]) == Step(temp[|prefix|..], calls, None)
    {
      var text, stepCalls, stepRaised := SendToServer(cfg, env, req, names[i]);
      RunAllSnoc(cfg, env, req, names, i);
      calls := calls + stepCalls;
      if stepRaised.Some? {
        RunAllStops(cfg, env, req, names, i + 1);
        raised := stepRaised;
        return;
      }
      temp := temp + text;
    }
    assert names[..|names|] == names;
  }

  /** Resolves the event's servers, applies the empty-list gate and runs the loop. */
  method Send(cfg: Config, env: Env, e: ChatEvent, req: Request) returns (out: Outcome, calls: seq<Call>)
    ensures (out, calls) == Expected(cfg, env, e, req)
  {
    var prefix := ReportPrefix(e);
    var serverList := LookupServers(cfg, e);
    if serverList.Some? && serverList.value != [] {
      out, calls := SendCommon(cfg, env, req, serverList.value, prefix);
    } else if req.isCmd {
      out, calls := Finished(NoServerMessage), [];
    } else {
      out, calls := NoReturn, [];
    }
  }

  // ---------------------------------------------------------------------------
  // The four entry points

  /** A raw command: sent verbatim over RCON, or with the native send-message call. */
  method SendCommandToTargetServer(cfg: Config, env: Env, e: ChatEvent, command: string)
    returns (out: Outcome, calls: seq<Call>)
    ensures (out, calls) == Expected(cfg, env, e, Request(true, "command", command))
    ensures forall c :: c in calls ==> c == Rcon(c.server, command) || c == NativeMsg(c.server, command)
  {
    out, calls := Send(cfg, env, e, Request(true, "command", command));
    CallsFit(cfg, env, e, Request(true, "command", command));
  }

  /** An action bar: the shorthand parser's RCON command, or the native action-bar call. */
  method SendActionBarToTargetServer(cfg: Config, env: Env, e: ChatEvent, actionBar: string)
    returns (out: Outcome, calls: seq<Call>)
    ensures (out, calls) == Expected(cfg, env, e, Request(true, "action_bar", actionBar))
    ensures forall c :: c in calls ==>
              c == Rcon(c.server, env.screenCmd("action_bar", actionBar)) || c == NativeActionBar(c.server, actionBar)
  {
    out, calls := Send(cfg, env, e, Request(true, "action_bar", actionBar));
    CallsFit(cfg, env, e, Request(true, "action_bar", actionBar));
  }

  /** A title: RCON title/subtitle commands or the native title call; more than one line break raises. */
  method SendTitleToTargetServer(cfg: Config, env: Env, e: ChatEvent, arg: string)
    returns (out: Outcome, calls: seq<Call>)
    ensures (out, calls) == Expected(cfg, env, e, Request(true, "title", arg))
    ensures forall c :: c in calls ==>
              TitleSplit(arg).Some? &&
              (c == Rcon(c.server, TitleCommand("title", TitleSplit(arg).value.0)) ||
               c == Rcon(c.server, TitleCommand("subtitle", TitleSplit(arg).value.1)) ||
               c == NativeTitle(c.server, TitleSplit(arg).value.0, TitleSplit(arg).value.1))
    ensures out.Raised? && out.error.TitleUnpack? ==> CountChar(arg, '\n') > 1
  {
    out, calls := Send(cfg, env, e, Request(true, "title", arg));
    CallsFit(cfg, env, e, Request(true, "title", arg));
    RaisedErrorExplained(cfg, env, e, Request(true, "title", arg));
  }

  /** A relayed chat message: nothing is returned to the chat, and no RCON command carries a single quote. */
  method SendMessageToTargetServer(cfg: Config, env: Env, e: ChatEvent)
    returns (out: Outcome, calls: seq<Call>)
    ensures (out, calls) == Expected(cfg, env, e, Request(false, "", ""))
    ensures out == NoReturn || out == Returned("") || out.Raised?
    ensures forall c :: c in calls && c.Rcon? ==> '\'' !in c.command
  {
    out, calls := Send(cfg, env, e, Request(false, "", ""));
    CallsFit(cfg, env, e, Request(false, "", ""));
  }

  /** Every call of a dispatch is one the request's kind allows. */
  lemma CallsFit(cfg: Config, env: Env, e: ChatEvent, req: Request)
    ensures forall c :: c in Expected(cfg, env, e, req).1 ==> CallFits(env, req, c)
  {
    forall c | c in Expected(cfg, env, e, req).1
      ensures CallFits(env, req, c)
    {
      var names := LookupServers(cfg, e).value;
      RunAllCalls(cfg, env, req, names);
      var i :| 0 <= i < |names| && c in ServerStep(cfg, env, req, names[i]).calls;
      StepCalls(cfg, env, req, names[i]);
    }
  }

  /**
   * A dispatch that raises names its cause: a title with more than one line
   * break, or a bound server with a bot but no configuration entry.
   */
  lemma RaisedErrorExplained(cfg: Config, env: Env, e: ChatEvent, req: Request)
    ensures var out := Expected(cfg, env, e, req).0;
      && (out.Raised? && out.error.TitleUnpack? ==>
            req.isCmd && req.commandType == "title" && CountChar(req.command, '\n') > 1)
      && (out.Raised? && out.error.ConfigMissing? ==>
            out.error.server in LookupServers(cfg, e).value &&
            out.error.server !in cfg.serverDict && out.error.server in env.bots)
  {
    var out := Expected(cfg, env, e, req).0;
    if out.Raised? {
      var names := LookupServers(cfg, e).value;
      RaisedErrorNamesItsCause(cfg, env, req, names);
      var i :| 0 <= i < |names| && Raises(cfg, env, req, names[i]) &&
               RunAll(cfg, env, req, names).raised == ServerStep(cfg, env, req, names[i]).raised;
    }
  }

  /** A raised exception is the one of the first server that raises. */
  lemma {:induction false} RaisedErrorNamesItsCause(cfg: Config, env: Env, req: Request, names: seq<string>)
    requires RunAll(cfg, env, req, names).raised.Some?
    ensures exists i :: 0 <= i < |names| && Raises(cfg, env, req, names[i]) &&
              (forall j :: 0 <= j < i ==> !Raises(cfg, env, req, names[j])) &&
              RunAll(cfg, env, req, names).raised == ServerStep(cfg, env, req, names[i]).raised
  {
    if Raises(cfg, env, req, names[0]) {
      assert RunAll(cfg, env, req, names).raised == ServerStep(cfg, env, req, names[0]).raised;
    } else {
      RaisedErrorNamesItsCause(cfg, env, req, names[1..]);
      var i :| 0 <= i < |names[1..]| && Raises(cfg, env, req, names[1..][i]) &&
               (forall j :: 0 <= j < i ==> !Raises(cfg, env, req, names[1..][j])) &&
               RunAll(cfg, env, req, names[1..]).raised == ServerStep(cfg, env, req, names[1..][i]).raised;
      assert names[1..][i] == names[i + 1];
      forall j | 0 < j < i + 1
        ensures !Raises(cfg, env, req, names[j])
      {
        assert names[j] == names[1..][j - 1];
      }
    }
  }
}
