/**
 * The away-status state machine of screen_away.py, a WeeChat plugin script.
 * Every few seconds a timer asks whether the terminal multiplexer (screen
 * or tmux) is attached, or, when enabled, whether a relay client is
 * connected.  When the user goes from attached to detached the script marks
 * itself away and sends `/nick` and `/away` commands to the IRC servers it
 * may touch; when the user comes back it undoes them.
 *
 * What the script asks of WeeChat is passed in: the `irc_server` and
 * `relay` lists, the plugin options and whether the socket is executable.
 * What it asks WeeChat to do comes out: the commands, in order, with the
 * buffer each is run in.
 */
module ScreenAway {
  import opened Wrappers
  import opened PyStr
  import Sockets

  // ================================================================ data

  /** The plugin options the script reads, all kept by WeeChat as strings. */
  datatype Config = Config(
    message: string,          // the away message
    interval: string,         // seconds between two checks
    awaySuffix: string,       // appended to the nick while away
    commandOnAttach: string,  // run when the user comes back, if not empty
    commandOnDetach: string,  // run when the user leaves, if not empty
    ignore: string,           // comma-separated names of servers to leave alone
    checkRelay: string)       // "yes" to count a connected relay as attached

  /** The values the script gives options that are not set yet. */
  const Defaults := Config("Detached from screen", "5", "", "", "", "", "no")

  /** The option names as WeeChat reports them to the configuration callback. */
  const OptionPrefix := "plugins.var.python.screen_away."
  const OptionNames := ["message", "interval", "away_suffix", "command_on_attach",
                        "command_on_detach", "ignore", "check_relay"]

  /** One record of WeeChat's `irc_server` list, with the fields the script reads. */
  datatype Server = Server(
    name: string,
    isConnected: int,
    isAway: int,
    awayMessage: string,
    nick: string,
    buffer: string)

  /** What `get_servers` returns for a server: its buffer and its nick. */
  datatype Target = Target(buffer: string, nick: string)

  /** A command handed to WeeChat, and the buffer it is run in. */
  datatype Command = Command(buffer: string, text: string)

  /**
   * The empty buffer argument of `w.command`: WeeChat runs such a command in
   * whichever buffer is current when it is issued, which the model does not
   * resolve. No server's buffer is named by the empty string.
   */
  const CurrentBuffer := ""

  /** The outcome of one timer tick: the new away flag and the commands issued. */
  datatype Tick = Tick(away: bool, commands: seq<Command>)

  // ================================================================ get_servers

  /** The names in the `ignore` option, as `split(',')` gives them. */
  function Ignores(cfg: Config): seq<string> {
    Split(cfg.ignore, ',')
  }

  /**
   * A server the script may touch: connected, not ignored, and either not
   * away or away with the script's own message.
   */
  predicate Eligible(s: Server, ignores: seq<string>, message: string) {
    && s.isConnected == 1
    && s.name !in ignores
    && (s.isAway == 0 || s.awayMessage == message)
  }

  function TargetOf(s: Server): Target {
    Target(s.buffer, s.nick)
  }

  /** The targets of the eligible servers, in the order of the host's list. */
  function Selected(servers: seq<Server>, ignores: seq<string>, message: string): seq<Target> {
    if servers == [] then []
    else
      var last := servers[|servers| - 1];
      Selected(servers[..|servers| - 1], ignores, message)
        + (if Eligible(last, ignores, message) then [TargetOf(last)] else [])
  }

  function SelectedFor(servers: seq<Server>, cfg: Config): seq<Target> {
    Selected(servers, Ignores(cfg), cfg.message)
  }

  /** A target is selected exactly when it belongs to an eligible server. */
  lemma {:induction false} SelectedMembers(servers: seq<Server>, ignores: seq<string>, message: string, t: Target)
    ensures t in Selected(servers, ignores, message)
        <==> exists i :: 0 <= i < |servers| && Eligible(servers[i], ignores, message) && t == TargetOf(servers[i])
  {
    if servers != [] {
      var init := servers[..|servers| - 1];
      SelectedMembers(init, ignores, message, t);
      if exists i :: 0 <= i < |servers| && Eligible(servers[i], ignores, message) && t == TargetOf(servers[i]) {
        var i :| 0 <= i < |servers| && Eligible(servers[i], ignores, message) && t == TargetOf(servers[i]);
        if i < |servers| - 1 {
          assert init[i] == servers[i];
        }
      }
      if exists i :: 0 <= i < |init| && Eligible(init[i], ignores, message) && t == TargetOf(init[i]) {
        var i :| 0 <= i < |init| && Eligible(init[i], ignores, message) && t == TargetOf(init[i]);
        assert servers[i] == init[i];
      }
    }
  }

  /** Selection keeps the host's order: it distributes over concatenation. */
  lemma {:induction false} SelectedAppend(a: seq<Server>, b: seq<Server>, ignores: seq<string>, message: string)
    ensures Selected(a + b, ignores, message) == Selected(a, ignores, message) + Selected(b, ignores, message)
    decreases |b|
  {
    if b == [] {
      assert a + b == a;
    } else {
      var b' := b[..|b| - 1];
      assert (a + b)[..|a + b| - 1] == a + b';
      SelectedAppend(a, b', ignores, message);
    }
  }

  /**
   * `get_servers` (screen_away.py:92-108): walks the host's server list once,
   * skipping servers that are not connected or are ignored, and keeps the
   * others unless they were set away with another message.
   */
  method GetServers(cfg: Config, servers: seq<Server>) returns (targets: seq<Target>)
    ensures targets == SelectedFor(servers, cfg)
  {
    var ignores := Split(cfg.ignore, ',');
    targets := [];
    var i := 0;
    while i < |servers|
      invariant i <= |servers|
      invariant targets == Selected(servers[..i], ignores, cfg.message)
    {
      var s := servers[i];
      assert servers[..i + 1][..i] == servers[..i];
      if s.isConnected == 1 && s.name !in ignores {
        if s.isAway == 0 || s.awayMessage == cfg.message {
          targets := targets + [TargetOf(s)];
        }
      }
      i := i + 1;
    }
    assert servers[..i] == servers;
  }

  /**
   * A server set away by hand, with a message other than the script's, is
   * never selected (as long as no other server shares its buffer).
   */
  lemma ManuallyAwayNotSelected(servers: seq<Server>, ignores: seq<string>, message: string, i: nat)
    requires i < |servers|
    requires servers[i].isAway != 0 && servers[i].awayMessage != message
    requires forall j :: 0 <= j < |servers| && j != i ==> servers[j].buffer != servers[i].buffer
    ensures forall t :: t in Selected(servers, ignores, message) ==> t.buffer != servers[i].buffer
  {
    forall t | t in Selected(servers, ignores, message)
      ensures t.buffer != servers[i].buffer
    {
      SelectedMembers(servers, ignores, message, t);
    }
  }

  /**
   * With the `ignore` option written as a comma-separated list of names that
   * hold no comma, a server is ignored exactly when its name is listed.
   */
  lemma IgnoredByName(names: seq<string>, name: string)
    requires |names| >= 1
    requires forall i :: 0 <= i < |names| ==> ',' !in names[i]
    ensures name in Split(Join(names, ','), ',') <==> name in names
  {
    SplitJoin(names, ',');
  }

  /** An empty `ignore` option splits to `[""]`: no server with a name is ignored. */
  lemma EmptyIgnoreIgnoresNoNamedServer(cfg: Config, s: Server)
    requires cfg.ignore == "" && s.name != ""
    ensures s.name !in Ignores(cfg)
  {
  }

  // ================================================================ attachment

  /**
   * `relay_attached` (screen_away.py:111-125): the first record of the relay
   * list, the current or most recent client, has the status "connected".
   */
  function RelayAttached(relays: seq<string>): (connected: bool)
    ensures connected ==> relays != []
    ensures relays != [] ==> connected == RelayAttached(relays[..1])
  {
    |relays| > 0 && relays[0] == "connected"
  }

  /**
   * The observation of one tick (screen_away.py:134-138): the socket is
   * executable, or relays are checked and the relay is attached.
   */
  function Attached(sockExecutable: bool, checkRelay: string, relays: seq<string>): (attached: bool)
    ensures sockExecutable ==> attached
    ensures checkRelay != "yes" ==> attached == sockExecutable
    ensures attached && !sockExecutable ==> RelayAttached(relays)
    ensures checkRelay == "yes" && RelayAttached(relays) ==> attached
  {
    if checkRelay == "yes" then sockExecutable || RelayAttached(relays) else sockExecutable
  }

  // ================================================================ nicks

  /** The nick used while away: the suffix appended (screen_away.py:157). */
  function AddSuffix(nick: string, suffix: string): (away: string)
    ensures EndsWith(away, suffix)
    ensures |away| == |nick| + |suffix| && away[..|nick|] == nick
  {
    nick + suffix
  }

  /**
   * `nick[:-len(suffix)]` for a nick that ends with a non-empty suffix
   * (screen_away.py:145-146); with an empty suffix Python's slice would give
   * "", and the script never strips then.
   */
  function StripSuffix(nick: string, suffix: string): (back: string)
    requires suffix != ""
    requires EndsWith(nick, suffix)
    ensures AddSuffix(back, suffix) == nick
  {
    nick[..|nick| - |suffix|]
  }

  /** Stripping the suffix from a nick made by appending it gives the nick back. */
  lemma StripAddSuffix(nick: string, suffix: string)
    requires suffix != ""
    ensures StripSuffix(AddSuffix(nick, suffix), suffix) == nick
  {
  }

  // ================================================================ commands

  /** What detaching sends to one server: a new nick if there is a suffix, then `/away <message>`. */
  function DetachBlock(t: Target, suffix: string, message: string): seq<Command> {
    (if suffix != "" then [Command(t.buffer, "/nick " + AddSuffix(t.nick, suffix))] else [])
      + [Command(t.buffer, "/away " + message)]
  }

  /** What attaching sends to one server: `/away`, then the nick without the suffix when it has it. */
  function AttachBlock(t: Target, suffix: string): seq<Command> {
    [Command(t.buffer, "/away")]
      + (if suffix != "" && EndsWith(t.nick, suffix)
         then [Command(t.buffer, "/nick " + StripSuffix(t.nick, suffix))]
         else [])
  }

  function DetachCommands(targets: seq<Target>, suffix: string, message: string): seq<Command> {
    if targets == [] then []
    else DetachCommands(targets[..|targets| - 1], suffix, message) + DetachBlock(targets[|targets| - 1], suffix, message)
  }

  function AttachCommands(targets: seq<Target>, suffix: string): seq<Command> {
    if targets == [] then []
    else AttachCommands(targets[..|targets| - 1], suffix) + AttachBlock(targets[|targets| - 1], suffix)
  }

  /** The command configured for a transition, issued with the empty buffer argument when it is not empty. */
  function HookCommand(command: string): seq<Command> {
    if command != "" then [Command(CurrentBuffer, command)] else []
  }

  /**
   * Detaching with a suffix sends every selected server, in order, the
   * suffixed nick and then the away message; without a suffix only the
   * away message.
   */
  lemma {:induction false} DetachCommandsLayout(targets: seq<Target>, suffix: string, message: string)
    ensures var cmds := DetachCommands(targets, suffix, message);
      |cmds| == (if suffix != "" then 2 else 1) * |targets|
    ensures var cmds := DetachCommands(targets, suffix, message);
      suffix != "" ==> forall i :: 0 <= i < |targets| ==>
        && cmds[2 * i] == Command(targets[i].buffer, "/nick " + targets[i].nick + suffix)
        && cmds[2 * i + 1] == Command(targets[i].buffer, "/away " + message)
    ensures var cmds := DetachCommands(targets, suffix, message);
      suffix == "" ==> forall i :: 0 <= i < |targets| ==>
        cmds[i] == Command(targets[i].buffer, "/away " + message)
  {
    if targets != [] {
      var init := targets[..|targets| - 1];
      DetachCommandsLayout(init, suffix, message);
      forall i | 0 <= i < |init|
        ensures targets[i] == init[i]
      {
      }
    }
  }

  /**
   * When every selected nick carries the (non-empty) suffix, attaching
   * sends every server, in order, `/away` and then the nick without the
   * suffix.
   */
  lemma {:induction false} AttachCommandsLayout(targets: seq<Target>, suffix: string)
    requires suffix != ""
    requires forall i :: 0 <= i < |targets| ==> EndsWith(targets[i].nick, suffix)
    ensures var cmds := AttachCommands(targets, suffix);
      && |cmds| == 2 * |targets|
      && forall i :: 0 <= i < |targets| ==>
        && cmds[2 * i] == Command(targets[i].buffer, "/away")
        && cmds[2 * i + 1] == Command(targets[i].buffer, "/nick " + StripSuffix(targets[i].nick, suffix))
  {
    if targets != [] {
      var init := targets[..|targets| - 1];
      forall i | 0 <= i < |init|
        ensures targets[i] == init[i] && EndsWith(init[i].nick, suffix)
      {
      }
      AttachCommandsLayout(init, suffix);
    }
  }

  /** Without a suffix, attaching only clears the away status of every selected server, in order. */
  lemma {:induction false} AttachCommandsWithoutSuffix(targets: seq<Target>)
    ensures var cmds := AttachCommands(targets, "");
      && |cmds| == |targets|
      && forall i :: 0 <= i < |targets| ==> cmds[i] == Command(targets[i].buffer, "/away")
  {
    if targets != [] {
      var init := targets[..|targets| - 1];
      AttachCommandsWithoutSuffix(init);
      forall i | 0 <= i < |init|
        ensures targets[i] == init[i]
      {
      }
    }
  }

  /** The commands attaching may send to one target, whatever its nick and the suffix. */
  predicate AttachCommandFor(c: Command, t: Target, suffix: string) {
    || c == Command(t.buffer, "/away")
    || (suffix != "" && EndsWith(t.nick, suffix) && c == Command(t.buffer, "/nick " + StripSuffix(t.nick, suffix)))
  }

  /**
   * For every input: a command of an attach is `/away` for a selected
   * server, or the nick without the suffix for a selected server whose nick
   * ends with a non-empty suffix; and each of those is sent. So a server
   * whose nick lost the suffix gets `/away` and no `/nick`.
   */
  lemma {:induction false} AttachCommandsMembers(targets: seq<Target>, suffix: string, c: Command)
    ensures c in AttachCommands(targets, suffix)
        <==> exists i :: 0 <= i < |targets| && AttachCommandFor(c, targets[i], suffix)
  {
    if targets != [] {
      var init := targets[..|targets| - 1];
      AttachCommandsMembers(init, suffix, c);
      if exists i :: 0 <= i < |targets| && AttachCommandFor(c, targets[i], suffix) {
        var i :| 0 <= i < |targets| && AttachCommandFor(c, targets[i], suffix);
        if i < |targets| - 1 {
          assert init[i] == targets[i];
        }
      }
      if exists i :: 0 <= i < |init| && AttachCommandFor(c, init[i], suffix) {
        var i :| 0 <= i < |init| && AttachCommandFor(c, init[i], suffix);
        assert targets[i] == init[i];
      }
    }
  }

  /**
   * A selected server whose nick does not end with the (non-empty) suffix,
   * and whose buffer no other selected server shares, is sent `/away` and
   * nothing else on attach.
   */
  lemma AttachWithoutSuffixOnlyAway(targets: seq<Target>, suffix: string, i: nat)
    requires i < |targets|
    requires !EndsWith(targets[i].nick, suffix)
    requires forall j :: 0 <= j < |targets| && j != i ==> targets[j].buffer != targets[i].buffer
    ensures Command(targets[i].buffer, "/away") in AttachCommands(targets, suffix)
    ensures forall c :: c in AttachCommands(targets, suffix) && c.buffer == targets[i].buffer ==>
      c == Command(targets[i].buffer, "/away")
  {
    AttachCommandsMembers(targets, suffix, Command(targets[i].buffer, "/away"));
    forall c | c in AttachCommands(targets, suffix) && c.buffer == targets[i].buffer
      ensures c == Command(targets[i].buffer, "/away")
    {
      AttachCommandsMembers(targets, suffix, c);
    }
  }

  /** The buffers of some targets. */
  function Buffers(targets: seq<Target>): set<string> {
    set i | 0 <= i < |targets| :: targets[i].buffer
  }

  lemma BuffersOfInit(targets: seq<Target>)
    requires targets != []
    ensures Buffers(targets) == Buffers(targets[..|targets| - 1]) + {targets[|targets| - 1].buffer}
  {
  }

  /** Every command of an attach goes to the buffer of a selected server. */
  lemma {:induction false} AttachCommandsGoToTargets(targets: seq<Target>, suffix: string)
    ensures forall c :: c in AttachCommands(targets, suffix) ==> c.buffer in Buffers(targets)
  {
    if targets != [] {
      var init := targets[..|targets| - 1];
      AttachCommandsGoToTargets(init, suffix);
      BuffersOfInit(targets);
    }
  }

  /** Every command of a detach goes to the buffer of a selected server. */
  lemma {:induction false} DetachCommandsGoToTargets(targets: seq<Target>, suffix: string, message: string)
    ensures forall c :: c in DetachCommands(targets, suffix, message) ==> c.buffer in Buffers(targets)
  {
    if targets != [] {
      var init := targets[..|targets| - 1];
      DetachCommandsGoToTargets(init, suffix, message);
      BuffersOfInit(targets);
    }
  }

  // ================================================================ one tick

  /**
   * `screen_away_timer_cb` (screen_away.py:128-163) as a function of the
   * away flag and the observation: on a change it sends the per-server
   * commands, then the configured command, and flips the flag; otherwise it
   * does nothing.
   */
  function TimerStep(away: bool, attached: bool, cfg: Config, servers: seq<Server>): (r: Tick)
    ensures r.away == !attached
    ensures attached == !away ==> r == Tick(away, [])
  {
    if attached && away then
      Tick(false, AttachCommands(SelectedFor(servers, cfg), cfg.awaySuffix) + HookCommand(cfg.commandOnAttach))
    else if !attached && !away then
      Tick(true, DetachCommands(SelectedFor(servers, cfg), cfg.awaySuffix, cfg.message) + HookCommand(cfg.commandOnDetach))
    else
      Tick(away, [])
  }

  /** A second tick that sees the same observation changes nothing and sends nothing. */
  lemma TimerStepIdempotent(away: bool, attached: bool, cfg: Config, cfg': Config, servers: seq<Server>, servers': seq<Server>)
    ensures var first := TimerStep(away, attached, cfg, servers);
      TimerStep(first.away, attached, cfg', servers') == Tick(first.away, [])
  {
  }

  /**
   * The configured command of a transition comes after every per-server
   * command: when no server's buffer is the empty name, only the last
   * command may carry the empty buffer argument (the current buffer), it
   * does exactly when that command is configured, and it is that command;
   * with none configured no command carries the empty buffer argument.
   */
  lemma HookCommandComesLast(away: bool, attached: bool, cfg: Config, servers: seq<Server>)
    requires attached == away
    requires forall i :: 0 <= i < |servers| ==> servers[i].buffer != CurrentBuffer
    ensures var cmds := TimerStep(away, attached, cfg, servers).commands;
      var hook := if attached then cfg.commandOnAttach else cfg.commandOnDetach;
      && (forall k :: 0 <= k < |cmds| - 1 ==> cmds[k].buffer != CurrentBuffer)
      && (hook != "" <==> cmds != [] && cmds[|cmds| - 1] == Command(CurrentBuffer, hook))
      && (hook == "" ==> forall k :: 0 <= k < |cmds| ==> cmds[k].buffer != CurrentBuffer)
  {
    var targets := SelectedFor(servers, cfg);
    var hook := if attached then cfg.commandOnAttach else cfg.commandOnDetach;
    var perServer := if attached then AttachCommands(targets, cfg.awaySuffix)
                     else DetachCommands(targets, cfg.awaySuffix, cfg.message);
    var cmds := TimerStep(away, attached, cfg, servers).commands;
    assert cmds == perServer + HookCommand(hook);
    AttachCommandsGoToTargets(targets, cfg.awaySuffix);
    DetachCommandsGoToTargets(targets, cfg.awaySuffix, cfg.message);
    forall c | c in perServer
      ensures c.buffer != CurrentBuffer
    {
      var k :| 0 <= k < |targets| && targets[k].buffer == c.buffer;
      SelectedMembers(servers, Ignores(cfg), cfg.message, targets[k]);
    }
    forall k | 0 <= k < |cmds| - 1
      ensures cmds[k].buffer != CurrentBuffer
    {
      assert cmds[k] == perServer[k] && perServer[k] in perServer;
    }
    if hook == "" {
      forall k | 0 <= k < |cmds|
        ensures cmds[k].buffer != CurrentBuffer
      {
        assert cmds[k] == perServer[k] && perServer[k] in perServer;
      }
    }
  }

  /**
   * A server set away by hand with another message is never sent a
   * per-server command, on any tick: every command either names another
   * buffer or is the configured command, issued with the empty buffer
   * argument (given that buffers are not shared and none is the empty name).
   */
  lemma ManuallyAwayServerUntouched(away: bool, attached: bool, cfg: Config, servers: seq<Server>, i: nat)
    requires i < |servers|
    requires servers[i].isAway != 0 && servers[i].awayMessage != cfg.message
    requires servers[i].buffer != CurrentBuffer
    requires forall j :: 0 <= j < |servers| && j != i ==> servers[j].buffer != servers[i].buffer
    ensures forall c :: c in TimerStep(away, attached, cfg, servers).commands ==> c.buffer != servers[i].buffer
  {
    var targets := SelectedFor(servers, cfg);
    ManuallyAwayNotSelected(servers, Ignores(cfg), cfg.message, i);
    AttachCommandsGoToTargets(targets, cfg.awaySuffix);
    DetachCommandsGoToTargets(targets, cfg.awaySuffix, cfg.message);
    forall b | b in Buffers(targets)
      ensures b != servers[i].buffer
    {
      var k :| 0 <= k < |targets| && targets[k].buffer == b;
      assert targets[k] in targets;
    }
  }

  // ================================================================ detach, then attach

  /**
   * What the detach commands mean for a server once WeeChat and the IRC
   * server have carried them out: the suffixed nick, and away with the
   * script's message.  Servers that were not selected are unchanged.
   */
  function AfterDetach(s: Server, cfg: Config): Server {
    if Eligible(s, Ignores(cfg), cfg.message) then
      s.(nick := if cfg.awaySuffix != "" then AddSuffix(s.nick, cfg.awaySuffix) else s.nick,
         isAway := 1, awayMessage := cfg.message)
    else s
  }

  function ServersAfterDetach(servers: seq<Server>, cfg: Config): seq<Server> {
    if servers == [] then []
    else ServersAfterDetach(servers[..|servers| - 1], cfg) + [AfterDetach(servers[|servers| - 1], cfg)]
  }

  function WithSuffix(targets: seq<Target>, suffix: string): seq<Target> {
    if targets == [] then []
    else
      var last := targets[|targets| - 1];
      WithSuffix(targets[..|targets| - 1], suffix) + [Target(last.buffer, AddSuffix(last.nick, suffix))]
  }

  lemma {:induction false} WithSuffixAt(targets: seq<Target>, suffix: string)
    ensures |WithSuffix(targets, suffix)| == |targets|
    ensures forall i :: 0 <= i < |targets| ==>
      WithSuffix(targets, suffix)[i] == Target(targets[i].buffer, AddSuffix(targets[i].nick, suffix))
  {
    if targets != [] {
      var init := targets[..|targets| - 1];
      WithSuffixAt(init, suffix);
      forall i | 0 <= i < |init|
        ensures targets[i] == init[i]
      {
      }
    }
  }

  /** After a detach, the same servers are selected, now with the suffixed nicks. */
  lemma {:induction false} SelectedAfterDetach(servers: seq<Server>, cfg: Config)
    requires cfg.awaySuffix != ""
    ensures SelectedFor(ServersAfterDetach(servers, cfg), cfg) == WithSuffix(SelectedFor(servers, cfg), cfg.awaySuffix)
  {
    if servers != [] {
      var init := servers[..|servers| - 1];
      var after := ServersAfterDetach(servers, cfg);
      SelectedAfterDetach(init, cfg);
      assert after[..|after| - 1] == ServersAfterDetach(init, cfg);
      var sel := SelectedFor(servers, cfg);
      var last := servers[|servers| - 1];
      assert after[|after| - 1] == AfterDetach(last, cfg);
      assert Eligible(AfterDetach(last, cfg), Ignores(cfg), cfg.message) == Eligible(last, Ignores(cfg), cfg.message);
      if Eligible(last, Ignores(cfg), cfg.message) {
        var suffixed := Target(last.buffer, AddSuffix(last.nick, cfg.awaySuffix));
        assert sel == SelectedFor(init, cfg) + [TargetOf(last)];
        assert sel[..|sel| - 1] == SelectedFor(init, cfg);
        calc {
          SelectedFor(after, cfg);
          SelectedFor(ServersAfterDetach(init, cfg), cfg) + [TargetOf(AfterDetach(last, cfg))];
          WithSuffix(SelectedFor(init, cfg), cfg.awaySuffix) + [suffixed];
          WithSuffix(sel, cfg.awaySuffix);
        }
      } else {
        assert sel == SelectedFor(init, cfg);
        assert SelectedFor(after, cfg) == SelectedFor(ServersAfterDetach(init, cfg), cfg);
      }
    }
  }

  /**
   * The round trip of an absence: a detach tick followed, once the host has
   * carried out its commands, by an attach tick gives every server that was
   * touched its `/away` cleared and its original nick back, in the same order.
   */
  lemma DetachThenAttachRestoresNicks(servers: seq<Server>, cfg: Config)
    requires cfg.awaySuffix != ""
    ensures var detach := TimerStep(false, false, cfg, servers);
      var attach := TimerStep(detach.away, true, cfg, ServersAfterDetach(servers, cfg));
      var targets := SelectedFor(servers, cfg);
      && detach.away && !attach.away
      && |attach.commands| == 2 * |targets| + |HookCommand(cfg.commandOnAttach)|
      && attach.commands[..2 * |targets|] == AttachCommands(WithSuffix(targets, cfg.awaySuffix), cfg.awaySuffix)
      && attach.commands[2 * |targets|..] == HookCommand(cfg.commandOnAttach)
      && forall i :: 0 <= i < |targets| ==>
        && attach.commands[2 * i] == Command(targets[i].buffer, "/away")
        && attach.commands[2 * i + 1] == Command(targets[i].buffer, "/nick " + targets[i].nick)
  {
    var suffix := cfg.awaySuffix;
    var targets := SelectedFor(servers, cfg);
    var back := WithSuffix(targets, suffix);
    SelectedAfterDetach(servers, cfg);
    WithSuffixAt(targets, suffix);
    AttachCommandsLayout(back, suffix);
    var perServer := AttachCommands(back, suffix);
    var attach := TimerStep(true, true, cfg, ServersAfterDetach(servers, cfg));
    assert attach.commands == perServer + HookCommand(cfg.commandOnAttach);
    forall i | 0 <= i < |targets|
      ensures attach.commands[2 * i] == Command(targets[i].buffer, "/away")
      ensures attach.commands[2 * i + 1] == Command(targets[i].buffer, "/nick " + targets[i].nick)
    {
      StripAddSuffix(targets[i].nick, suffix);
      assert attach.commands[2 * i + 1] == perServer[2 * i + 1];
    }
  }

  // ================================================================ timer and options

  /**
   * The interval handed to `hook_timer` (screen_away.py:82): `int(interval)`
   * seconds as milliseconds; `None` where `int()` raises.
   */
  function IntervalMs(interval: string): Option<int> {
    match ParseInt(interval)
    case Some(seconds) => Some(seconds * 1000)
    case None => None
  }

  /** An interval written as Python writes numbers is that many thousand milliseconds. */
  lemma IntervalMsOfSeconds(seconds: int)
    ensures IntervalMs(IntToString(seconds)) == Some(seconds * 1000)
  {
    IntToStringRoundTrip(seconds);
  }

  /** `screen_away_config_cb` (screen_away.py:86-89) re-arms the timer for these option names only. */
  predicate RearmsTimer(option: string) {
    EndsWith(option, ".interval")
  }

  /**
   * A plugin option whose name holds no '.' re-arms the timer exactly when
   * it is `interval`; so of the script's own options only `interval` does.
   */
  lemma RearmsTimerExactly(name: string)
    requires '.' !in name
    ensures RearmsTimer(OptionPrefix + name) <==> name == "interval"
  {
    var o := OptionPrefix + name;
    var n := |OptionPrefix|;
    assert o[n - 1] == '.';
    if name == "interval" {
      assert o[|o| - 9..] == [o[n - 1]] + name;
    } else {
      var tail := o[|o| - 9..];
      if |name| >= 9 {
        assert tail[0] == name[|name| - 9];
        assert name[|name| - 9] != '.';
      } else if |name| == 8 {
        assert tail[1..] == name;
      } else {
        var k := 8 - |name|;
        assert tail[k] == '.';
        assert ".interval"[k] != '.';
      }
      assert tail != ".interval";
    }
  }

  lemma OnlyIntervalRearms()
    ensures forall name :: name in OptionNames ==> (RearmsTimer(OptionPrefix + name) <==> name == "interval")
  {
    forall name | name in OptionNames
      ensures RearmsTimer(OptionPrefix + name) <==> name == "interval"
    {
      RearmsTimerExactly(name);
    }
  }

  /** With the default options the timer runs every 5000 ms. */
  lemma DefaultInterval()
    ensures IntervalMs(Defaults.interval) == Some(5000)
  {
    assert NatToString(5) == "5";
    IntervalMsOfSeconds(5);
  }

  /**
   * With the default options the relay is not consulted, and a detach only
   * sets every selected server away with "Detached from screen", keeping
   * the nicks.
   */
  lemma DefaultDetach(sockExecutable: bool, relays: seq<string>, servers: seq<Server>)
    ensures Attached(sockExecutable, Defaults.checkRelay, relays) == sockExecutable
    ensures var cmds := TimerStep(false, false, Defaults, servers).commands;
      var targets := SelectedFor(servers, Defaults);
      && |cmds| == |targets|
      && forall i :: 0 <= i < |targets| ==> cmds[i] == Command(targets[i].buffer, "/away Detached from screen")
  {
    DetachCommandsLayout(SelectedFor(servers, Defaults), "", Defaults.message);
  }

  // ================================================================ the plugin's globals

  /**
   * The script's global state: `AWAY`, `SOCK` ("" for none) and `TIMER`,
   * here the interval in milliseconds last handed to `hook_timer`, if any,
   * and whether the configuration hook was installed.
   */
  class Plugin {
    var away: bool
    var sock: string
    var timer: Option<int>
    var configHooked: bool

    /**
     * Loading the script (screen_away.py:175-190): find the socket, and when
     * there is one arm the timer and hook the options.  If `int()` raises in
     * `set_timer`, loading stops before the options are hooked.
     */
    constructor Load(sty: Option<string>, screenLs: string, tmux: Option<string>, cfg: Config)
      ensures !away
      ensures sock == Sockets.SocketPath(sty, screenLs, tmux)
      ensures timer == (if sock != "" then IntervalMs(cfg.interval) else None)
      ensures configHooked <==> timer.Some?
    {
      away := false;
      sock := Sockets.SocketPath(sty, screenLs, tmux);
      timer := None;
      configHooked := false;
      new;
      if sock != "" {
        ghost var path := sock;
        var ok := SetTimer(cfg.interval);
        assert sock == path;
        if ok {
          configHooked := true;
        }
      }
    }

    /**
     * `set_timer` (screen_away.py:76-83): unhook the running timer, then
     * hook a new one; when `int()` raises, the old timer is gone and no new
     * one is armed.
     */
    method SetTimer(interval: string) returns (ok: bool)
      modifies this`timer
      ensures ok <==> ParseInt(interval).Some?
      ensures timer == IntervalMs(interval)
    {
      if timer.Some? {
        timer := None;
      }
      var seconds := ParseInt(interval);
      if seconds.None? {
        return false;
      }
      timer := Some(seconds.value * 1000);
      ok := true;
    }

    /** `screen_away_config_cb`: a changed option re-arms the timer when it is the interval. */
    method OnConfigChange(option: string, cfg: Config)
      modifies this`timer
      ensures RearmsTimer(option) ==> timer == IntervalMs(cfg.interval)
      ensures !RearmsTimer(option) ==> timer == old(timer)
    {
      if EndsWith(option, ".interval") {
        var _ := SetTimer(cfg.interval);
      }
    }

    /**
     * `screen_away_timer_cb` (screen_away.py:128-163): one tick, given what
     * the host reports; returns the commands issued, in order.
     */
    method OnTimer(cfg: Config, sockExecutable: bool, relays: seq<string>, servers: seq<Server>)
      returns (commands: seq<Command>)
      modifies this`away
      ensures var r := TimerStep(old(away), Attached(sockExecutable, cfg.checkRelay, relays), cfg, servers);
        away == r.away && commands == r.commands
    {
      var suffix := cfg.awaySuffix;
      var attached := sockExecutable;
      if cfg.checkRelay == "yes" {
        var relay := RelayAttached(relays);
        attached := attached || relay;
      }
      commands := [];
      if attached && away {
        var targets := GetServers(cfg, servers);
        for i := 0 to |targets|
          invariant commands == AttachCommands(targets[..i], suffix)
        {
          var t := targets[i];
          commands := commands + [Command(t.buffer, "/away")];
          if suffix != "" && EndsWith(t.nick, suffix) {
            var nick := t.nick[..|t.nick| - |suffix|];
            commands := commands + [Command(t.buffer, "/nick " + nick)];
          }
          assert targets[..i + 1][..i] == targets[..i];
        }
        assert targets[..|targets|] == targets;
        away := false;
        if cfg.commandOnAttach != "" {
          commands := commands + [Command(CurrentBuffer, cfg.commandOnAttach)];
        }
      } else if !attached && !away {
        var targets := GetServers(cfg, servers);
        for i := 0 to |targets|
          invariant commands == DetachCommands(targets[..i], suffix, cfg.message)
        {
          var t := targets[i];
          if suffix != "" {
            commands := commands + [Command(t.buffer, "/nick " + t.nick + suffix)];
            assert "/nick " + t.nick + suffix == "/nick " + AddSuffix(t.nick, suffix);
          }
          commands := commands + [Command(t.buffer, "/away " + cfg.message)];
          assert targets[..i + 1][..i] == targets[..i];
        }
        assert targets[..|targets|] == targets;
        away := true;
        if cfg.commandOnDetach != "" {
          commands := commands + [Command(CurrentBuffer, cfg.commandOnDetach)];
        }
      }
    }
  }
}
