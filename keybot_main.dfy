/** The keybot program's own commands (keybot/main.go): the registry every
    bot starts with, the config updaters behind `pause`, `resume` and
    `config`, and the two kingpin handlers that `build`, `release`, `test` and
    `cancel` are routed to. */
module KeybotMain {
  import opened Outcomes
  import Config
  import Bot
  import Cli
  import Jenkins

  // The config updaters.

  /** `pause`: builds are refused from now on; dry-run mode is kept. */
  function Pause(c: Config.Config): (u: Config.Updated)
    ensures u.err.None? && u.config.paused && u.config.dryRun == c.dryRun
  {
    Config.Updated(c.(paused := true), None)
  }

  /** `resume`: builds are accepted again; dry-run mode is kept. */
  function Resume(c: Config.Config): (u: Config.Updated)
    ensures u.err.None? && !u.config.paused && u.config.dryRun == c.dryRun
  {
    Config.Updated(c.(paused := false), None)
  }

  /** `config`: leaves the config as it is, so running it shows it. */
  function Unchanged(c: Config.Config): (u: Config.Updated)
    ensures u.err.None? && u.config == c
  {
    Config.Updated(c, None)
  }

  /** Pausing twice is pausing once, and resuming undoes a pause. */
  lemma PauseResumeRoundTrip(c: Config.Config)
    ensures Pause(Pause(c).config) == Pause(c)
    ensures !c.paused ==> Resume(Pause(c).config).config == c
    ensures c.paused ==> Pause(Resume(c).config).config == c
  {
  }

  // The registry.

  /** The names of the two handlers a `FuncCommand` can be routed to. */
  const KeybotHandlerName := "kingpinKeybotHandler"
  const TuxbotHandlerName := "kingpinTuxbotHandler"

  const PauseCommand := Bot.ConfigCommand(Config.ConfigCommand("Pause any future builds", Pause))
  const ResumeCommand := Bot.ConfigCommand(Config.ConfigCommand("Continue any future builds", Resume))
  const ShowConfigCommand := Bot.ConfigCommand(Config.ConfigCommand("List current config", Unchanged))

  /** The commands every bot registers first; `toggle` is the dry-run
      toggle, defined outside the modelled files. */
  function CommonCommands(toggle: Bot.Command): map<string, Bot.Command>
  {
    map[
      "date" := Bot.ExecCommand("/bin/date", [], true, "Show the current date"),
      "pause" := PauseCommand,
      "resume" := ResumeCommand,
      "config" := ShowConfigCommand,
      "toggle-dryrun" := toggle]
  }

  /** The build commands of the bot user `user`; `funcShow` is whether a
      `FuncCommand` shows its result. */
  function BuildCommands(user: string, funcShow: bool): map<string, Bot.Command>
  {
    if user == "tuxbot" then
      map["build" := Bot.FuncCommand("Build all the things!", TuxbotHandlerName, funcShow)]
    else
      map["build" := Bot.FuncCommand("Build all the things!", KeybotHandlerName, funcShow),
          "release" := Bot.FuncCommand("Release all the things!", KeybotHandlerName, funcShow),
          "test" := Bot.FuncCommand("Test all the things!", KeybotHandlerName, funcShow),
          "cancel" := Bot.FuncCommand("Cancel all the things!", KeybotHandlerName, funcShow),
          "restart" := Bot.ExecCommand("/bin/launchctl", ["stop", "keybase.keybot"], false, "Restart the bot")]
  }

  /** The commands `addCommands` registers for the bot user `user`. */
  function Registry(user: string, toggle: Bot.Command, funcShow: bool): map<string, Bot.Command>
  {
    CommonCommands(toggle) + BuildCommands(user, funcShow)
  }

  /** `base` after the registrations of `addCommands`, one at a time. */
  function Register(base: map<string, Bot.Command>, user: string, toggle: Bot.Command, funcShow: bool): map<string, Bot.Command>
  {
    var common := base["date" := Bot.ExecCommand("/bin/date", [], true, "Show the current date")]
                       ["pause" := PauseCommand]["resume" := ResumeCommand]["config" := ShowConfigCommand]
                       ["toggle-dryrun" := toggle];
    if user == "tuxbot" then
      common["build" := Bot.FuncCommand("Build all the things!", TuxbotHandlerName, funcShow)]
    else
      common["build" := Bot.FuncCommand("Build all the things!", KeybotHandlerName, funcShow)]
            ["release" := Bot.FuncCommand("Release all the things!", KeybotHandlerName, funcShow)]
            ["test" := Bot.FuncCommand("Test all the things!", KeybotHandlerName, funcShow)]
            ["cancel" := Bot.FuncCommand("Cancel all the things!", KeybotHandlerName, funcShow)]
            ["restart" := Bot.ExecCommand("/bin/launchctl", ["stop", "keybase.keybot"], false, "Restart the bot")]
  }

  /** Registering one by one adds the registry to what the bot held, the new
      commands replacing any old ones with the same trigger. */
  lemma RegisterAddsRegistry(base: map<string, Bot.Command>, user: string, toggle: Bot.Command, funcShow: bool)
    ensures Register(base, user, toggle, funcShow) == base + Registry(user, toggle, funcShow)
  {
    var date := Bot.ExecCommand("/bin/date", [], true, "Show the current date");
    var none: map<string, Bot.Command> := map[];
    assert base == base + none;
    UpdateAfterMerge(base, none, "date", date);
    UpdateAfterMerge(base, none["date" := date], "pause", PauseCommand);
    UpdateAfterMerge(base, none["date" := date]["pause" := PauseCommand], "resume", ResumeCommand);
    UpdateAfterMerge(base, none["date" := date]["pause" := PauseCommand]["resume" := ResumeCommand],
                     "config", ShowConfigCommand);
    UpdateAfterMerge(base, none["date" := date]["pause" := PauseCommand]["resume" := ResumeCommand]
                               ["config" := ShowConfigCommand], "toggle-dryrun", toggle);
    var common := base + CommonCommands(toggle);
    assert common == base["date" := date]["pause" := PauseCommand]["resume" := ResumeCommand]
                         ["config" := ShowConfigCommand]["toggle-dryrun" := toggle];
    var c := CommonCommands(toggle);
    var build := BuildCommands(user, funcShow);
    var b := Bot.FuncCommand("Build all the things!", if user == "tuxbot" then TuxbotHandlerName else KeybotHandlerName, funcShow);
    UpdateAfterMerge(base, c, "build", b);
    UpdateAfterMerge(c, none, "build", b);
    assert c == c + none;
    if user == "tuxbot" {
      assert build == none["build" := b];
    } else {
      var release := Bot.FuncCommand("Release all the things!", KeybotHandlerName, funcShow);
      var test := Bot.FuncCommand("Test all the things!", KeybotHandlerName, funcShow);
      var cancel := Bot.FuncCommand("Cancel all the things!", KeybotHandlerName, funcShow);
      var restart := Bot.ExecCommand("/bin/launchctl", ["stop", "keybase.keybot"], false, "Restart the bot");
      UpdateAfterMerge(base, c["build" := b], "release", release);
      UpdateAfterMerge(base, c["build" := b]["release" := release], "test", test);
      UpdateAfterMerge(base, c["build" := b]["release" := release]["test" := test], "cancel", cancel);
      UpdateAfterMerge(base, c["build" := b]["release" := release]["test" := test]["cancel" := cancel],
                       "restart", restart);
      UpdateAfterMerge(c, none["build" := b], "release", release);
      UpdateAfterMerge(c, none["build" := b]["release" := release], "test", test);
      UpdateAfterMerge(c, none["build" := b]["release" := release]["test" := test], "cancel", cancel);
      UpdateAfterMerge(c, none["build" := b]["release" := release]["test" := test]["cancel" := cancel],
                       "restart", restart);
      assert build == none["build" := b]["release" := release]["test" := test]["cancel" := cancel]
                          ["restart" := restart];
    }
  }

  /** Updating a merge updates its right-hand side. */
  lemma UpdateAfterMerge<K, V>(m: map<K, V>, n: map<K, V>, k: K, v: V)
    ensures (m + n)[k := v] == m + n[k := v]
  {
  }

  /** `addCommands`: registers the common commands, then the tuxbot or the
      keybot build commands; whatever else the bot held stays. */
  method AddCommands(bot: Bot.Bot, user: string, toggle: Bot.Command, funcShow: bool)
    modifies bot`commands
    ensures bot.commands == old(bot.commands) + Registry(user, toggle, funcShow)
  {
    ghost var base := bot.commands;
    bot.AddCommand("date", Bot.ExecCommand("/bin/date", [], true, "Show the current date"));
    bot.AddCommand("pause", PauseCommand);
    bot.AddCommand("resume", ResumeCommand);
    bot.AddCommand("config", ShowConfigCommand);
    bot.AddCommand("toggle-dryrun", toggle);
    if user == "tuxbot" {
      bot.AddCommand("build", Bot.FuncCommand("Build all the things!", TuxbotHandlerName, funcShow));
    } else {
      bot.AddCommand("build", Bot.FuncCommand("Build all the things!", KeybotHandlerName, funcShow));
      bot.AddCommand("release", Bot.FuncCommand("Release all the things!", KeybotHandlerName, funcShow));
      bot.AddCommand("test", Bot.FuncCommand("Test all the things!", KeybotHandlerName, funcShow));
      bot.AddCommand("cancel", Bot.FuncCommand("Cancel all the things!", KeybotHandlerName, funcShow));
      bot.AddCommand("restart", Bot.ExecCommand("/bin/launchctl", ["stop", "keybase.keybot"], false, "Restart the bot"));
    }
    assert bot.commands == Register(base, user, toggle, funcShow);
    RegisterAddsRegistry(base, user, toggle, funcShow);
  }

  /** Tuxbot only knows `build`, routed to the tuxbot handler; every other
      bot gets the four keybot commands and `restart`. */
  lemma RegistryTriggers(user: string, toggle: Bot.Command, funcShow: bool)
    ensures var r := Registry(user, toggle, funcShow);
      (user == "tuxbot" ==>
        r.Keys == {"date", "pause", "resume", "config", "toggle-dryrun", "build"} &&
        r["build"].FuncCommand? && r["build"].handler == TuxbotHandlerName) &&
      (user != "tuxbot" ==>
        r.Keys == {"date", "pause", "resume", "config", "toggle-dryrun", "build", "release", "test", "cancel", "restart"} &&
        (forall t | t in {"build", "release", "test", "cancel"} :: r[t].FuncCommand? && r[t].handler == KeybotHandlerName))
  {
    CommonKeys(toggle);
    BuildKeys(user, funcShow);
  }

  /** The common triggers. */
  lemma CommonKeys(toggle: Bot.Command)
    ensures CommonCommands(toggle).Keys == {"date", "pause", "resume", "config", "toggle-dryrun"}
  {
  }

  /** The build triggers of tuxbot and of the other bots. */
  lemma BuildKeys(user: string, funcShow: bool)
    ensures user == "tuxbot" ==> BuildCommands(user, funcShow).Keys == {"build"}
    ensures user != "tuxbot" ==>
      BuildCommands(user, funcShow).Keys == {"build", "release", "test", "cancel", "restart"}
  {
  }

  /** The common commands keep their entries whatever the bot. */
  lemma CommonEntries(user: string, toggle: Bot.Command, funcShow: bool)
    ensures var r := Registry(user, toggle, funcShow);
      "date" in r && "pause" in r && "resume" in r && "config" in r &&
      r["date"] == Bot.ExecCommand("/bin/date", [], true, "Show the current date") &&
      r["pause"] == PauseCommand && r["resume"] == ResumeCommand && r["config"] == ShowConfigCommand
  {
    CommonValues(toggle);
    CommonKept("date", user, toggle, funcShow);
    CommonKept("pause", user, toggle, funcShow);
    CommonKept("resume", user, toggle, funcShow);
    CommonKept("config", user, toggle, funcShow);
  }

  /** A common trigger that is not a build trigger keeps its common entry. */
  lemma CommonKept(t: string, user: string, toggle: Bot.Command, funcShow: bool)
    requires t in CommonCommands(toggle) && t !in {"build", "release", "test", "cancel", "restart"}
    ensures t in Registry(user, toggle, funcShow)
    ensures Registry(user, toggle, funcShow)[t] == CommonCommands(toggle)[t]
  {
    BuildKeys(user, funcShow);
  }

  /** The entries of the common commands. */
  lemma CommonValues(toggle: Bot.Command)
    ensures var c := CommonCommands(toggle);
      "date" in c && "pause" in c && "resume" in c && "config" in c &&
      c["date"] == Bot.ExecCommand("/bin/date", [], true, "Show the current date") &&
      c["pause"] == PauseCommand && c["resume"] == ResumeCommand && c["config"] == ShowConfigCommand
  {
  }

  /** `date` and the config commands show their result; `restart` does not. */
  lemma RegistryShowsResults(user: string, toggle: Bot.Command, funcShow: bool)
    ensures var r := Registry(user, toggle, funcShow);
      r["date"].ShowResult() && r["pause"].ShowResult() && r["resume"].ShowResult() && r["config"].ShowResult() &&
      (user != "tuxbot" ==> !r["restart"].ShowResult())
  {
    CommonEntries(user, toggle, funcShow);
  }

  /** Running `pause`, `resume` and `config` applies the matching updater. */
  lemma ConfigCommandsUpdate(user: string, toggle: Bot.Command, funcShow: bool, c: Config.Config)
    ensures var r := Registry(user, toggle, funcShow);
      r["pause"].ConfigCommand? && r["pause"].config.updater(c).config == c.(paused := true) &&
      r["resume"].ConfigCommand? && r["resume"].config.updater(c).config == c.(paused := false) &&
      r["config"].ConfigCommand? && r["config"].config.updater(c).config == c
  {
    CommonEntries(user, toggle, funcShow);
  }

  // The handlers.

  /** What a handler does to the world: runs a program, or calls Jenkins. */
  datatype Action =
    | Exec(path: string, args: seq<string>)
    | JenkinsCall(call: Jenkins.Call)

  /** What a program run returns (its output and error). */
  type Runner = (string, seq<string>) -> Reply

  /** The flag and argument values kingpin filled in for the keybot parser. */
  datatype KeybotArgs = KeybotArgs(clientCommit: string, kbfsCommit: string,
                                   releaseToPromote: string, queueID: string)

  /** `setDarwinEnv`: `launchctl setenv name value`. */
  function SetEnv(name: string, value: string): (a: Action)
    ensures a.Exec? && a.path == "/bin/launchctl" && a.args == ["setenv", name, value]
  {
    Exec("/bin/launchctl", ["setenv", name, value])
  }

  function Launchctl(verb: string, job: string): Action
  {
    Exec("/bin/launchctl", [verb, job])
  }

  /** The reply of running `a`, which is a program run. */
  function RunAction(a: Action, run: Runner): Reply
    requires a.Exec?
  {
    run(a.path, a.args)
  }

  function JenkinsCalls(calls: seq<Jenkins.Call>): (actions: seq<Action>)
    ensures |actions| == |calls|
    ensures forall i :: 0 <= i < |calls| ==> actions[i] == JenkinsCall(calls[i])
  {
    if |calls| == 0 then [] else [JenkinsCall(calls[0])] + JenkinsCalls(calls[1..])
  }

  /** The Windows test build's update channel. */
  const WindowsTestChannel := "update-windows-prod-test.json"

  /** The switch of `kingpinKeybotHandler`, once both commits are set. */
  function KeybotSwitch(cmd: string, a: KeybotArgs, run: Runner, post: Jenkins.Post): (Reply, seq<Action>)
  {
    if cmd == "build darwin" then
      var job := Launchctl("start", "keybase.prerelease"); (RunAction(job, run), [job])
    else if cmd == "test darwin" then
      var job := Launchctl("start", "keybase.prerelease.test"); (RunAction(job, run), [job])
    else if cmd == "cancel darwin" then
      var job := Launchctl("stop", "keybase.prerelease"); (RunAction(job, run), [job])
    else if cmd == "build windows" then
      var (reply, calls) := Jenkins.StartBuild(a.clientCommit, a.kbfsCommit, "", post);
      (reply, JenkinsCalls(calls))
    else if cmd == "test windows" then
      var (reply, calls) := Jenkins.StartBuild(a.clientCommit, a.kbfsCommit, WindowsTestChannel, post);
      (reply, JenkinsCalls(calls))
    else if cmd == "cancel windows" then
      var (_, calls) := Jenkins.StopBuildSpec(a.queueID, post);
      (Reply("Issued stop for " + a.queueID, None), JenkinsCalls(calls))
    else if cmd == "build android" then
      var job := Launchctl("start", "keybase.android"); (RunAction(job, run), [job])
    else if cmd == "build ios" then
      var job := Launchctl("start", "keybase.ios"); (RunAction(job, run), [job])
    else if cmd == "release promote" then
      var setRelease := SetEnv("RELEASE_TO_PROMOTE", a.releaseToPromote);
      var err := RunAction(setRelease, run).err;
      if err.Some? then (Reply("", err), [setRelease])
      else
        var job := Launchctl("start", "keybase.prerelease.promotearelease");
        (RunAction(job, run), [setRelease, job])
    else (Reply(cmd, None), [])
  }

  /** `kingpinKeybotHandler` after parsing: the usage or parse error, else
      both commits are set in launchd's environment and the command is
      carried out. The reply and the actions taken, in order. */
  function KeybotHandler(p: Cli.Parsed, a: KeybotArgs, run: Runner, post: Jenkins.Post): (r: (Reply, seq<Action>))
    ensures r.1 == [] <==> p.usage != "" || p.err.Some?
    ensures r.1 != [] ==> r.1[0] == SetEnv("CLIENT_COMMIT", a.clientCommit)
  {
    if p.usage != "" || p.err.Some? then (Reply(p.usage, p.err), [])
    else
      var setClient := SetEnv("CLIENT_COMMIT", a.clientCommit);
      var clientErr := RunAction(setClient, run).err;
      if clientErr.Some? then (Reply("", clientErr), [setClient])
      else
        var setKbfs := SetEnv("KBFS_COMMIT", a.kbfsCommit);
        var kbfsErr := RunAction(setKbfs, run).err;
        if kbfsErr.Some? then (Reply("", kbfsErr), [setClient, setKbfs])
        else
          var (reply, actions) := KeybotSwitch(p.cmd, a, run, post);
          (reply, [setClient, setKbfs] + actions)
  }

  /** Nothing is done unless the arguments parsed; then the usage (or the
      error) is the whole answer. */
  lemma KeybotHandlerActsOnlyAfterParse(p: Cli.Parsed, a: KeybotArgs, run: Runner, post: Jenkins.Post)
    ensures var (reply, actions) := KeybotHandler(p, a, run, post);
      (|actions| == 0 <==> p.usage != "" || p.err.Some?) &&
      (|actions| == 0 ==> reply == Reply(p.usage, p.err))
  {
  }

  /** Both commits are set first, client before KBFS, and a failure to set
      either ends the handler with that error and nothing else done. */
  lemma CommitsSetFirst(p: Cli.Parsed, a: KeybotArgs, run: Runner, post: Jenkins.Post)
    requires p.usage == "" && p.err.None?
    ensures var (reply, actions) := KeybotHandler(p, a, run, post);
      var clientErr := run("/bin/launchctl", ["setenv", "CLIENT_COMMIT", a.clientCommit]).err;
      var kbfsErr := run("/bin/launchctl", ["setenv", "KBFS_COMMIT", a.kbfsCommit]).err;
      actions[0] == SetEnv("CLIENT_COMMIT", a.clientCommit) &&
      (clientErr.Some? ==> reply == Reply("", clientErr) && |actions| == 1) &&
      (clientErr.None? ==> |actions| >= 2 && actions[1] == SetEnv("KBFS_COMMIT", a.kbfsCommit)) &&
      (clientErr.None? && kbfsErr.Some? ==> reply == Reply("", kbfsErr) && |actions| == 2)
  {
  }

  /** The darwin, android and iOS commands each start or stop exactly one
      launchd job and answer with what `launchctl` returned; only `cancel
      darwin` stops one. */
  lemma LaunchdCommandsRunOneJob(cmd: string, a: KeybotArgs, run: Runner, post: Jenkins.Post)
    requires cmd in {"build darwin", "test darwin", "cancel darwin", "build android", "build ios"}
    ensures var (reply, actions) := KeybotSwitch(cmd, a, run, post);
      |actions| == 1 && actions[0].Exec? && actions[0].path == "/bin/launchctl" &&
      |actions[0].args| == 2 && reply == run(actions[0].path, actions[0].args) &&
      (actions[0].args[0] == "stop" <==> cmd == "cancel darwin") &&
      (cmd in {"build darwin", "cancel darwin"} ==> actions[0].args[1] == "keybase.prerelease")
  {
  }

  /** A Windows build or test build queues one Jenkins build, for the two
      commits; only the test build names an update channel. */
  lemma WindowsBuildsQueueJenkins(cmd: string, a: KeybotArgs, run: Runner, post: Jenkins.Post)
    requires cmd in {"build windows", "test windows"}
    ensures var (reply, actions) := KeybotSwitch(cmd, a, run, post);
      var channel := if cmd == "test windows" then WindowsTestChannel else "";
      |actions| >= 1 &&
      actions[0] == JenkinsCall(Jenkins.BuildWithParameters(Jenkins.StartBuildQuery(a.clientCommit, a.kbfsCommit, channel))) &&
      reply == Jenkins.StartBuild(a.clientCommit, a.kbfsCommit, channel, post).0 &&
      forall i | 0 <= i < |actions| :: actions[i].JenkinsCall?
  {
  }

  /** `cancel windows` always answers that the stop was issued, whatever
      Jenkins did, and disables the job before anything else. */
  lemma CancelWindowsAlwaysIssued(a: KeybotArgs, run: Runner, post: Jenkins.Post)
    ensures var (reply, actions) := KeybotSwitch("cancel windows", a, run, post);
      reply == Reply("Issued stop for " + a.queueID, None) &&
      actions == JenkinsCalls(Jenkins.StopBuildSpec(a.queueID, post).1) &&
      actions[0] == JenkinsCall(Jenkins.Control(false))
  {
  }

  /** Promoting a release sets `RELEASE_TO_PROMOTE` first and starts the
      promotion job only when that worked. */
  lemma PromoteSetsReleaseFirst(a: KeybotArgs, run: Runner, post: Jenkins.Post)
    ensures var (reply, actions) := KeybotSwitch("release promote", a, run, post);
      var err := run("/bin/launchctl", ["setenv", "RELEASE_TO_PROMOTE", a.releaseToPromote]).err;
      actions[0] == SetEnv("RELEASE_TO_PROMOTE", a.releaseToPromote) &&
      (err.Some? <==> |actions| == 1) &&
      (err.Some? ==> reply == Reply("", err)) &&
      (err.None? ==> actions[1] == Launchctl("start", "keybase.prerelease.promotearelease"))
  {
  }

  /** Only the three Windows commands call Jenkins. */
  lemma OnlyWindowsCallsJenkins(cmd: string, a: KeybotArgs, run: Runner, post: Jenkins.Post)
    requires cmd !in {"build windows", "test windows", "cancel windows"}
    ensures var (_, actions) := KeybotSwitch(cmd, a, run, post);
      forall i | 0 <= i < |actions| :: actions[i].Exec? && actions[i].path == "/bin/launchctl"
  {
  }

  /** A command the switch does not know is echoed back, after the commits are set. */
  lemma KeybotUnmatchedEchoed(p: Cli.Parsed, a: KeybotArgs, run: Runner, post: Jenkins.Post)
    requires p.usage == "" && p.err.None?
    requires run("/bin/launchctl", ["setenv", "CLIENT_COMMIT", a.clientCommit]).err.None?
    requires run("/bin/launchctl", ["setenv", "KBFS_COMMIT", a.kbfsCommit]).err.None?
    requires p.cmd !in {"build darwin", "test darwin", "cancel darwin", "build windows", "test windows",
                        "cancel windows", "build android", "build ios", "release promote"}
    ensures KeybotHandler(p, a, run, post) ==
      (Reply(p.cmd, None), [SetEnv("CLIENT_COMMIT", a.clientCommit), SetEnv("KBFS_COMMIT", a.kbfsCommit)])
  {
    assert KeybotSwitch(p.cmd, a, run, post) == (Reply(p.cmd, None), []);
    assert [SetEnv("CLIENT_COMMIT", a.clientCommit), SetEnv("KBFS_COMMIT", a.kbfsCommit)] + [] ==
      [SetEnv("CLIENT_COMMIT", a.clientCommit), SetEnv("KBFS_COMMIT", a.kbfsCommit)];
  }

  /** The shell command tuxbot's `build linux` runs. */
  const LinuxBuild := Exec("bash", ["-c", "systemctl --user start keybase.prerelease.service && echo 'SUCCESS'"])

  /** `kingpinTuxbotHandler` after parsing: the usage or parse error, the
      linux build's output, or the command echoed back. */
  function TuxbotHandler(p: Cli.Parsed, run: Runner): (r: (Reply, seq<Action>))
    ensures r.1 != [] <==> p.usage == "" && p.err.None? && p.cmd == "build linux"
    ensures r.1 != [] ==> r.1 == [LinuxBuild]
  {
    if p.usage != "" || p.err.Some? then (Reply(p.usage, p.err), [])
    else if p.cmd == "build linux" then (RunAction(LinuxBuild, run), [LinuxBuild])
    else (Reply(p.cmd, None), [])
  }

  /** Tuxbot's handler runs the systemd unit for `build linux` and nothing
      for anything else. */
  lemma TuxbotHandlerRunsOnlyLinuxBuild(p: Cli.Parsed, run: Runner)
    ensures var (reply, actions) := TuxbotHandler(p, run);
      (|actions| > 0 <==> p.usage == "" && p.err.None? && p.cmd == "build linux") &&
      (|actions| > 0 ==> actions == [LinuxBuild] && reply == run("bash", LinuxBuild.args)) &&
      (p.usage != "" || p.err.Some? ==> reply == Reply(p.usage, p.err)) &&
      (p.usage == "" && p.err.None? && p.cmd != "build linux" ==> reply == Reply(p.cmd, None))
  {
  }
}
