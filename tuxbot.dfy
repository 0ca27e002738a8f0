/** The Linux build bot (tuxbot/tuxbot.go): `build linux` runs the
    `prerelease.sh` script of the bot user's home, announcing in the channel
    what it is about to do, and then reports the outcome to StatHat. */
module Tuxbot {
  import opened Outcomes
  import opened Text
  import Config
  import Cli
  import Bot
  import Launchd
  import Keybot

  /** The values kingpin parsed for `build linux`. */
  datatype LinuxFlags = LinuxFlags(skipCI: bool, nightly: bool)

  /** What the process sees of the machine: the current user's home
      directory (or why it could not be looked up), its environment, and the
      `STATHAT_EZKEY` variable. */
  datatype Host = Host(home: Result<string>, environ: seq<string>, statHatKey: string)

  /** Runs a program with an environment to completion; its error, if any. */
  type ScriptRunner = (string, seq<string>) -> Option<string>

  /** Posts a form to a URL; the error, if any. */
  type FormPoster = (string, map<string, string>) -> Option<string>

  // The prerelease script.

  /** The variables added to the script's environment, in order. */
  function Additions(skipCI: bool, nightly: bool): seq<string>
  {
    (if skipCI then ["NOWAIT=1"] else []) + (if nightly then ["KEYBASE_NIGHTLY=1"] else [])
  }

  /** `NOWAIT=1` is added exactly when CI is skipped, `KEYBASE_NIGHTLY=1`
      exactly for a nightly build, and nothing else. */
  lemma AdditionsChosen(skipCI: bool, nightly: bool)
    ensures var vars := Additions(skipCI, nightly);
      |vars| == (if skipCI then 1 else 0) + (if nightly then 1 else 0) &&
      (skipCI <==> "NOWAIT=1" in vars) &&
      (nightly <==> "KEYBASE_NIGHTLY=1" in vars)
  {
    assert "NOWAIT=1" != "KEYBASE_NIGHTLY=1";
  }

  /** The messages sent while the build is prepared: the start, then one
      announcement per added variable. */
  function Announcements(skipCI: bool, nightly: bool): seq<string>
  {
    ["building linux!!!"] +
    (if skipCI then ["--- with NOWAIT=1"] else []) +
    (if nightly then ["--- with KEYBASE_NIGHTLY=1"] else [])
  }

  /** Every variable added to the script's environment is announced, in the
      order it is added, after the start message. */
  lemma AnnouncementsMatchEnv(skipCI: bool, nightly: bool)
    ensures var vars := Additions(skipCI, nightly);
      var msgs := Announcements(skipCI, nightly);
      |msgs| == 1 + |vars| && msgs[0] == "building linux!!!" &&
      forall i | 0 <= i < |vars| :: msgs[i + 1] == "--- with " + vars[i]
  {
    AnnouncedAs("NOWAIT=1", "--- with NOWAIT=1");
    AnnouncedAs("KEYBASE_NIGHTLY=1", "--- with KEYBASE_NIGHTLY=1");
  }

  lemma AnnouncedAs(v: string, msg: string)
    requires |msg| == 9 + |v| && msg[..9] == "--- with " && msg[9..] == v
    ensures msg == "--- with " + v
  {
    assert msg == msg[..9] + msg[9..];
  }

  function ScriptPath(home: string): string
  {
    Launchd.JoinPath(home, "slackbot/systemd/prerelease.sh")
  }

  /** `linuxBuildFunc`'s reply: the user lookup error, else the script's outcome. */
  function LinuxBuildReply(host: Host, f: LinuxFlags, run: ScriptRunner): (r: Reply)
    ensures host.home.Err? ==> r == Reply("", Some(host.home.msg))
    ensures host.home.Ok? ==> var err := run(ScriptPath(host.home.value), host.environ + Additions(f.skipCI, f.nightly));
      r == Reply(if err.Some? then "FAILURE" else "SUCCESS", err)
  {
    match host.home
    case Err(m) => Reply("", Some(m))
    case Ok(home) =>
      var err := run(ScriptPath(home), host.environ + Additions(f.skipCI, f.nightly));
      if err.Some? then Reply("FAILURE", err) else Reply("SUCCESS", None)
  }

  /** The messages `linuxBuildFunc` sends: none when the user is unknown. */
  function LinuxBuildMessages(host: Host, f: LinuxFlags): seq<string>
  {
    if host.home.Err? then [] else Announcements(f.skipCI, f.nightly)
  }

  // StatHat.

  const StatHatURL := "https://api.stathat.com/ez"

  /** `postStathat`: counts `count` under `key`, unless no key is configured. */
  function PostStatHat(key: string, count: string, ezkey: string, post: FormPoster): (err: Option<string>)
    ensures ezkey == "" ==> err == Some("no stathat key")
    ensures ezkey != "" ==> err == post(StatHatURL, map["ezkey" := ezkey, "stat" := key, "count" := count])
  {
    if ezkey == "" then Some("no stathat key")
    else post(StatHatURL, map["ezkey" := ezkey, "stat" := key, "count" := count])
  }

  /** The StatHat stat a build's outcome is counted under. */
  function OutcomeStat(buildErr: Option<string>): string
  {
    if buildErr.None? then "tuxbot - nightly - success" else "tuxbot - nightly - failure"
  }

  /** The build's reply once its outcome is counted: unchanged, unless the
      count failed, in which case both errors are reported. */
  function WithStatHat(build: Reply, statErr: Option<string>): Reply
  {
    if statErr.Some? then
      Reply("stathat error. original message: " + build.out,
            Some("stathat error: " + statErr.value + ". original error: " + ErrorText(build.err)))
    else build
  }

  // Run.

  const DryRunText := "Dry Run: Doing that would run `prerelease.sh`"
  const DryRunSkipCIText := "Dry Run: Doing that would run `prerelease.sh` with NOWAIT=1 set"
  const PausedText := "I'm paused so I can't do that, but I would have run `prerelease.sh`"

  /** Whether `tuxbot.Run` goes as far as building. */
  predicate Builds(p: Cli.Parsed, config: Config.Config)
  {
    p.usage == "" && p.err.None? && p.cmd == "build linux" && !config.dryRun && !config.paused
  }

  /** `tuxbot.Run`'s reply after parsing. */
  function RunReply(p: Cli.Parsed, config: Config.Config, f: LinuxFlags, host: Host,
                    run: ScriptRunner, post: FormPoster): Reply
  {
    if p.usage != "" || p.err.Some? then Reply(p.usage, p.err)
    else if p.cmd != "build linux" then Reply(p.cmd, None)
    else if config.dryRun then Reply(if f.skipCI then DryRunSkipCIText else DryRunText, None)
    else if config.paused then Reply(PausedText, None)
    else
      var build := LinuxBuildReply(host, f, run);
      WithStatHat(build, PostStatHat(OutcomeStat(build.err), "1", host.statHatKey, post))
  }

  /** The messages `tuxbot.Run` sends. */
  function RunMessages(p: Cli.Parsed, config: Config.Config, f: LinuxFlags, host: Host): seq<string>
  {
    if Builds(p, config) then LinuxBuildMessages(host, f) else []
  }

  /** Messages sent to one channel, as they appear in the bot's log. */
  function Sent(texts: seq<string>, cid: string): (events: seq<Bot.BotEvent>)
    ensures |events| == |texts|
    ensures forall i | 0 <= i < |texts| :: events[i] == Bot.Sent(texts[i], cid)
  {
    if |texts| == 0 then [] else [Bot.Sent(texts[0], cid)] + Sent(texts[1..], cid)
  }

  lemma SentAppend(a: seq<string>, b: seq<string>, cid: string)
    ensures Sent(a + b, cid) == Sent(a, cid) + Sent(b, cid)
  {
  }

  /** Sending one more announcement extends the log by its event. */
  lemma SendAnnounced(log: seq<Bot.BotEvent>, sent: seq<string>, text: string, cid: string)
    ensures log + Sent(sent, cid) + [Bot.Sent(text, cid)] == log + Sent(sent + [text], cid)
  {
    SentAppend(sent, [text], cid);
  }

  /** The nightly variable goes after the CI switch. */
  lemma AdditionsSteps(environ: seq<string>, skipCI: bool, nightly: bool)
    ensures environ + Additions(skipCI, nightly) ==
      if nightly then environ + Additions(skipCI, false) + ["KEYBASE_NIGHTLY=1"] else environ + Additions(skipCI, false)
  {
  }

  /** `tuxbot.Help`: the usage of an empty command line, or the error. */
  function TuxbotHelp(app: Cli.App, config: Config.Config, f: LinuxFlags, host: Host,
                      run: ScriptRunner, post: FormPoster): string
  {
    Keybot.HelpText(RunReply(Cli.ParseSpec(app, [], "").0, config, f, host, run, post))
  }

  /** The tuxbot extension, which sends its messages through its bot. */
  class Tuxbot {
    const bot: Bot.Bot

    constructor (bot: Bot.Bot)
      ensures this.bot == bot
    {
      this.bot := bot;
    }

    /** `linuxBuildFunc`: announces the build and each added variable, runs
        the script with the process's environment plus those variables, and
        answers `SUCCESS` or `FAILURE` with the script's error. */
    method LinuxBuild(channel: string, f: LinuxFlags, host: Host, run: ScriptRunner) returns (r: Reply)
      modifies bot`log
      ensures r == LinuxBuildReply(host, f, run)
      ensures bot.log == old(bot.log) + Sent(LinuxBuildMessages(host, f), Bot.ResolveChannel(bot.channelIDs, channel))
    {
      ghost var cid := Bot.ResolveChannel(bot.channelIDs, channel);
      if host.home.Err? {
        return Reply("", Some(host.home.msg));
      }
      bot.SendMessage("building linux!!!", channel);
      var path := ScriptPath(host.home.value);
      var env := host.environ;
      ghost var sent := ["building linux!!!"];
      assert bot.log == old(bot.log) + Sent(sent, cid);
      if f.skipCI {
        env := env + ["NOWAIT=1"];
        SendAnnounced(bot.log, sent, "--- with NOWAIT=1", cid);
        bot.SendMessage("--- with NOWAIT=1", channel);
        sent := sent + ["--- with NOWAIT=1"];
      }
      assert env == host.environ + Additions(f.skipCI, false);
      if f.nightly {
        env := env + ["KEYBASE_NIGHTLY=1"];
        SendAnnounced(bot.log, sent, "--- with KEYBASE_NIGHTLY=1", cid);
        bot.SendMessage("--- with KEYBASE_NIGHTLY=1", channel);
        sent := sent + ["--- with KEYBASE_NIGHTLY=1"];
      }
      assert sent == Announcements(f.skipCI, f.nightly);
      AdditionsSteps(host.environ, f.skipCI, f.nightly);
      var err := run(path, env);
      if err.Some? {
        return Reply("FAILURE", err);
      }
      return Reply("SUCCESS", None);
    }

    /** `tuxbot.Run` after parsing: usage and parse errors first; `build
        linux` is only described in dry-run mode and refused while paused;
        otherwise the build runs and its outcome is counted. */
    method Run(p: Cli.Parsed, channel: string, config: Config.Config, f: LinuxFlags, host: Host,
               run: ScriptRunner, post: FormPoster) returns (r: Reply)
      modifies bot`log
      ensures r == RunReply(p, config, f, host, run, post)
      ensures bot.log == old(bot.log) + Sent(RunMessages(p, config, f, host), Bot.ResolveChannel(bot.channelIDs, channel))
    {
      if p.usage != "" || p.err.Some? {
        return Reply(p.usage, p.err);
      }
      if p.cmd == "build linux" {
        if config.dryRun {
          if f.skipCI {
            return Reply(DryRunSkipCIText, None);
          }
          return Reply(DryRunText, None);
        }
        if config.paused {
          return Reply(PausedText, None);
        }
        var ret := LinuxBuild(channel, f, host, run);
        var statErr: Option<string>;
        if ret.err.None? {
          statErr := PostStatHat("tuxbot - nightly - success", "1", host.statHatKey, post);
        } else {
          statErr := PostStatHat("tuxbot - nightly - failure", "1", host.statHatKey, post);
        }
        if statErr.Some? {
          return Reply("stathat error. original message: " + ret.out,
                       Some("stathat error: " + statErr.value + ". original error: " + ErrorText(ret.err)));
        }
        return ret;
      }
      return Reply(p.cmd, None);
    }
  }

  // Properties.

  /** Nothing is built and nothing is said in dry-run mode or while paused;
      dry-run mode wins, and its answer says whether CI would be skipped. */
  lemma DryRunAndPauseBuildNothing(p: Cli.Parsed, config: Config.Config, f: LinuxFlags, host: Host,
                                   run: ScriptRunner, post: FormPoster)
    requires p.usage == "" && p.err.None? && p.cmd == "build linux"
    requires config.dryRun || config.paused
    ensures RunMessages(p, config, f, host) == []
    ensures config.dryRun ==>
      RunReply(p, config, f, host, run, post) == Reply(if f.skipCI then DryRunSkipCIText else DryRunText, None)
    ensures !config.dryRun ==> RunReply(p, config, f, host, run, post) == Reply(PausedText, None)
  {
  }

  /** A build is counted as a success exactly when the script succeeded, and
      the reply is the build's own unless counting failed; then both errors
      are kept. */
  lemma BuildOutcomeCounted(p: Cli.Parsed, config: Config.Config, f: LinuxFlags, host: Host,
                            run: ScriptRunner, post: FormPoster)
    requires Builds(p, config)
    ensures var build := LinuxBuildReply(host, f, run);
      var statErr := PostStatHat(OutcomeStat(build.err), "1", host.statHatKey, post);
      var r := RunReply(p, config, f, host, run, post);
      (OutcomeStat(build.err) == "tuxbot - nightly - success" <==> build.err.None?) &&
      (statErr.None? ==> r == build) &&
      (statErr.Some? ==> r.out == "stathat error. original message: " + build.out && r.err.Some? &&
                         HasPrefix(r.err.value, "stathat error: " + statErr.value) &&
                         HasSuffix(r.err.value, ErrorText(build.err)))
  {
    var build := LinuxBuildReply(host, f, run);
    var statErr := PostStatHat(OutcomeStat(build.err), "1", host.statHatKey, post);
    if statErr.Some? {
      var e := "stathat error: " + statErr.value + ". original error: " + ErrorText(build.err);
      assert e[..|"stathat error: " + statErr.value|] == "stathat error: " + statErr.value;
      assert e[|e| - |ErrorText(build.err)|..] == ErrorText(build.err);
    }
  }

  /** Without a StatHat key every build reports the counting error, even a
      successful one. */
  lemma MissingStatHatKeyAlwaysFails(p: Cli.Parsed, config: Config.Config, f: LinuxFlags, host: Host,
                                     run: ScriptRunner, post: FormPoster)
    requires Builds(p, config) && host.statHatKey == ""
    ensures var r := RunReply(p, config, f, host, run, post);
      r.err.Some? && HasPrefix(r.err.value, "stathat error: no stathat key")
  {
    var build := LinuxBuildReply(host, f, run);
    var statErr := PostStatHat(OutcomeStat(build.err), "1", host.statHatKey, post);
    assert statErr == Some("no stathat key");
    assert RunReply(p, config, f, host, run, post) == WithStatHat(build, statErr);
    StatHatErrorFirst(build, "no stathat key");
  }

  /** A failed count reports the count's error first. */
  lemma StatHatErrorFirst(build: Reply, m: string)
    ensures var r := WithStatHat(build, Some(m));
      r.err.Some? && HasPrefix(r.err.value, "stathat error: " + m)
  {
    var e := "stathat error: " + m + ". original error: " + ErrorText(build.err);
    assert e[..|"stathat error: " + m|] == "stathat error: " + m;
  }

  /** The script runs from the bot user's home with every added variable
      after the process's own environment; an unknown user stops the build
      before anything is sent or run. */
  lemma LinuxBuildUsesHome(host: Host, f: LinuxFlags, run: ScriptRunner)
    ensures host.home.Err? <==> LinuxBuildMessages(host, f) == []
    ensures host.home.Ok? ==>
      var err := run(ScriptPath(host.home.value), host.environ + Additions(f.skipCI, f.nightly));
      (LinuxBuildReply(host, f, run).err == err) &&
      (LinuxBuildReply(host, f, run).out == "SUCCESS" <==> err.None?)
  {
  }

  /** Commands other than `build linux` are echoed back without a word sent. */
  lemma TuxbotUnmatchedEchoed(p: Cli.Parsed, config: Config.Config, f: LinuxFlags, host: Host,
                              run: ScriptRunner, post: FormPoster)
    requires p.usage == "" && p.err.None? && p.cmd != "build linux"
    ensures RunReply(p, config, f, host, run, post) == Reply(p.cmd, None)
    ensures RunMessages(p, config, f, host) == []
  {
  }

  /** Help shows the usage text of the empty command line, or its error. */
  lemma TuxbotHelpShowsUsage(app: Cli.App, config: Config.Config, f: LinuxFlags, host: Host,
                             run: ScriptRunner, post: FormPoster)
    ensures var p := Cli.ParseSpec(app, [], "").0;
      (p.usage != "" ==> TuxbotHelp(app, config, f, host, run, post) == p.usage) &&
      (p.usage == "" && p.err.Some? ==>
        TuxbotHelp(app, config, f, host, run, post) == "Error getting help: " + p.err.value)
  {
  }
}
