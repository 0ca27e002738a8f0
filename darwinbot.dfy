/** The macOS job command (keybot/darwinbot.go): `build darwin` becomes the
    `pull_build.sh` launchd script and `cancel` stops a launchd job. */
module Darwinbot {
  import opened Outcomes
  import opened Text
  import Strconv
  import Cli
  import Launchd
  import Keybot

  /** The values kingpin parsed for `build darwin` and `cancel`. */
  datatype DarwinFlags = DarwinFlags(test: bool, clientCommit: string, kbfsCommit: string, skipCI: bool,
                                     cancelLabel: string)

  /** The rbenv shims come last on the job's `PATH`. */
  function DarwinPath(home: string): (path: string)
    ensures HasPrefix(path, "/sbin:/usr/sbin:/bin:/usr/bin:/usr/local/bin:")
    ensures path[|"/sbin:/usr/sbin:/bin:/usr/bin:/usr/local/bin:"|..] == Launchd.JoinPath(home, ".rbenv/shims")
  {
    "/sbin:/usr/sbin:/bin:/usr/bin:/usr/local/bin:" + Launchd.JoinPath(home, ".rbenv/shims")
  }

  /** The smoke-tested darwin build script. */
  function BuildScript(f: DarwinFlags, enc: Keybot.BoolText): Launchd.Script
  {
    Launchd.Script("keybase.build.darwin", "github.com/keybase/client/packaging/prerelease/pull_build.sh",
                   Keybot.Bucket, "darwin", "",
                   [Launchd.EnvVar("SMOKE_TEST", enc.env(true)),
                    Launchd.EnvVar("TEST", enc.env(f.test)),
                    Launchd.EnvVar("CLIENT_COMMIT", f.clientCommit),
                    Launchd.EnvVar("KBFS_COMMIT", f.kbfsCommit),
                    Launchd.EnvVar("NOWAIT", enc.env(f.skipCI))])
  }

  /** `darwinbot.Run` after parsing: usage and parse errors first, then
      dry-run mode, then the command. */
  function DarwinRun(p: Cli.Parsed, f: DarwinFlags, dryRun: bool, getenv: Launchd.Getenv,
                     enc: Keybot.BoolText): (plan: Keybot.JobPlan)
    ensures !plan.Answer? ==> p.usage == "" && p.err.None? && !dryRun
  {
    if p.usage != "" || p.err.Some? then Keybot.Answer(Reply(p.usage, p.err))
    else if dryRun then Keybot.Answer(Reply("I would have run: `" + Strconv.Quote(p.cmd) + "`", None))
    else
      var home := getenv("HOME");
      var env := Launchd.NewEnv(home, DarwinPath(home), getenv);
      if p.cmd == "cancel" then Keybot.StopJob(f.cancelLabel)
      else if p.cmd == "build darwin" then Keybot.RunScript(env, BuildScript(f, enc))
      else Keybot.Answer(Reply(p.cmd, None))
  }

  /** `darwinbot.Help`: the usage of an empty command line, or the error. */
  function DarwinHelp(app: Cli.App, f: DarwinFlags, dryRun: bool, getenv: Launchd.Getenv, enc: Keybot.BoolText,
                      carryOut: Keybot.JobPlan -> Reply): string
  {
    var plan := DarwinRun(Cli.ParseSpec(app, [], "").0, f, dryRun, getenv, enc);
    Keybot.HelpText(if plan.Answer? then plan.reply else carryOut(plan))
  }

  // Properties.

  /** Only a parsed command outside dry-run mode starts or stops a job; in
      dry-run mode the quoted command is described instead. */
  lemma DarwinActsOnlyWhenLive(p: Cli.Parsed, f: DarwinFlags, dryRun: bool, getenv: Launchd.Getenv,
                               enc: Keybot.BoolText)
    ensures var plan := DarwinRun(p, f, dryRun, getenv, enc);
      (!plan.Answer? <==> p.usage == "" && p.err.None? && !dryRun && p.cmd in {"cancel", "build darwin"}) &&
      (p.usage != "" || p.err.Some? ==> plan == Keybot.Answer(Reply(p.usage, p.err))) &&
      (p.usage == "" && p.err.None? && dryRun ==>
        plan == Keybot.Answer(Reply("I would have run: `" + Strconv.Quote(p.cmd) + "`", None)))
  {
  }

  /** `build darwin` runs the prerelease `pull_build.sh` under its own label
      from the user's home, with the rbenv shims on its `PATH`: always a
      smoke test, a test build as `--test` says, of the requested commits,
      without waiting for CI as `--skip-ci` says, and with no other variable. */
  lemma DarwinBuildPlan(p: Cli.Parsed, f: DarwinFlags, getenv: Launchd.Getenv, enc: Keybot.BoolText)
    requires p.usage == "" && p.err.None? && p.cmd == "build darwin"
    ensures var plan := DarwinRun(p, f, false, getenv, enc);
      plan.RunScript? && plan.script.jobLabel == "keybase.build.darwin" &&
      plan.script.path == "github.com/keybase/client/packaging/prerelease/pull_build.sh" &&
      plan.env.home == getenv("HOME") &&
      HasSuffix(plan.env.path, Launchd.JoinPath(getenv("HOME"), ".rbenv/shims")) &&
      plan.script.envVars == [Launchd.EnvVar("SMOKE_TEST", enc.env(true)),
                              Launchd.EnvVar("TEST", enc.env(f.test)),
                              Launchd.EnvVar("CLIENT_COMMIT", f.clientCommit),
                              Launchd.EnvVar("KBFS_COMMIT", f.kbfsCommit),
                              Launchd.EnvVar("NOWAIT", enc.env(f.skipCI))]
  {
    var home := getenv("HOME");
    var path := DarwinPath(home);
    assert path[|path| - |Launchd.JoinPath(home, ".rbenv/shims")|..] == Launchd.JoinPath(home, ".rbenv/shims");
  }

  /** `cancel` stops the named job, whatever it is; other commands are echoed. */
  lemma DarwinCancelAndEcho(p: Cli.Parsed, f: DarwinFlags, getenv: Launchd.Getenv, enc: Keybot.BoolText)
    requires p.usage == "" && p.err.None? && p.cmd != "build darwin"
    ensures DarwinRun(p, f, false, getenv, enc) ==
      if p.cmd == "cancel" then Keybot.StopJob(f.cancelLabel) else Keybot.Answer(Reply(p.cmd, None))
  {
  }

  /** Help shows the usage text of the empty command line, or its error. */
  lemma DarwinHelpShowsUsage(app: Cli.App, f: DarwinFlags, dryRun: bool, getenv: Launchd.Getenv,
                             enc: Keybot.BoolText, carryOut: Keybot.JobPlan -> Reply)
    ensures var p := Cli.ParseSpec(app, [], "").0;
      (p.usage != "" ==> DarwinHelp(app, f, dryRun, getenv, enc, carryOut) == p.usage) &&
      (p.usage == "" && p.err.Some? ==>
        DarwinHelp(app, f, dryRun, getenv, enc, carryOut) == "Error getting help: " + p.err.value)
  {
  }
}
