/** The keybot job command (keybot/keybot.go): after the command line is
    parsed, each subcommand becomes a launchd script with its environment,
    a request to stop a launchd job, or a direct answer. Running the script
    and stopping the job happen outside the model; the result here is the
    plan the bot hands to them. */
module Keybot {
  import opened Outcomes
  import opened Text
  import Strconv
  import Cli
  import Launchd

  /** How a flag is written into a script's environment (`boolToEnvString`)
      and into a plain value (`boolToString`); both are defined outside the
      modelled files. */
  datatype BoolText = BoolText(env: bool -> string, plain: bool -> string)

  /** What a bot command decides to do. */
  datatype JobPlan =
    | Answer(reply: Reply)
    | StopJob(jobLabel: string)
    | RunScript(env: Launchd.Env, script: Launchd.Script)
    | Crash(reason: string)

  /** The values kingpin parsed for every flag and argument of the keybot
      command line; each subcommand reads only its own. */
  datatype KeybotFlags = KeybotFlags(
    cancelLabel: string,
    mobileSkipCI: bool, mobileAutomated: bool, mobileClientCommit: string,
    androidSkipCI: bool, androidAutomated: bool, androidClientCommit: string,
    iosClean: bool, iosSkipCI: bool, iosAutomated: bool, iosClientCommit: string,
    darwinTest: bool, darwinClientCommit: string, darwinKbfsCommit: string, darwinNoPull: bool,
    darwinSkipCI: bool, darwinSmoke: bool, darwinNoS3: bool, darwinNoNotarize: bool,
    promotePlatform: string, releaseToPromote: string, promoteDryRun: bool,
    brokenVersion: string,
    smoketestBuildA: string, smoketestPlatform: string, smoketestEnable: bool, smoketestMaxTesters: int,
    dumplogLabel: string,
    gitDiffRepo: string,
    upgradeName: string)

  const JavaHome := "/Library/Java/JavaVirtualMachines/zulu-17.jdk/Contents/Home"
  const KeybotPath := JavaHome + "/bin:" + "/sbin:/usr/sbin:/bin:/usr/local/bin:/usr/bin:/opt/homebrew/bin"
  const AndroidHome := "/usr/local/opt/android-sdk"
  const NdkVersion := "23.1.7779620"
  const NdkPath := "/Users/build/Library/Android/sdk/ndk/" + NdkVersion
  const Bucket := "prerelease.keybase.io"
  const LabelRequired := "Label required for cancel"

  /** A script with no log path set. */
  function Job(jobLabel: string, path: string, bucket: string, platform: string,
               vars: seq<Launchd.EnvVar>): Launchd.Script
  {
    Launchd.Script(jobLabel, path, bucket, platform, "", vars)
  }

  /** `build darwin`: a custom commit turns the build into a test build
      unless `--smoke` asks for a smoke-test pair. */
  function DarwinScript(f: KeybotFlags, enc: BoolText): Launchd.Script
  {
    var custom := f.darwinClientCommit != "" || f.darwinKbfsCommit != "";
    var smokeTest := if custom then f.darwinSmoke else true;
    var testBuild := if custom then !f.darwinSmoke else f.darwinTest;
    Job("keybase.build.darwin", "github.com/keybase/client/packaging/build_darwin.sh", Bucket, "darwin",
        [Launchd.EnvVar("SMOKE_TEST", enc.env(smokeTest)),
         Launchd.EnvVar("TEST", enc.env(testBuild)),
         Launchd.EnvVar("CLIENT_COMMIT", f.darwinClientCommit),
         Launchd.EnvVar("KBFS_COMMIT", f.darwinKbfsCommit),
         Launchd.EnvVar("NOWAIT", enc.env(f.darwinSkipCI)),
         Launchd.EnvVar("NOPULL", enc.env(f.darwinNoPull)),
         Launchd.EnvVar("NOS3", enc.env(f.darwinNoS3)),
         Launchd.EnvVar("NONOTARIZE", enc.env(f.darwinNoNotarize))])
  }

  function MobileScript(f: KeybotFlags, enc: BoolText): Launchd.Script
  {
    Job("keybase.build.mobile", "github.com/keybase/client/packaging/build_mobile.sh", Bucket, "",
        [Launchd.EnvVar("ANDROID_HOME", AndroidHome),
         Launchd.EnvVar("ANDROID_SDK", AndroidHome),
         Launchd.EnvVar("ANDROID_SDK_ROOT", AndroidHome),
         Launchd.EnvVar("ANDROID_NDK_HOME", NdkPath),
         Launchd.EnvVar("NDK_HOME", NdkPath),
         Launchd.EnvVar("ANDROID_NDK", NdkPath),
         Launchd.EnvVar("CLIENT_COMMIT", f.mobileClientCommit),
         Launchd.EnvVar("CHECK_CI", enc.env(!f.mobileSkipCI)),
         Launchd.EnvVar("AUTOMATED_BUILD", enc.env(f.mobileAutomated))])
  }

  function AndroidScript(f: KeybotFlags, enc: BoolText): Launchd.Script
  {
    Job("keybase.build.android", "github.com/keybase/client/packaging/android/build_and_publish.sh", Bucket, "",
        [Launchd.EnvVar("ANDROID_HOME", AndroidHome),
         Launchd.EnvVar("ANDROID_NDK_HOME", NdkPath),
         Launchd.EnvVar("ANDROID_NDK", NdkPath),
         Launchd.EnvVar("CLIENT_COMMIT", f.androidClientCommit),
         Launchd.EnvVar("CHECK_CI", enc.env(!f.androidSkipCI)),
         Launchd.EnvVar("AUTOMATED_BUILD", enc.env(f.androidAutomated))])
  }

  function IOSScript(f: KeybotFlags, enc: BoolText): Launchd.Script
  {
    Job("keybase.build.ios", "github.com/keybase/client/packaging/ios/build_and_publish.sh", Bucket, "",
        [Launchd.EnvVar("CLIENT_COMMIT", f.iosClientCommit),
         Launchd.EnvVar("CLEAN", enc.env(f.iosClean)),
         Launchd.EnvVar("CHECK_CI", enc.env(!f.iosSkipCI)),
         Launchd.EnvVar("AUTOMATED_BUILD", enc.env(f.iosAutomated))])
  }

  function PromoteScript(f: KeybotFlags, enc: BoolText): Launchd.Script
  {
    Job("keybase.release.promote", "github.com/keybase/slackbot/scripts/release.promote.sh", Bucket, f.promotePlatform,
        [Launchd.EnvVar("RELEASE_TO_PROMOTE", f.releaseToPromote),
         Launchd.EnvVar("DRY_RUN", enc.plain(f.promoteDryRun))])
  }

  function DumplogScript(readPath: string, enc: BoolText): Launchd.Script
  {
    Job("keybase.dumplog", "github.com/keybase/slackbot/scripts/dumplog.sh", Bucket, "",
        [Launchd.EnvVar("READ_PATH", readPath),
         Launchd.EnvVar("NOLOG", enc.env(true))])
  }

  const RunAndSendStdout := "github.com/keybase/slackbot/scripts/run_and_send_stdout.sh"

  function GitDiffScript(repo: string, enc: BoolText): Launchd.Script
  {
    Job("keybase.gitdiff", RunAndSendStdout, Bucket, "",
        [Launchd.EnvVar("REPO", repo),
         Launchd.EnvVar("PREFIX_GOPATH", enc.env(true)),
         Launchd.EnvVar("SCRIPT_TO_RUN", "./git_diff.sh")])
  }

  function SmoketestScript(f: KeybotFlags, enc: BoolText): Launchd.Script
  {
    Job("keybase.smoketest", "github.com/keybase/slackbot/scripts/smoketest.sh", Bucket, f.smoketestPlatform,
        [Launchd.EnvVar("SMOKETEST_BUILD_A", f.smoketestBuildA),
         Launchd.EnvVar("SMOKETEST_MAX_TESTERS", Strconv.IntToString(f.smoketestMaxTesters)),
         Launchd.EnvVar("SMOKETEST_ENABLE", enc.plain(f.smoketestEnable))])
  }

  const LinkCutset: set<char> := {'`', '<', '>'}

  /** `gdiff`'s repository: the part after the first `|` of a Slack link
      such as `<url|name>`, once the quoting characters are trimmed. Text
      without `|` has no such part, and indexing it panics in Go. */
  function GitDiffRepo(raw: string): (r: Result<string>)
    ensures r.Err? <==> '|' !in Trim(raw, LinkCutset)
    ensures var parts := Split(Trim(raw, LinkCutset), '|'); r.Ok? ==> |parts| > 1 && r.value == parts[1]
  {
    var parts := Split(Trim(raw, LinkCutset), '|');
    SplitHasSecond(Trim(raw, LinkCutset), '|');
    if |parts| < 2 then Err("index out of range [1] with length 1") else Ok(parts[1])
  }

  /** `keybot.Run` after parsing: usage text and parse errors go back
      unchanged; otherwise the subcommand chooses the plan. The mobile,
      Android and iOS builds run from their own Go path below the home
      directory; every later subcommand is chosen by `ScriptPlan`. */
  function KeybotRun(p: Cli.Parsed, f: KeybotFlags, getenv: Launchd.Getenv, enc: BoolText): (plan: JobPlan)
  {
    if p.usage != "" || p.err.Some? then Answer(Reply(p.usage, p.err))
    else
      var home := getenv("HOME");
      var env := Launchd.NewEnv(home, KeybotPath, getenv);
      var cmd := p.cmd;
      if cmd == "cancel" then
        if f.cancelLabel == "" then Answer(Reply(LabelRequired, Some(LabelRequired)))
        else StopJob(f.cancelLabel)
      else if cmd == "build darwin" then RunScript(env, DarwinScript(f, enc))
      else if cmd == "build mobile" then
        RunScript(env.(goPath := Launchd.PathFromHome(home, "go-ios")), MobileScript(f, enc))
      else if cmd == "build android" then
        RunScript(env.(goPath := Launchd.PathFromHome(home, "go-android")), AndroidScript(f, enc))
      else if cmd == "build ios" then
        RunScript(env.(goPath := Launchd.PathFromHome(home, "go-ios")), IOSScript(f, enc))
      else ScriptPlan(cmd, env, f, enc)
  }

  /** The subcommands after the builds, in the order the source tests them:
      each runs its script in the process's own environment, refuses its
      input, or (for an unknown subcommand) echoes it back. */
  function ScriptPlan(cmd: string, env: Launchd.Env, f: KeybotFlags, enc: BoolText): (plan: JobPlan)
    ensures plan.RunScript? ==> plan.env == env
    ensures cmd !in LaterCommands ==> plan == Answer(Reply(cmd, None))
  {
    if cmd == "release promote" then RunScript(env, PromoteScript(f, enc))
    else if cmd == "dumplog" then
      match Launchd.LogPathForLaunchdLabel(env, f.dumplogLabel)
      case Err(m) => Answer(Reply("", Some(m)))
      case Ok(readPath) => RunScript(env, DumplogScript(readPath, enc))
    else if cmd == "gdiff" then
      match GitDiffRepo(f.gitDiffRepo)
      case Err(m) => Crash(m)
      case Ok(repo) => RunScript(env, GitDiffScript(repo, enc))
    else if cmd == "gclean" then
      RunScript(env, Job("keybase.gitclean", RunAndSendStdout, Bucket, "",
                         [Launchd.EnvVar("SCRIPT_TO_RUN", "./git_clean.sh")]))
    else if cmd == "nodeModuleClean" then
      RunScript(env, Job("keybase.nodeModuleClean", RunAndSendStdout, Bucket, "",
                         [Launchd.EnvVar("SCRIPT_TO_RUN", "./node_module_clean.sh")]))
    else if cmd == "release broken" then
      RunScript(env, Job("keybase.release.broken", "github.com/keybase/slackbot/scripts/release.broken.sh",
                         Bucket, "darwin", [Launchd.EnvVar("BROKEN_RELEASE", f.brokenVersion)]))
    else if cmd == "smoketest" then RunScript(env, SmoketestScript(f, enc))
    else if cmd == "upgrade" then
      RunScript(env, Job("keybase.update", "github.com/keybase/slackbot/scripts/upgrade.sh", "", "",
                         [Launchd.EnvVar("NAME", f.upgradeName)]))
    else Answer(Reply(cmd, None))
  }

  /** The subcommands `ScriptPlan` knows. */
  const LaterCommands: set<string> := {"release promote", "dumplog", "gdiff", "gclean", "nodeModuleClean",
    "release broken", "smoketest", "upgrade"}

  /** The subcommands keybot knows. */
  const KeybotCommands: set<string> := {"cancel", "build darwin", "build mobile", "build android",
    "build ios", "release promote", "dumplog", "gdiff", "gclean", "nodeModuleClean",
    "release broken", "smoketest", "upgrade"}

  /** `Help`: the text of a run without arguments, or the error it gave. */
  function HelpText(run: Reply): (text: string)
    ensures run.err.None? ==> text == run.out
    ensures run.err.Some? ==> HasPrefix(text, "Error getting help: ") && HasSuffix(text, run.err.value)
  {
    if run.err.Some? then
      var text := "Error getting help: " + run.err.value;
      assert text[|text| - |run.err.value|..] == run.err.value;
      text
    else run.out
  }

  /** What a bot's `Help` shows, given how a plan is carried out. */
  function KeybotHelp(app: Cli.App, f: KeybotFlags, getenv: Launchd.Getenv, enc: BoolText,
                      carryOut: JobPlan -> Reply): string
  {
    var plan := KeybotRun(Cli.ParseSpec(app, [], "").0, f, getenv, enc);
    HelpText(if plan.Answer? then plan.reply else carryOut(plan))
  }

  // Properties of keybot.Run.

  /** A usage text or a parse error is the whole answer: nothing is planned. */
  lemma UsageComesFirst(p: Cli.Parsed, f: KeybotFlags, getenv: Launchd.Getenv, enc: BoolText)
    requires p.usage != "" || p.err.Some?
    ensures KeybotRun(p, f, getenv, enc) == Answer(Reply(p.usage, p.err))
  {
  }

  /** `cancel` needs a label: without one it answers with the same text as
      output and error; with one it stops that job. */
  lemma CancelNeedsLabel(p: Cli.Parsed, f: KeybotFlags, getenv: Launchd.Getenv, enc: BoolText)
    requires p.usage == "" && p.err.None? && p.cmd == "cancel"
    ensures f.cancelLabel == "" ==> KeybotRun(p, f, getenv, enc) == Answer(Reply(LabelRequired, Some(LabelRequired)))
    ensures f.cancelLabel != "" ==> KeybotRun(p, f, getenv, enc) == StopJob(f.cancelLabel)
  {
  }

  /** `build darwin` smoke-tests by default with `TEST` from `--test`; a
      custom commit makes `--smoke` choose between a smoke pair and a test build. */
  lemma DarwinSmokeAndTest(p: Cli.Parsed, f: KeybotFlags, getenv: Launchd.Getenv, enc: BoolText)
    requires p.usage == "" && p.err.None? && p.cmd == "build darwin"
    ensures var plan := KeybotRun(p, f, getenv, enc);
      var custom := f.darwinClientCommit != "" || f.darwinKbfsCommit != "";
      plan.RunScript? && plan.script.jobLabel == "keybase.build.darwin" &&
      plan.script.envVars[0] == Launchd.EnvVar("SMOKE_TEST", enc.env(if custom then f.darwinSmoke else true)) &&
      plan.script.envVars[1] == Launchd.EnvVar("TEST", enc.env(if custom then !f.darwinSmoke else f.darwinTest)) &&
      plan.script.envVars[2] == Launchd.EnvVar("CLIENT_COMMIT", f.darwinClientCommit) &&
      plan.script.envVars[3] == Launchd.EnvVar("KBFS_COMMIT", f.darwinKbfsCommit)
  {
    DarwinPlan(p, f, getenv, enc);
    DarwinScriptVars(f, enc);
  }

  lemma DarwinPlan(p: Cli.Parsed, f: KeybotFlags, getenv: Launchd.Getenv, enc: BoolText)
    requires p.usage == "" && p.err.None? && p.cmd == "build darwin"
    ensures KeybotRun(p, f, getenv, enc) == RunScript(Launchd.NewEnv(getenv("HOME"), KeybotPath, getenv), DarwinScript(f, enc))
  {
  }

  lemma DarwinScriptVars(f: KeybotFlags, enc: BoolText)
    ensures var custom := f.darwinClientCommit != "" || f.darwinKbfsCommit != "";
      var s := DarwinScript(f, enc);
      s.jobLabel == "keybase.build.darwin" && |s.envVars| == 8 &&
      s.envVars[0] == Launchd.EnvVar("SMOKE_TEST", enc.env(if custom then f.darwinSmoke else true)) &&
      s.envVars[1] == Launchd.EnvVar("TEST", enc.env(if custom then !f.darwinSmoke else f.darwinTest)) &&
      s.envVars[2] == Launchd.EnvVar("CLIENT_COMMIT", f.darwinClientCommit) &&
      s.envVars[3] == Launchd.EnvVar("KBFS_COMMIT", f.darwinKbfsCommit)
  {
  }

  lemma MobilePlan(p: Cli.Parsed, f: KeybotFlags, getenv: Launchd.Getenv, enc: BoolText)
    requires p.usage == "" && p.err.None? && p.cmd == "build mobile"
    ensures var home := getenv("HOME");
      KeybotRun(p, f, getenv, enc) ==
        RunScript(Launchd.NewEnv(home, KeybotPath, getenv).(goPath := Launchd.JoinPath(home, "go-ios")), MobileScript(f, enc))
  {
    assert p.cmd[6] != "build darwin"[6];
  }

  lemma AndroidPlan(p: Cli.Parsed, f: KeybotFlags, getenv: Launchd.Getenv, enc: BoolText)
    requires p.usage == "" && p.err.None? && p.cmd == "build android"
    ensures var home := getenv("HOME");
      KeybotRun(p, f, getenv, enc) ==
        RunScript(Launchd.NewEnv(home, KeybotPath, getenv).(goPath := Launchd.JoinPath(home, "go-android")), AndroidScript(f, enc))
  {
  }

  lemma IOSPlan(p: Cli.Parsed, f: KeybotFlags, getenv: Launchd.Getenv, enc: BoolText)
    requires p.usage == "" && p.err.None? && p.cmd == "build ios"
    ensures var home := getenv("HOME");
      KeybotRun(p, f, getenv, enc) ==
        RunScript(Launchd.NewEnv(home, KeybotPath, getenv).(goPath := Launchd.JoinPath(home, "go-ios")), IOSScript(f, enc))
  {
  }

  /** Every subcommand after the builds is chosen by `ScriptPlan` in the process's environment. */
  lemma LaterPlan(p: Cli.Parsed, f: KeybotFlags, getenv: Launchd.Getenv, enc: BoolText)
    requires p.usage == "" && p.err.None?
    requires p.cmd !in {"cancel", "build darwin", "build mobile", "build android", "build ios"}
    ensures KeybotRun(p, f, getenv, enc) == ScriptPlan(p.cmd, Launchd.NewEnv(getenv("HOME"), KeybotPath, getenv), f, enc)
  {
  }

  /** The mobile build checks CI unless told to skip it, and builds from
      `~/go-ios`. */
  lemma MobileBuild(p: Cli.Parsed, f: KeybotFlags, getenv: Launchd.Getenv, enc: BoolText)
    requires p.usage == "" && p.err.None? && p.cmd == "build mobile"
    ensures var plan := KeybotRun(p, f, getenv, enc);
      plan.RunScript? && Launchd.EnvVar("CHECK_CI", enc.env(!f.mobileSkipCI)) in plan.script.envVars &&
      plan.env.goPath == Launchd.JoinPath(getenv("HOME"), "go-ios")
  {
    MobilePlan(p, f, getenv, enc);
    assert MobileScript(f, enc).envVars[7] == Launchd.EnvVar("CHECK_CI", enc.env(!f.mobileSkipCI));
  }

  /** The Android build checks CI unless told to skip it, and builds from
      `~/go-android`. */
  lemma AndroidBuild(p: Cli.Parsed, f: KeybotFlags, getenv: Launchd.Getenv, enc: BoolText)
    requires p.usage == "" && p.err.None? && p.cmd == "build android"
    ensures var plan := KeybotRun(p, f, getenv, enc);
      plan.RunScript? && Launchd.EnvVar("CHECK_CI", enc.env(!f.androidSkipCI)) in plan.script.envVars &&
      plan.env.goPath == Launchd.JoinPath(getenv("HOME"), "go-android")
  {
    AndroidPlan(p, f, getenv, enc);
    assert AndroidScript(f, enc).envVars[4] == Launchd.EnvVar("CHECK_CI", enc.env(!f.androidSkipCI));
  }

  /** The iOS build checks CI unless told to skip it, and builds from `~/go-ios`. */
  lemma IOSBuild(p: Cli.Parsed, f: KeybotFlags, getenv: Launchd.Getenv, enc: BoolText)
    requires p.usage == "" && p.err.None? && p.cmd == "build ios"
    ensures var plan := KeybotRun(p, f, getenv, enc);
      plan.RunScript? && Launchd.EnvVar("CHECK_CI", enc.env(!f.iosSkipCI)) in plan.script.envVars &&
      plan.env.goPath == Launchd.JoinPath(getenv("HOME"), "go-ios")
  {
    IOSPlan(p, f, getenv, enc);
    assert IOSScript(f, enc).envVars[2] == Launchd.EnvVar("CHECK_CI", enc.env(!f.iosSkipCI));
  }

  /** Every other script keeps the GOPATH of the process environment. */
  lemma OtherScriptsKeepGoPath(p: Cli.Parsed, f: KeybotFlags, getenv: Launchd.Getenv, enc: BoolText)
    requires p.usage == "" && p.err.None?
    requires p.cmd !in {"build mobile", "build android", "build ios"}
    ensures var plan := KeybotRun(p, f, getenv, enc);
      plan.RunScript? ==> plan.env == Launchd.NewEnv(getenv("HOME"), KeybotPath, getenv)
  {
    if p.cmd == "build darwin" {
      DarwinPlan(p, f, getenv, enc);
    } else if p.cmd != "cancel" {
      LaterPlan(p, f, getenv, enc);
    }
  }

  /** `dumplog` refuses an invalid label with the label error and runs
      nothing; a valid label's log path is handed to the script. */
  lemma DumplogChecksLabel(p: Cli.Parsed, f: KeybotFlags, getenv: Launchd.Getenv, enc: BoolText)
    requires p.usage == "" && p.err.None? && p.cmd == "dumplog"
    ensures var plan := KeybotRun(p, f, getenv, enc);
      var env := Launchd.NewEnv(getenv("HOME"), KeybotPath, getenv);
      (Launchd.InvalidLabel(f.dumplogLabel) <==> plan == Answer(Reply("", Some(Launchd.InvalidLabelError)))) &&
      (!Launchd.InvalidLabel(f.dumplogLabel) ==>
        plan.RunScript? &&
        plan.script.envVars[0] == Launchd.EnvVar("READ_PATH", Launchd.LogPathForLaunchdLabel(env, f.dumplogLabel).value))
  {
    LaterPlan(p, f, getenv, enc);
  }

  /** Trimming a Slack link `<body>` leaves `body`. */
  lemma TrimLink(body: string)
    requires |body| > 0 && body[0] !in LinkCutset && body[|body| - 1] !in LinkCutset
    ensures Trim("<" + body + ">", LinkCutset) == body
  {
    var raw := "<" + body + ">";
    assert raw[0] in LinkCutset;
    assert raw[1..] == body + ">";
    var left := TrimLeft(raw, LinkCutset);
    assert left == TrimLeft(body + ">", LinkCutset);
    assert (body + ">")[0] !in LinkCutset;
    assert left == body + ">";
    assert left[|left| - 1] in LinkCutset;
    assert left[..|left| - 1] == body;
    assert TrimRight(left, LinkCutset) == TrimRight(body, LinkCutset);
  }

  /** A Slack link `<url|name>` names the repository `name`. */
  lemma GitDiffOfLink(url: string, name: string)
    requires |url| > 0 && url[0] !in LinkCutset && '|' !in url
    requires |name| > 0 && name[|name| - 1] !in LinkCutset && '|' !in name
    ensures GitDiffRepo("<" + url + "|" + name + ">") == Ok(name)
  {
    LinkBodyTrimmed(url, name);
    LinkBodySplit(url, name);
  }

  lemma LinkBodyTrimmed(url: string, name: string)
    requires |url| > 0 && url[0] !in LinkCutset
    requires |name| > 0 && name[|name| - 1] !in LinkCutset
    ensures Trim("<" + url + "|" + name + ">", LinkCutset) == url + "|" + name
  {
    var body := url + "|" + name;
    assert "<" + url + "|" + name + ">" == "<" + body + ">";
    assert body[0] == url[0] && body[|body| - 1] == name[|name| - 1];
    TrimLink(body);
  }

  lemma LinkBodySplit(url: string, name: string)
    requires '|' !in url && '|' !in name
    ensures Split(url + "|" + name, '|') == [url, name]
  {
    SplitAtFirst(url, '|', name);
    SplitWithoutSeparator(name, '|');
    assert url + ['|'] + name == url + "|" + name;
  }

  /** `gdiff` without a `|` crashes instead of running the script. */
  lemma GitDiffWithoutBar(p: Cli.Parsed, f: KeybotFlags, getenv: Launchd.Getenv, enc: BoolText)
    requires p.usage == "" && p.err.None? && p.cmd == "gdiff"
    ensures KeybotRun(p, f, getenv, enc).Crash? <==> '|' !in Trim(f.gitDiffRepo, LinkCutset)
  {
    LaterPlan(p, f, getenv, enc);
  }

  /** A command keybot does not know is echoed back without an error. */
  lemma UnmatchedEchoed(p: Cli.Parsed, f: KeybotFlags, getenv: Launchd.Getenv, enc: BoolText)
    requires p.usage == "" && p.err.None? && p.cmd !in KeybotCommands
    ensures KeybotRun(p, f, getenv, enc) == Answer(Reply(p.cmd, None))
  {
    LaterPlan(p, f, getenv, enc);
  }

  /** Help shows the usage kingpin produced for an empty command line, and a
      parse error as `Error getting help: ...`. */
  lemma HelpShowsUsage(app: Cli.App, f: KeybotFlags, getenv: Launchd.Getenv, enc: BoolText,
                       carryOut: JobPlan -> Reply)
    ensures var p := Cli.ParseSpec(app, [], "").0;
      (p.usage != "" ==> KeybotHelp(app, f, getenv, enc, carryOut) == p.usage) &&
      (p.usage == "" && p.err.Some? ==>
        KeybotHelp(app, f, getenv, enc, carryOut) == "Error getting help: " + p.err.value)
  {
  }
}
