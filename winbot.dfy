/** The Windows job command (keybot/winbot.go): builds the Windows release
    with `dorelease.cmd`, keeps its combined output in a log file in the
    temporary directory, and shows that log on request. */
module Winbot {
  import opened Outcomes
  import opened Text
  import Strconv
  import Cli
  import Launchd
  import Keybot

  /** The values kingpin parsed for `build windows`. */
  datatype WinFlags = WinFlags(test: bool, clientCommit: string, kbfsCommit: string, skipCI: bool)

  /** What the process sees of the machine: the temporary directory, the
      `GOPATH` variable, its own environment and whether writing the log
      fails. The files on disk are passed alongside, as `Launchd.Files`. */
  datatype Host = Host(tempDir: string, goPath: string, environ: seq<string>, logWriteFails: bool)

  /** Runs a program with an environment and returns its combined output and error. */
  type ProgramRunner = (string, seq<string>) -> Reply

  /** How many trailing characters of the build output are shown in chat. */
  const ShownOutput := 4000

  // The log file name.

  /** The log file name as the source computes it: the temporary directory
      and the file name are concatenated with no separator in between. */
  function LogFileNameAsWritten(tempDir: string): string
  {
    tempDir + "winbot.log"
  }

  /** With the usual temporary directory `/tmp` the log lands next to it,
      as `/tmpwinbot.log`, not inside it. */
  lemma LogFileOutsideTempDir()
    ensures LogFileNameAsWritten("/tmp") == "/tmpwinbot.log"
    ensures !HasPrefix(LogFileNameAsWritten("/tmp"), "/tmp/")
  {
    assert LogFileNameAsWritten("/tmp")[4] == 'w';
  }

  /** The log file `winbot.log` in the temporary directory. */
  function LogFileName(tempDir: string): (name: string)
    ensures tempDir != "" ==> HasPrefix(name, tempDir + "/") && name[|tempDir| + 1..] == "winbot.log"
  {
    Launchd.JoinPath(tempDir, "winbot.log")
  }

  // Building.

  /** The update channel of a build: a custom commit is always a test build;
      otherwise a smoke build, waiting for CI unless CI is skipped. */
  function UpdateChannel(f: WinFlags): (channel: string)
  {
    var custom := f.clientCommit != "" || f.kbfsCommit != "";
    var smokeTest := !custom;
    var skipCI := f.skipCI || custom;
    var testBuild := f.test || custom;
    if testBuild then "Test"
    else if smokeTest then (if !skipCI then "SmokeCI" else "Smoke")
    else "None"
  }

  /** Whether the build is told to skip CI: asked for, or a custom commit. */
  function SkipCI(f: WinFlags): (skip: bool)
    ensures skip <==> f.skipCI || f.clientCommit != "" || f.kbfsCommit != ""
  {
    f.skipCI || f.clientCommit != "" || f.kbfsCommit != ""
  }

  /** The channel is `Test` exactly for test builds and custom commits, and a
      build is never left without a channel. */
  lemma UpdateChannelChoice(f: WinFlags)
    ensures var custom := f.clientCommit != "" || f.kbfsCommit != "";
      UpdateChannel(f) != "None" &&
      (UpdateChannel(f) == "Test" <==> f.test || custom) &&
      (UpdateChannel(f) == "SmokeCI" <==> !f.test && !custom && !f.skipCI) &&
      (UpdateChannel(f) == "Smoke" <==> !f.test && !custom && f.skipCI)
  {
  }

  /** The release script below `GOPATH`. */
  function BuildProgram(host: Host): string
  {
    Launchd.JoinPath(host.goPath, "src/github.com/keybase/client/packaging/windows/dorelease.cmd")
  }

  /** The build's environment: the process's own, then the revisions, the CI
      switch and the channel. */
  function BuildEnv(host: Host, f: WinFlags, enc: Keybot.BoolText): (env: seq<string>)
    ensures |env| == |host.environ| + 4 && env[..|host.environ|] == host.environ
    ensures env[|host.environ|..] == ["ClientRevision=" + f.clientCommit, "KbfsRevision=" + f.kbfsCommit,
                                      "SKIP_CI=" + enc.env(SkipCI(f)), "UpdateChannel=" + UpdateChannel(f)]
  {
    host.environ + ["ClientRevision=" + f.clientCommit, "KbfsRevision=" + f.kbfsCommit,
                    "SKIP_CI=" + enc.env(SkipCI(f)), "UpdateChannel=" + UpdateChannel(f)]
  }

  /** The end of the build output that fits in a chat message. */
  function Tail(out: string): (r: string)
    ensures |r| == if |out| > ShownOutput then ShownOutput else |out|
    ensures r == out[|out| - |r|..]
  {
    var index := if |out| > ShownOutput then |out| - ShownOutput else 0;
    out[index..]
  }

  /** `winbot.Run` after parsing. In dry-run mode the parsed command is only
      described. `cancel` has no build to stop: the running command is never
      recorded outside the call that started it. */
  function WinbotRun(p: Cli.Parsed, f: WinFlags, dryRun: bool, host: Host, enc: Keybot.BoolText,
                     run: ProgramRunner, files: Launchd.Files): (r: (Reply, Launchd.Files))
    ensures r.1 != files ==> p.usage == "" && p.err.None? && !dryRun && p.cmd == "build windows"
  {
    if p.usage != "" || p.err.Some? then (Reply(p.usage, p.err), files)
    else if dryRun then (Reply("I would have run: `" + Strconv.Quote(p.cmd) + "`", None), files)
    else
      var logFile := LogFileName(host.tempDir);
      if p.cmd == "cancel" then (Reply("No build running", None), files)
      else if p.cmd == "build windows" then
        var result := run(BuildProgram(host), BuildEnv(host, f, enc));
        var cleared := files - {logFile};
        var written := if host.logWriteFails then cleared else cleared[logFile := result.out];
        (Reply(Tail(result.out), result.err), written)
      else if p.cmd == "dumplog" then
        if logFile in files then (Reply(files[logFile], None), files)
        else (Reply("Error reading " + logFile, Some("open " + logFile + ": no such file or directory")), files)
      else (Reply(p.cmd, None), files)
  }

  /** `winbot.Help`: the usage of an empty command line, or the error. */
  function WinbotHelp(app: Cli.App, f: WinFlags, dryRun: bool, host: Host, enc: Keybot.BoolText,
                      run: ProgramRunner, files: Launchd.Files): string
  {
    Keybot.HelpText(WinbotRun(Cli.ParseSpec(app, [], "").0, f, dryRun, host, enc, run, files).0)
  }

  // Properties.

  /** Usage and parse errors come first, then dry-run mode; neither runs or
      writes anything. */
  lemma NothingRunsUnparsedOrDry(p: Cli.Parsed, f: WinFlags, dryRun: bool, host: Host, enc: Keybot.BoolText,
                                 run: ProgramRunner, files: Launchd.Files)
    requires p.usage != "" || p.err.Some? || dryRun
    ensures var (reply, after) := WinbotRun(p, f, dryRun, host, enc, run, files);
      after == files &&
      (p.usage != "" || p.err.Some? ==> reply == Reply(p.usage, p.err)) &&
      (p.usage == "" && p.err.None? ==> reply.err.None? && HasPrefix(reply.out, "I would have run: `\""))
  {
  }

  /** A build runs the release script with the build's environment, shows at
      most the last 4000 characters of its output with its error, and
      replaces the log with the full output. */
  lemma BuildWritesFullLog(p: Cli.Parsed, f: WinFlags, host: Host, enc: Keybot.BoolText,
                           run: ProgramRunner, files: Launchd.Files)
    requires p.usage == "" && p.err.None? && p.cmd == "build windows" && !host.logWriteFails
    ensures var (reply, after) := WinbotRun(p, f, false, host, enc, run, files);
      var result := run(BuildProgram(host), BuildEnv(host, f, enc));
      var logFile := LogFileName(host.tempDir);
      reply.err == result.err && |reply.out| <= ShownOutput && HasSuffix(result.out, reply.out) &&
      (|result.out| <= ShownOutput ==> reply.out == result.out) &&
      after == files[logFile := result.out]
  {
    var result := run(BuildProgram(host), BuildEnv(host, f, enc));
    var logFile := LogFileName(host.tempDir);
    assert (files - {logFile})[logFile := result.out] == files[logFile := result.out];
  }

  /** `dumplog` after a build shows the build's whole output, even the part
      the build's own reply cut off. */
  lemma DumplogAfterBuild(p: Cli.Parsed, q: Cli.Parsed, f: WinFlags, g: WinFlags, host: Host, enc: Keybot.BoolText,
                          run: ProgramRunner, files: Launchd.Files)
    requires p.usage == "" && p.err.None? && p.cmd == "build windows" && !host.logWriteFails
    requires q.usage == "" && q.err.None? && q.cmd == "dumplog"
    ensures var after := WinbotRun(p, f, false, host, enc, run, files).1;
      WinbotRun(q, g, false, host, enc, run, after) ==
        (Reply(run(BuildProgram(host), BuildEnv(host, f, enc)).out, None), after)
  {
  }

  /** `dumplog` without a log reports the file it could not read and leaves
      the files alone; `cancel` always finds nothing to stop. */
  lemma DumplogWithoutLog(p: Cli.Parsed, f: WinFlags, host: Host, enc: Keybot.BoolText,
                          run: ProgramRunner, files: Launchd.Files)
    requires p.usage == "" && p.err.None? && p.cmd in {"dumplog", "cancel"}
    requires LogFileName(host.tempDir) !in files
    ensures var (reply, after) := WinbotRun(p, f, false, host, enc, run, files);
      after == files && (p.cmd == "cancel" <==> reply == Reply("No build running", None)) &&
      (p.cmd == "dumplog" ==> reply.err.Some? && reply.out == "Error reading " + LogFileName(host.tempDir))
  {
  }

  /** Other commands are echoed back and change nothing. */
  lemma WinbotUnmatchedEchoed(p: Cli.Parsed, f: WinFlags, host: Host, enc: Keybot.BoolText,
                              run: ProgramRunner, files: Launchd.Files)
    requires p.usage == "" && p.err.None? && p.cmd !in {"cancel", "build windows", "dumplog"}
    ensures WinbotRun(p, f, false, host, enc, run, files) == (Reply(p.cmd, None), files)
  {
  }

  /** Help shows the usage text of the empty command line, or its error. */
  lemma WinbotHelpShowsUsage(app: Cli.App, f: WinFlags, dryRun: bool, host: Host, enc: Keybot.BoolText,
                             run: ProgramRunner, files: Launchd.Files)
    ensures var p := Cli.ParseSpec(app, [], "").0;
      (p.usage != "" ==> WinbotHelp(app, f, dryRun, host, enc, run, files) == p.usage) &&
      (p.usage == "" && p.err.Some? ==>
        WinbotHelp(app, f, dryRun, host, enc, run, files) == "Error getting help: " + p.err.value)
  {
  }
}
