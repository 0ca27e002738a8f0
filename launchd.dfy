/** The launchd helpers of the macOS bot: where a job's log and plist live,
    and the property-list text that tells launchd how to run a build
    script. The file system is a map from path to contents. */
module Launchd {
  import opened Outcomes
  import opened Text

  /** The environment a launchd job inherits. */
  datatype Env = Env(
    path: string,
    home: string,
    goPath: string,
    goPathForBot: string,
    githubToken: string,
    slackToken: string,
    slackChannel: string,
    awsAccessKey: string,
    awsSecretKey: string,
    keybaseToken: string,
    keybaseChatConvID: string,
    keybaseLocation: string,
    keybaseHome: string)

  /** A custom environment variable of a script. */
  datatype EnvVar = EnvVar(key: string, value: string)

  /** What a launchd job runs. */
  datatype Script = Script(
    jobLabel: string,
    path: string,
    bucketName: string,
    platform: string,
    logPath: string,
    envVars: seq<EnvVar>)

  /** The process environment, read by variable name (`os.Getenv`). */
  type Getenv = string -> string

  /** Builds the job environment from the home directory, the PATH and the
      process environment; both Go paths come from GOPATH. */
  function NewEnv(home: string, path: string, getenv: Getenv): (e: Env)
    ensures e.home == home && e.path == path
    ensures e.goPath == e.goPathForBot == getenv("GOPATH")
    ensures e.keybaseHome == getenv("KEYBASE_HOME") && e.keybaseLocation == getenv("KEYBASE_LOCATION")
  {
    Env(path, home, getenv("GOPATH"), getenv("GOPATH"), getenv("GITHUB_TOKEN"),
        getenv("SLACK_TOKEN"), getenv("SLACK_CHANNEL"), getenv("AWS_ACCESS_KEY"),
        getenv("AWS_SECRET_KEY"), getenv("KEYBASE_TOKEN"), getenv("KEYBASE_CHAT_CONVID"),
        getenv("KEYBASE_LOCATION"), getenv("KEYBASE_HOME"))
  }

  /** `filepath.Join(dir, rel)` for a clean directory and a clean relative
      path: an empty part is dropped, otherwise one separator joins them. */
  function JoinPath(dir: string, rel: string): (p: string)
    ensures dir != "" && rel != "" ==> p == dir + "/" + rel
    ensures dir == "" ==> p == rel
    ensures rel == "" ==> p == dir
  {
    if dir == "" then rel else if rel == "" then dir else dir + "/" + rel
  }

  /** A path below the home directory named by the HOME variable. */
  function PathFromHome(homeVar: string, path: string): (p: string)
    ensures homeVar != "" && path != "" ==> HasPrefix(p, homeVar + "/") && p[|homeVar| + 1..] == path
    ensures homeVar == "" ==> p == path
  {
    JoinPath(homeVar, path)
  }

  /** A label that could escape the log directory. */
  predicate InvalidLabel(jobLabel: string)
  {
    Contains(jobLabel, "..") || Contains(jobLabel, "/") || Contains(jobLabel, "\\")
  }

  const InvalidLabelError := "Invalid label"

  /** The log file of a launchd job: refused for a label that names another
      directory, otherwise `<label>.log` in `~/Library/Logs`. */
  function LogPathForLaunchdLabel(e: Env, jobLabel: string): (r: Result<string>)
    ensures r.Err? <==> InvalidLabel(jobLabel)
    ensures r.Err? ==> r.msg == InvalidLabelError
    ensures r.Ok? ==> r.value == JoinPath(e.home, "Library/Logs/" + jobLabel + ".log")
  {
    if InvalidLabel(jobLabel) then Err(InvalidLabelError)
    else Ok(JoinPath(e.home, "Library/Logs/" + jobLabel + ".log"))
  }

  const Indent4 := "    "
  const Indent8 := "        "
  const Tabs := "\t\t"

  /** A `<key>` line followed by a `<string>` line, each with its own indentation. */
  function Entry(keyIndent: string, key: string, valueIndent: string, value: string): string
  {
    keyIndent + "<key>" + key + "</key>\n" + valueIndent + "<string>" + value + "</string>\n"
  }

  /** An environment entry as the template writes it. */
  function EnvEntry(key: string, value: string): string
  {
    Entry(Indent8, key, Indent8, value)
  }

  /** One iteration of the template's range over the custom variables. */
  function EnvVarXml(v: EnvVar): string
  {
    "\n" + Indent8 + "<key>" + v.key + "</key>\n" + Indent8 + "<string>" + v.value + "</string>\n" + Indent8
  }

  function EnvVarsXml(vars: seq<EnvVar>): string
  {
    if |vars| == 0 then "" else EnvVarXml(vars[0]) + EnvVarsXml(vars[1..])
  }

  const Header :=
    "<?xml version=\"1.0\" encoding=\"UTF-8\"?>\n" +
    "<!DOCTYPE plist PUBLIC \"-//Apple//DTD PLIST 1.0//EN\" \"http://www.apple.com/DTDs/PropertyList-1.0.dtd\">\n" +
    "<plist version=\"1.0\">\n<dict>\n"

  const RunMode := "prod"

  /** The script the job starts, below the bot's own checkout. */
  function RunScriptPath(e: Env): string
  {
    e.goPathForBot + "/src/github.com/keybase/slackbot/scripts/run.sh"
  }

  /** The fragments of the rendered template, in order. */
  function PlistParts(e: Env, s: Script, logPath: string): seq<string>
  {
    [ Header,
      Entry(Indent4, "Label", Indent4, s.jobLabel),
      Indent4 + "<key>EnvironmentVariables</key>\n" + Indent4 + "<dict>\n",
      EnvEntry("GOPATH", e.goPath),
      EnvEntry("GITHUB_TOKEN", e.githubToken),
      EnvEntry("SLACK_TOKEN", e.slackToken),
      EnvEntry("SLACK_CHANNEL", e.slackChannel),
      EnvEntry("AWS_ACCESS_KEY", e.awsAccessKey),
      EnvEntry("AWS_SECRET_KEY", e.awsSecretKey),
      EnvEntry("KEYBASE_TOKEN", e.keybaseToken),
      EnvEntry("KEYBASE_CHAT_CONVID", e.keybaseChatConvID),
      EnvEntry("KEYBASE_LOCATION", e.keybaseLocation),
      Entry(Indent8, "KEYBASE_HOME", Tabs, e.keybaseHome),
      Entry(Tabs, "KEYBASE_RUN_MODE", Indent8, RunMode),
      EnvEntry("PATH", e.path),
      EnvEntry("LOG_PATH", e.home + "/Library/Logs/" + s.jobLabel + ".log"),
      EnvEntry("BUCKET_NAME", s.bucketName),
      EnvEntry("SCRIPT_PATH", e.goPath + "/src/" + s.path),
      EnvEntry("PLATFORM", s.platform),
      EnvEntry("LABEL", s.jobLabel),
      Indent8 + EnvVarsXml(s.envVars) + "\n" + Indent4 + "</dict>\n",
      Indent4 + "<key>ProgramArguments</key>\n" + Indent4 + "<array>\n" +
        Indent8 + "<string>/bin/bash</string>\n" +
        Indent8 + "<string>" + RunScriptPath(e) + "</string>\n" + Indent4 + "</array>\n",
      Entry(Indent4, "StandardErrorPath", Indent4, logPath),
      Entry(Indent4, "StandardOutPath", Indent4, logPath),
      "</dict>\n</plist>\n" ]
  }

  /** The property list for a script; refused, before rendering, for an
      invalid label. */
  function Plist(e: Env, s: Script): (r: Result<string>)
    ensures r.Err? <==> InvalidLabel(s.jobLabel)
    ensures r.Err? ==> r.msg == InvalidLabelError
  {
    match LogPathForLaunchdLabel(e, s.jobLabel)
    case Err(m) => Err(m)
    case Ok(logPath) => Ok(Concat(PlistParts(e, s, logPath)))
  }

  /** Where the plist of a label is written and removed. */
  function PlistPath(e: Env, jobLabel: string): (p: string)
    ensures HasPrefix(p, e.home + "/Library/LaunchAgents/")
    ensures p[|e.home + "/Library/LaunchAgents/"|..] == jobLabel + ".plist"
  {
    e.home + "/Library/LaunchAgents" + "/" + jobLabel + ".plist"
  }

  /** The file system: contents by path. */
  type Files = map<string, string>

  /** Failures the operating system may report for one operation. */
  datatype Faults = Faults(mkdir: Option<string>, write: Option<string>, remove: Option<string>)

  /** `WritePlist`: renders, creates the agents directory, writes the file and
      returns its path; the first failure is returned and nothing is written. */
  function WritePlist(e: Env, s: Script, files: Files, faults: Faults): (r: (Result<string>, Files))
    ensures r.0.Ok? <==> !InvalidLabel(s.jobLabel) && faults.mkdir.None? && faults.write.None?
    ensures r.0.Ok? ==> r.0.value == PlistPath(e, s.jobLabel) && r.1 == files[r.0.value := Plist(e, s).value]
    ensures r.0.Err? ==> r.1 == files
  {
    match Plist(e, s)
    case Err(m) => (Err(m), files)
    case Ok(data) =>
      if faults.mkdir.Some? then (Err(faults.mkdir.value), files)
      else
        var path := PlistPath(e, s.jobLabel);
        if faults.write.Some? then (Err(faults.write.value), files)
        else (Ok(path), files[path := data])
  }

  /** `os.Remove` of a missing file fails. */
  function RemoveFile(path: string, files: Files, fault: Option<string>): (r: (Option<string>, Files))
    ensures r.0.None? <==> path in files && fault.None?
    ensures r.0.None? ==> r.1 == files - {path}
    ensures r.0.Some? ==> r.1 == files
  {
    if path !in files then (Some("remove " + path + ": no such file or directory"), files)
    else if fault.Some? then (fault, files)
    else (None, files - {path})
  }

  /** `Cleanup`: removes the script's plist. */
  function Cleanup(e: Env, s: Script, files: Files, faults: Faults): (r: (Option<string>, Files))
    ensures r.0.None? <==> PlistPath(e, s.jobLabel) in files && faults.remove.None?
    ensures r.0.None? ==> r.1 == files - {PlistPath(e, s.jobLabel)}
    ensures r.0.Some? ==> r.1 == files
  {
    RemoveFile(PlistPath(e, s.jobLabel), files, faults.remove)
  }

  /** `CleanupLog`: removes the label's log if there is one; a missing log is not an error. */
  function CleanupLog(e: Env, jobLabel: string, files: Files, faults: Faults): (r: (Option<string>, Files))
    ensures InvalidLabel(jobLabel) ==> r == (Some(InvalidLabelError), files)
    ensures !InvalidLabel(jobLabel) ==>
      var p := LogPathForLaunchdLabel(e, jobLabel).value;
      (p !in files ==> r == (None, files)) &&
      (p in files && faults.remove.None? ==> r == (None, files - {p})) &&
      (p in files && faults.remove.Some? ==> r == (faults.remove, files))
  {
    match LogPathForLaunchdLabel(e, jobLabel)
    case Err(m) => (Some(m), files)
    case Ok(logPath) =>
      if logPath in files then RemoveFile(logPath, files, faults.remove) else (None, files)
  }

  // Properties of the rendered plist and of the files it is written to.

  /** For a clean, non-empty home directory the log path is `~/Library/Logs/<label>.log`,
      the same path the plist passes to the script as LOG_PATH. */
  lemma LogPathInHome(e: Env, jobLabel: string)
    requires e.home != "" && !InvalidLabel(jobLabel)
    ensures LogPathForLaunchdLabel(e, jobLabel) == Ok(e.home + "/Library/Logs/" + jobLabel + ".log")
  {
    assert e.home + "/" + ("Library/Logs/" + jobLabel + ".log") == e.home + "/Library/Logs/" + jobLabel + ".log";
  }

  /** The log file lies directly in the log directory: the label holds no separator. */
  lemma LogFileInLogDirectory(e: Env, jobLabel: string)
    requires e.home != "" && LogPathForLaunchdLabel(e, jobLabel).Ok?
    ensures var p := LogPathForLaunchdLabel(e, jobLabel).value;
      var dir := e.home + "/Library/Logs/";
      HasPrefix(p, dir) && forall i :: |dir| <= i < |p| ==> p[i] != '/'
  {
    var dir := e.home + "/Library/Logs/";
    var p := LogPathForLaunchdLabel(e, jobLabel).value;
    assert p == dir + (jobLabel + ".log");
    forall i | 0 <= i < |jobLabel| ensures jobLabel[i] != '/' {
      assert !OccursAt(jobLabel, "/", i);
      assert jobLabel[i..i + 1] == [jobLabel[i]];
    }
    forall i | |dir| <= i < |p| ensures p[i] != '/' {
      if i < |dir| + |jobLabel| {
        assert p[i] == jobLabel[i - |dir|];
      }
    }
  }

  /** The rendered plist lists every fragment, so its fixed settings are all present:
      the run mode, the script path, and the log path for both output streams. */
  lemma PlistSettings(e: Env, s: Script)
    requires Plist(e, s).Ok?
    ensures var text := Plist(e, s).value;
      var logPath := LogPathForLaunchdLabel(e, s.jobLabel).value;
      HasPrefix(text, Header) &&
      Contains(text, Entry(Indent4, "Label", Indent4, s.jobLabel)) &&
      Contains(text, Entry(Tabs, "KEYBASE_RUN_MODE", Indent8, "prod")) &&
      Contains(text, EnvEntry("SCRIPT_PATH", e.goPath + "/src/" + s.path)) &&
      Contains(text, Entry(Indent4, "StandardErrorPath", Indent4, logPath)) &&
      Contains(text, Entry(Indent4, "StandardOutPath", Indent4, logPath)) &&
      Contains(text, RunScriptPath(e))
  {
    var logPath := LogPathForLaunchdLabel(e, s.jobLabel).value;
    var parts := PlistParts(e, s, logPath);
    var text := Plist(e, s).value;
    PlistStartsWithHeader(e, s);
    PlistPartsAt(e, s, logPath);
    PlistContainsPart(e, s, 1);
    PlistContainsPart(e, s, 13);
    PlistContainsPart(e, s, 17);
    PlistContainsPart(e, s, 22);
    PlistContainsPart(e, s, 23);
    PlistContainsPart(e, s, 21);
    ArgumentsRunScript(e, s, logPath);
    ContainsTransitive(text, parts[21], RunScriptPath(e));
  }

  /** The rendered text opens with the XML header. */
  lemma PlistStartsWithHeader(e: Env, s: Script)
    requires Plist(e, s).Ok?
    ensures HasPrefix(Plist(e, s).value, Header)
  {
    var parts := PlistParts(e, s, LogPathForLaunchdLabel(e, s.jobLabel).value);
    assert Plist(e, s).value == Header + Concat(parts[1..]);
  }

  /** Every fragment of the template appears in the rendered text. */
  lemma PlistContainsPart(e: Env, s: Script, i: nat)
    requires Plist(e, s).Ok? && i < |PlistParts(e, s, LogPathForLaunchdLabel(e, s.jobLabel).value)|
    ensures Contains(Plist(e, s).value, PlistParts(e, s, LogPathForLaunchdLabel(e, s.jobLabel).value)[i])
  {
    ConcatContains(PlistParts(e, s, LogPathForLaunchdLabel(e, s.jobLabel).value), i);
  }

  /** The fragments the settings are read from. */
  lemma PlistPartsAt(e: Env, s: Script, logPath: string)
    ensures var parts := PlistParts(e, s, logPath);
      |parts| == 25 &&
      parts[1] == Entry(Indent4, "Label", Indent4, s.jobLabel) &&
      parts[13] == Entry(Tabs, "KEYBASE_RUN_MODE", Indent8, "prod") &&
      parts[17] == EnvEntry("SCRIPT_PATH", e.goPath + "/src/" + s.path) &&
      parts[20] == Indent8 + EnvVarsXml(s.envVars) + ("\n" + Indent4 + "</dict>\n") &&
      parts[22] == Entry(Indent4, "StandardErrorPath", Indent4, logPath) &&
      parts[23] == Entry(Indent4, "StandardOutPath", Indent4, logPath)
  {
  }

  /** The program arguments run the script runner with bash. */
  lemma ArgumentsRunScript(e: Env, s: Script, logPath: string)
    ensures Contains(PlistParts(e, s, logPath)[21], RunScriptPath(e))
  {
    var before := Indent4 + "<key>ProgramArguments</key>\n" + Indent4 + "<array>\n" +
      Indent8 + "<string>/bin/bash</string>\n" + Indent8 + "<string>";
    ContainsMiddle(before, RunScriptPath(e), "</string>\n" + Indent4 + "</array>\n");
    assert PlistParts(e, s, logPath)[21] == before + RunScriptPath(e) + ("</string>\n" + Indent4 + "</array>\n");
  }

  /** The custom variables render in list order: the rendering of a list
      is the rendering of its halves, one after the other. */
  lemma {:induction false} EnvVarsInOrder(a: seq<EnvVar>, b: seq<EnvVar>)
    ensures EnvVarsXml(a + b) == EnvVarsXml(a) + EnvVarsXml(b)
  {
    if |a| == 0 {
      assert a + b == b;
    } else {
      assert (a + b)[1..] == a[1..] + b;
      EnvVarsInOrder(a[1..], b);
    }
  }

  /** Each custom variable renders as a key line followed by its value line. */
  lemma {:induction false} EnvVarsListed(vars: seq<EnvVar>, i: nat)
    requires i < |vars|
    ensures Contains(EnvVarsXml(vars), Entry(Indent8, vars[i].key, Indent8, vars[i].value))
  {
    var v := vars[i];
    var entry := Entry(Indent8, v.key, Indent8, v.value);
    assert EnvVarXml(v) == "\n" + entry + Indent8;
    ContainsMiddle("\n", entry, Indent8);
    if i == 0 {
      ContainsInLeft(EnvVarXml(v), EnvVarsXml(vars[1..]), entry);
    } else {
      EnvVarsListed(vars[1..], i - 1);
      ContainsInRight(EnvVarXml(vars[0]), EnvVarsXml(vars[1..]), entry);
    }
  }

  /** Every custom variable of the script is set in the rendered plist. */
  lemma PlistListsEnvVars(e: Env, s: Script, i: nat)
    requires Plist(e, s).Ok? && i < |s.envVars|
    ensures Contains(Plist(e, s).value, Entry(Indent8, s.envVars[i].key, Indent8, s.envVars[i].value))
  {
    var logPath := LogPathForLaunchdLabel(e, s.jobLabel).value;
    var parts := PlistParts(e, s, logPath);
    var entry := Entry(Indent8, s.envVars[i].key, Indent8, s.envVars[i].value);
    EnvVarsListed(s.envVars, i);
    ContainsInRight(Indent8, EnvVarsXml(s.envVars), entry);
    ContainsInLeft(Indent8 + EnvVarsXml(s.envVars), "\n" + Indent4 + "</dict>\n", entry);
    PlistPartsAt(e, s, logPath);
    PlistContainsPart(e, s, 20);
    ContainsTransitive(Plist(e, s).value, parts[20], entry);
  }

  /** Cleanup removes exactly the file WritePlist wrote: writing a plist
      that did not exist and cleaning it up leaves the disk as it was. */
  lemma WriteThenCleanup(e: Env, s: Script, files: Files, faults: Faults)
    requires WritePlist(e, s, files, faults).0.Ok? && faults.remove.None?
    requires PlistPath(e, s.jobLabel) !in files
    ensures var written := WritePlist(e, s, files, faults).1;
      Cleanup(e, s, written, faults) == (None, files)
  {
    var path := PlistPath(e, s.jobLabel);
    var written := WritePlist(e, s, files, faults).1;
    assert written - {path} == files;
  }
}
