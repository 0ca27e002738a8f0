# keybase/slackbot in Dafny

This project models the chat-command core of keybase/slackbot, the build bots Keybase runs in Slack and Keybase chat.

**The dispatcher (`bot.go`).** A bot keeps a registry from trigger word to command. A message `!<user> <trigger> <args…>` is acknowledged, and the command runs. Its failure is reported in a block quote; its success is shown only when the command asks for it. `help`, or an empty request, answers with a table of every trigger.

**Backends.** The Slack, Keybase-chat and hybrid backends decide which sends happen and which incoming messages reach the dispatcher, on which channel.

**Persisted state (`config.go`).** `Config` holds the dry-run and paused switches. It lives in `~/.keybot` and is updated write-through.

**Build bots.** Every build bot parses its arguments with kingpin through one wrapper (`cli/cli.go`) and then decides what to do:
- keybot (`keybot/*.go`) starts launchd jobs whose plists are rendered by `launchd/plist.go`, or Jenkins builds (`jenkins/jenkins.go`);
- winbot runs the Windows release script;
- tuxbot runs the Linux prerelease script and counts the outcome on StatHat.

**How the model is built.**
- Each core source file is one module.
- State the source changes in place is a class:
  - the bot's registry and its ordered log of sent messages and commands run;
  - the `.keybot` file;
  - the kingpin output buffer;
  - the Jenkins crumb cache;
  - the backends' send logs.
- Each state-changing method is proved equal to a specification function of the old state.
- The properties of those functions are proved as lemmas.
- The outside world is a set of oracles passed as function parameters:
  - the chat connections;
  - kingpin;
  - `launchctl` and other programs;
  - the Jenkins and StatHat HTTP servers;
  - `os.Getenv`;
  - the current user.
- The disk is a `map` from path to contents.

## Model

| member | source | states |
|---|---|---|
| Config.ConfigFile.ReadOrDefault | config.go:39-66 | a missing user, file or decodable config gives `{DryRun: true, Paused: false}`; otherwise the saved config |
| Config.ConfigFile.UpdateConfig | config.go:68-95 | an updater error, a path error or a write error returns the config that was read with that error, in that order, and leaves the stored config as it was (a failed write is taken to fail before the file is opened); only full success stores and returns the updater's config, and afterwards reading gives it back |
| Config.ConfigFile.Run | config.go:98-112 | in dry-run mode only `"Dry Run: " + desc` is returned and nothing is written; otherwise the update's error comes back with empty output, or `"Config is now: …"` with the new config stored |
| Config.ConfigCommand.ShowResult | config.go:115-117 | a config command always shows its result |
| Config.ConfigCommand.Description | config.go:120-122 | the description is the command's `Desc` |
| Chat.CommandTokens | slack.go:74-76 | a token list is a command exactly when its first token is the prefix, and the arguments are what follows it |
| Bot.ResolveChannel | bot.go:93-97 | a send goes to the channel's ID when one is known and non-empty, otherwise to the channel name itself |
| Bot.SlackBlockQuote | bot.go:177-182 | the result opens with a fence and newline and closes with a fence; the body is the text, with one newline added only if it had none |
| Bot.BeforeInvalidAuth | bot.go:142-174 | the events handled are the longest prefix without InvalidAuth, and the event after it, if any, is InvalidAuth |
| Bot.Bot.constructor | bot.go:44-48 | a new bot has an empty registry and has sent nothing |
| Bot.Bot.AddCommand | bot.go:56-58 | the trigger now maps to the command (an earlier entry is overwritten) and every other trigger is unchanged |
| Bot.Bot.SendMessage | bot.go:93-99 | exactly one message is appended to the log, addressed to the resolved channel |
| Bot.Bot.Triggers | bot.go:102-109 | the result is the registry's keys, each once, in strictly ascending order |
| Bot.Bot.WriteTable | bot.go:112-120 | the table is the header followed by one `trigger\tdescription` row per trigger, in the given order |
| Bot.Bot.HelpMessage | bot.go:111-123 | the help text is the block-quoted table of the sorted triggers |
| Bot.Bot.Help | bot.go:126-128 | exactly the help text is sent to the channel |
| Bot.Bot.RunCommand | bot.go:61-77 | the log grows by exactly the dispatch events: help, nothing, or acknowledgement, run and report |
| Bot.Bot.Run | bot.go:79-90 | the command runs once, then an error is reported, or the output is sent when ShowResult holds, or nothing is sent |
| Bot.Bot.HandleEvent | bot.go:150-155 | a message whose first field is `"!" + user` dispatches the remaining fields on the message's channel; every other event changes nothing |
| Bot.Bot.Listen | bot.go:131-174 | the log grows by the effects of every event before the first InvalidAuth, in order |
| BotProperties.HelpTextShape | bot.go:111-123 | the help message is the header and the rows of the sorted triggers between two fences |
| BotProperties.HelpListsEveryCommand | bot.go:116-119 | every registered trigger has its row, with its description, in the help message |
| BotProperties.HelpRequestAnswersHelp | bot.go:62-65 | an empty or `help` request sends only the help message and runs nothing |
| BotProperties.DispatchRunsOnlyRegistered | bot.go:61-77 | a command runs exactly when the request is not help and names a registered trigger; then the acknowledgement comes first, the run second, and only sends follow |
| BotProperties.ReportShowsOutput | bot.go:79-90 | at most one report is sent; a failure always reports a message containing the output; a success sends the output verbatim exactly when ShowResult holds |
| BotProperties.QuotedPrefix | bot.go:177-182 | block-quoting keeps the text's beginning right after the opening fence |
| BotProperties.QuotedContains | bot.go:177-182 | block-quoting keeps every piece of the text |
| BotProperties.RowsAppend | bot.go:116-119 | the rows of two trigger lists are the rows of each, one after the other |
| BotProperties.CommandArgsOfJoin | bot.go:151-153 | a message made of `"!" + user` and argument words, joined by spaces, dispatches exactly those words |
| BotProperties.InvalidAuthEndsListening | bot.go:166-168 | events after the first InvalidAuth are never handled |
| BotProperties.HandleAllAppend | bot.go:143-173 | handling a stream event by event is handling its parts one after the other |
| Hybrid.HybridRunner.Forward | hybrid.go:19-22 | the inner runner receives the arguments unchanged and the bound channel |
| Hybrid.RunnerIgnoresChannel | hybrid.go:19-22 | the reported channel never matters: the outcome is the inner runner's on the bound channel |
| Hybrid.FanOut | hybrid.go:39-43 | one send per member, in member order, each with the text and that member's own channel |
| Hybrid.Rebind | hybrid.go:49-51 | every call a member's listener makes carries the member's channel and its own arguments |
| Hybrid.HybridBackend.constructor | hybrid.go:33-37 | the members are kept in the given order and nothing has been sent |
| Hybrid.HybridBackend.SendMessage | hybrid.go:39-43 | the send log grows by exactly the fan-out of the text; the channel argument is unused |
| Hybrid.HybridBackend.Listen | hybrid.go:45-55 | each member listens through a runner bound to its own channel |
| Slack.SendGuards | slack.go:35-51 | an empty channel or a missing connection sends nothing; otherwise exactly one send goes to the resolved channel |
| Slack.DispatchedFromMessages | slack.go:73-80 | every dispatched call comes from a message event, on its channel, whose tokens are the prefix and the call's arguments |
| Slack.MessageDispatch | slack.go:65-98 | a message starting with the prefix adds exactly one call on its own channel; any other event adds none |
| Slack.SlackBackend.SendMessage | slack.go:35-51 | the send log grows by exactly the guarded send |
| Slack.SlackBackend.Listen | slack.go:54-99 | the calls made are those of the messages before the first InvalidAuth, with prefix `"!" + user` |
| Kbchat.SendGuards | kbchat.go:29-43 | another conversation or blank text sends nothing; otherwise exactly one send goes to the configured conversation |
| Kbchat.DispatchedFromConfigured | kbchat.go:60-64 | every call is on the configured conversation and comes from a text message read there with the prefix |
| Kbchat.ReadDispatch | kbchat.go:51-65 | a read error or a non-text message adds nothing; a text message adds one call exactly when it has the prefix and was read on the configured conversation |
| Kbchat.KbchatBackend.SendMessage | kbchat.go:29-43 | the send log grows by exactly the guarded send |
| Kbchat.KbchatBackend.Listen | kbchat.go:45-66 | the calls made are those of the stream's dispatchable text messages, with prefix `"!" + name` |
| Cli.IsParseContextValid | cli/cli.go:19-24 | an error is returned only when kingpin gives no context, and it is kingpin's error; with a context there is none |
| Cli.StringBuffer.Write | cli/cli.go:39 | writing appends to the buffer |
| Cli.Parse | cli/cli.go:27-49 | the parsed result and the buffer afterwards are those of the parse specification `Cli.ParseSpec` |
| Cli.InvalidContextShortCircuits | cli/cli.go:31-33 | an invalid context yields no command, no usage and that error, and writes nothing |
| Cli.ParseErrorGivesUsage | cli/cli.go:37-46 | a parse error on an empty buffer answers with a block-quoted usage that starts with the explanation and contains kingpin's usage; the error is dropped |
| Cli.WrittenBufferWins | cli/cli.go:44-46 | a non-empty buffer is the block-quoted answer and no error is returned |
| Cli.OnlyContextErrorsEscape | keybot/main.go:31-52 | the only error returned is the context's; with a valid context the result is the command with nothing written, or a usage |
| Launchd.NewEnv | launchd/plist.go:117-133 | the environment takes home and path as given and the Go path and Keybase variables from the process environment |
| Launchd.JoinPath | launchd/plist.go:145 | two non-empty parts are joined by one separator; an empty part gives the other |
| Launchd.LogPathForLaunchdLabel | launchd/plist.go:141-146 | a label containing `..`, `/` or `\` (`Launchd.InvalidLabel`) is refused with the label error; any other gives `Library/Logs/<label>.log` under home |
| Launchd.PathFromHome | launchd/plist.go:136-138 | a path below a non-empty HOME lies directly under it; an empty HOME gives the path itself |
| Launchd.PlistPath | launchd/plist.go:174-178 | the plist of a label is `<label>.plist` directly in `~/Library/LaunchAgents` |
| Launchd.LogPathInHome | launchd/plist.go:145 | for a non-empty home the log path is `home + "/Library/Logs/" + label + ".log"` |
| Launchd.LogFileInLogDirectory | launchd/plist.go:141-146 | the log file lies directly in the log directory |
| Launchd.Plist | launchd/plist.go:142-166 | rendering fails exactly for a label `Launchd.InvalidLabel` rejects (one containing `..`, `/` or a backslash), with the label error |
| Launchd.PlistSettings | launchd/plist.go:56-114 | the plist starts with the XML header and sets the label, `KEYBASE_RUN_MODE=prod`, `SCRIPT_PATH` below the Go path, the run script, and the log path for both output streams |
| Launchd.EnvVarsInOrder | launchd/plist.go:98-101 | the script's variables render in list order |
| Launchd.EnvVarsListed | launchd/plist.go:98-101 | each variable renders as its key line and its value line |
| Launchd.PlistListsEnvVars | launchd/plist.go:98-101 | every script variable is set in the rendered plist |
| Launchd.WritePlist | launchd/plist.go:169-184 | success, exactly when the label is valid and the directory and the write succeed, stores the rendered plist at `~/Library/LaunchAgents/<label>.plist` and nothing else; a failure leaves the disk as it was (a failed write is taken to fail before the file is opened) |
| Launchd.RemoveFile | launchd/plist.go:187-192 | a removal succeeds exactly when the file exists and nothing fails; only then is the file gone |
| Launchd.Cleanup | launchd/plist.go:187-192 | removing the script's plist succeeds exactly when `~/Library/LaunchAgents/<label>.plist` exists and nothing fails; only then is that file gone, otherwise the disk is unchanged |
| Launchd.CleanupLog | launchd/plist.go:195-207 | an invalid label is refused without touching the disk; a missing log is no error and changes nothing; an existing log is removed, or the removal's error comes back and the disk is unchanged |
| Launchd.WriteThenCleanup | launchd/plist.go:169-192 | writing a new plist and cleaning it up leaves the disk as it was |
| Jenkins.Refreshed | jenkins/jenkins.go:41-46 | the crumb is refetched exactly when `Jenkins.NeedsRefresh` holds (older than an hour, an error, or empty) and then takes the fetched crumb and error; the timestamp moves to now exactly on a successful fetch |
| Jenkins.FreshCrumbReused | jenkins/jenkins.go:41-46 | after a successful fetch the crumb is reused for the next hour |
| Jenkins.FailedFetchRetried | jenkins/jenkins.go:41-46 | a failed fetch leaves a crumb that is fetched again next time |
| Jenkins.FetchCrumb | jenkins/jenkins.go:72-116 | a crumb is obtained exactly with both credentials, a delivered reply whose body is read, status 200 or 201, a body that decodes, and a non-empty string crumb; on failure the error text takes the crumb's place; a transport, body-read or decoding error is reported as the fetch's error, in the source's order (the corrected fetch of the findings below) |
| Jenkins.FetchCrumbAsWritten | jenkins/jenkins.go:88-116 | the fetch as written, whose outcomes `Jenkins.TransportErrorPanics` states |
| Jenkins.TransportErrorPanics | jenkins/jenkins.go:88-116 | with both credentials set, a failed request (the deferred close of a nil response) or a decoded crumb that is not a string (the unchecked `crumb.(string)`) panics in the crumb worker, and nothing else does; every other outcome is the corrected fetch's |
| Jenkins.CrumbCache.Get | jenkins/jenkins.go:38-48 | the cached crumb becomes `Jenkins.Refreshed` of the old one, and that is what is returned |
| Jenkins.DoPost | jenkins/jenkins.go:118-140 | a crumb error stops the post with that error, then missing credentials with the credentials error; with a good crumb and both credentials the server's answer, reply or error, passes through unchanged |
| Jenkins.ControlURL | jenkins/jenkins.go:264-273 | the job URL ends in `/enable` exactly when enabling and in `/disable` exactly when disabling |
| Jenkins.ParseQueueNumber | jenkins/jenkins.go:62-70 | no `queue/item/` gives the empty string; otherwise the rest after the first occurrence, with trailing slashes removed |
| Jenkins.ParseQueueNumberOfLocation | jenkins/jenkins.go:62-70 | a location `…queue/item/<n>/…/` gives back `n` |
| Jenkins.StartBuildQueryParams | jenkins/jenkins.go:149-159 | of the query `Jenkins.StartBuildQuery` builds, `SlackBot=true` is always sent; each revision and the channel exactly when it is given |
| Jenkins.StartBuildQuerySorted | jenkins/jenkins.go:160 | the query keys come in ascending order, each once |
| Jenkins.StartBuild | jenkins/jenkins.go:144-186 | the first request is always the build request with the selected parameters (an absent Location header is read as an empty one, the corrected form of the finding below) |
| Jenkins.StartBuildAccepted | jenkins/jenkins.go:163-185 | the job is re-enabled exactly when the request was accepted with status 201; any other outcome is an error, and a wrong status is named in it; an accepted build reports the queue number of its Location header, or an empty one when there is none, with the error of re-enabling |
| Jenkins.StartBuildAsWritten | jenkins/jenkins.go:144-186 | `StartBuild` as written, whose outcomes `Jenkins.StartBuildPanicsWithoutLocation` states |
| Jenkins.StartBuildPanicsWithoutLocation | jenkins/jenkins.go:176-185 | an accepted build whose reply has no Location header panics after the job was re-enabled; every other reply gives what the corrected `StartBuild` gives |
| Jenkins.GetJSON | jenkins/jenkins.go:203-212 | a build description comes back exactly when the request and the decoding both succeed; a failed request gives its error, and a delivered reply gives its decoding outcome |
| Jenkins.LastBuildNumbers | jenkins/jenkins.go:240-262 | the result is the latest build's `(number, queueId)` exactly when the lookup and decoding succeed and both fields are present; otherwise the lookup's or decoding's error, then "No queueId in current build --- " and then "No number in current build --- " followed by the printed object |
| Jenkins.StartBuildRefused | jenkins/jenkins.go:118-130 | with a failed crumb or a missing credential the build request is refused with that error as reply text and error, and the job is not re-enabled |
| Jenkins.StopBuildRefused | jenkins/jenkins.go:118-130 | with a failed crumb or a missing credential, stopping ends with that error after the disable alone (no queue entry) or after the cancel of the entry |
| Jenkins.StopBuild | jenkins/jenkins.go:279-329 | the error and the requests made are those of the stop specification `Jenkins.StopBuildSpec` (disable, cancel, latest build, then the walk back through the builds) |
| Jenkins.WalkDown | jenkins/jenkins.go:312-324 | the loop's result is the bounded walk of at most ten lookups |
| Jenkins.WalkBackShape | jenkins/jenkins.go:312-324 | the walk looks up consecutive builds below the latest one, at most the given number, and stops early only once the queue id is no longer above the started one |
| Jenkins.StopBuildWithoutEntry | jenkins/jenkins.go:281-285 | without a queue entry the job is only disabled |
| Jenkins.StopBuildBadEntry | jenkins/jenkins.go:297-301 | a queue entry that is not an integer ends the stop with the conversion error after the cancel |
| Jenkins.StopBuildTrace | jenkins/jenkins.go:279-327 | the requests are: disable, cancel and latest build, then the walk's lookups, then a stop exactly when the walk ended on the started build |
| Jenkins.StopOnlyStartedBuild | jenkins/jenkins.go:312-327 | a build is stopped exactly when the walk found the started build, it is that build, and there are at most fourteen requests |
| Strconv.AtoiItoa | jenkins/jenkins.go:297 | every 64-bit integer's decimal text converts back to it |
| Strconv.QuotePlain | bot.go:83 | printable ASCII text without quotes or backslashes is quoted by surrounding it with double quotes |
| Sorting.SortedSetSpec | bot.go:107 | the sorted triggers are strictly ascending and are exactly the set, each once |
| KeybotMain.Pause | keybot/main.go:158-164 | pausing never fails, sets paused and keeps the dry-run switch |
| KeybotMain.Resume | keybot/main.go:166-172 | resuming never fails, clears paused and keeps the dry-run switch |
| KeybotMain.Unchanged | keybot/main.go:174-179 | the `config` updater never fails and changes nothing |
| KeybotMain.PauseResumeRoundTrip | keybot/main.go:158-172 | pausing is idempotent, and resuming undoes a pause of a running bot (and the reverse) |
| KeybotMain.RegisterAddsRegistry | keybot/main.go:154-213 | the registrations in order add exactly the registry to what was there |
| KeybotMain.AddCommands | keybot/main.go:154-213 | the bot's registry becomes the old one plus this bot's commands |
| KeybotMain.RegistryTriggers | keybot/main.go:156-212 | every bot has `date`, `pause`, `resume`, `config` and `toggle-dryrun`; tuxbot adds only `build` on its own handler; others add `build`, `release`, `test`, `cancel` on the keybot handler, and `restart` |
| KeybotMain.RegistryShowsResults | keybot/main.go:156-211 | `date` and the config commands show their results; `restart` does not |
| KeybotMain.ConfigCommandsUpdate | keybot/main.go:158-179 | `pause`, `resume` and `config` apply the matching updater |
| KeybotMain.SetEnv | keybot/main.go:19-22 | setting a variable runs `launchctl setenv name value` |
| KeybotMain.JenkinsCalls | keybot/main.go:107-112 | each Jenkins request is one action, in order |
| KeybotMain.KeybotHandler | keybot/main.go:54-130 | an action is taken exactly when the arguments parsed, and the first is setting `CLIENT_COMMIT` |
| KeybotMain.KeybotSwitch | keybot/main.go:97-129 | the command's action once both commits are set; the lemmas below give each command's |
| KeybotMain.KeybotHandlerActsOnlyAfterParse | keybot/main.go:83-86 | nothing is done unless the arguments parsed; otherwise the usage or error is the answer |
| KeybotMain.CommitsSetFirst | keybot/main.go:90-95 | the client and then the KBFS commit are set first; a failure ends the handler with that error and empty output |
| KeybotMain.LaunchdCommandsRunOneJob | keybot/main.go:99-104 | the darwin, android and iOS commands start or stop exactly one launchd job and answer with its result; only `cancel darwin` stops |
| KeybotMain.WindowsBuildsQueueJenkins | keybot/main.go:107-110 | a Windows build queues one Jenkins build of the two commits; only the test build names the test update channel |
| KeybotMain.CancelWindowsAlwaysIssued | keybot/main.go:111-114 | `cancel windows` answers that the stop was issued whatever Jenkins did, and disables the job first |
| KeybotMain.PromoteSetsReleaseFirst | keybot/main.go:122-127 | promotion sets the release first and starts the job only when that worked |
| KeybotMain.OnlyWindowsCallsJenkins | keybot/main.go:97-128 | only the Windows commands call Jenkins; everything else is `launchctl` |
| KeybotMain.KeybotUnmatchedEchoed | keybot/main.go:129 | an unknown command is echoed back after the commits are set |
| KeybotMain.TuxbotHandler | keybot/main.go:132-152 | the systemd unit is the one action, taken exactly for a parsed `build linux` |
| KeybotMain.TuxbotHandlerRunsOnlyLinuxBuild | keybot/main.go:132-152 | tuxbot's handler runs the systemd unit exactly for `build linux`, and otherwise answers the usage, error or command |
| Keybot.GitDiffRepo | keybot/keybot.go:223-227 | the repository is the second `\|`-separated field of the trimmed link; there is none exactly when the link has no `\|` |
| Keybot.HelpText | keybot/keybot.go:301-307 | help is the output, or `"Error getting help: "` followed by the error |
| Keybot.UsageComesFirst | keybot/keybot.go:85-88 | a usage or parse error is the answer, before anything else |
| Keybot.CancelNeedsLabel | keybot/keybot.go:101-105 | `cancel` without a label fails with "Label required for cancel" as output and error; with one it stops that job |
| Keybot.DarwinSmokeAndTest | keybot/keybot.go:107-133 | `build darwin` smoke-tests by default with `TEST` from `--test`; a custom commit makes `--smoke` choose between smoke test and test build (the script is `Keybot.DarwinScript`) |
| Keybot.MobileBuild | keybot/keybot.go:135-155 | the mobile build sets `CHECK_CI` to the negation of skip-CI and builds from `~/go-ios` (the script is `Keybot.MobileScript`) |
| Keybot.AndroidBuild | keybot/keybot.go:157-174 | the Android build sets `CHECK_CI` to the negation of skip-CI and builds from `~/go-android` (the script is `Keybot.AndroidScript`) |
| Keybot.IOSBuild | keybot/keybot.go:176-192 | the iOS build sets `CHECK_CI` to the negation of skip-CI and builds from `~/go-ios` (the script is `Keybot.IOSScript`) |
| Keybot.ScriptPlan | keybot/keybot.go:194-298 | every later subcommand that runs a script (`Keybot.PromoteScript`, `Keybot.DumplogScript`, `Keybot.GitDiffScript`, `Keybot.SmoketestScript` and the others) runs it in the process's own environment; a subcommand none of them names is echoed back |
| Keybot.OtherScriptsKeepGoPath | keybot/keybot.go:90-98 | every other script keeps the process's Go path |
| Keybot.DumplogChecksLabel | keybot/keybot.go:207-221 | `dumplog` refuses an invalid label and runs nothing; a valid label's log path is handed to the script |
| Keybot.TrimLink | keybot/keybot.go:224 | trimming a Slack link `<body>` leaves the body |
| Keybot.GitDiffOfLink | keybot/keybot.go:223-237 | a link `<url\|name>` yields the repository `name` |
| Keybot.GitDiffWithoutBar | keybot/keybot.go:224-225 | `gdiff` crashes exactly when the trimmed link has no `\|` |
| Keybot.UnmatchedEchoed | keybot/keybot.go:298 | an unknown command is echoed back |
| Keybot.KeybotRun | keybot/keybot.go:22-299 | usage and parse errors come first, then the subcommand's plan; the `Keybot` lemmas here give each subcommand's plan |
| Keybot.KeybotHelp | keybot/keybot.go:301-307 | help is what the empty command line answers; `Keybot.HelpShowsUsage` states it |
| Keybot.HelpShowsUsage | keybot/keybot.go:301-307 | help shows the usage of the empty command line, or the error prefixed with "Error getting help: " |
| Winbot.LogFileOutsideTempDir | keybot/winbot.go:39 | with temporary directory `/tmp` the log is `/tmpwinbot.log`, outside it |
| Winbot.LogFileNameAsWritten | keybot/winbot.go:39 | the log name as written, the temporary directory and `winbot.log` with nothing between; `Winbot.LogFileOutsideTempDir` states where it lands |
| Winbot.LogFileName | keybot/winbot.go:39 | the log is `winbot.log` directly inside the temporary directory |
| Winbot.SkipCI | keybot/winbot.go:67-71 | CI is skipped exactly when asked or when a commit is given |
| Winbot.UpdateChannel | keybot/winbot.go:63-81 | the channel of a build; `Winbot.UpdateChannelChoice` states which |
| Winbot.UpdateChannelChoice | keybot/winbot.go:63-81 | the channel is `Test` exactly for test builds and custom commits, `SmokeCI` or `Smoke` otherwise by the skip-CI switch, and never `None` |
| Winbot.BuildEnv | keybot/winbot.go:85-91 | the build's environment is the process's own followed by the revisions, the CI switch and the channel |
| Winbot.Tail | keybot/winbot.go:98-102 | the reply is the last `min(len, 4000)` characters of the output |
| Winbot.WinbotRun | keybot/winbot.go:21-112 | only a parsed, live `build windows` changes the disk; the lemmas below give each command's reply |
| Winbot.NothingRunsUnparsedOrDry | keybot/winbot.go:41-48 | usage, parse errors and dry-run mode run and write nothing; dry-run describes the quoted command |
| Winbot.BuildWritesFullLog | keybot/winbot.go:62-102 | a build runs the release script, replies with at most the last 4000 characters and the error, and stores the full output as the log |
| Winbot.DumplogAfterBuild | keybot/winbot.go:95-109 | `dumplog` after a build shows the build's whole output |
| Winbot.DumplogWithoutLog | keybot/winbot.go:50-60 | without a log `dumplog` reports the unreadable file and `cancel` always finds no build, and neither changes the disk |
| Winbot.WinbotUnmatchedEchoed | keybot/winbot.go:111 | an unknown command is echoed back and changes nothing |
| Winbot.WinbotHelp | keybot/winbot.go:114-120 | help is what the empty command line answers; `Winbot.WinbotHelpShowsUsage` states it |
| Winbot.WinbotHelpShowsUsage | keybot/winbot.go:114-120 | help shows the usage of the empty command line, or the error |
| Darwinbot.DarwinPath | keybot/darwinbot.go:46-48 | the job's `PATH` is the system directories followed by `~/.rbenv/shims` |
| Darwinbot.DarwinActsOnlyWhenLive | keybot/darwinbot.go:37-44 | only a parsed command outside dry-run mode starts or stops a job; dry-run describes the quoted command |
| Darwinbot.DarwinRun | keybot/darwinbot.go:20-72 | only a parsed request outside dry-run mode starts or stops a job; the lemmas below give each command's plan |
| Darwinbot.DarwinBuildPlan | keybot/darwinbot.go:54-70 | `build darwin` runs the prerelease `pull_build.sh` as `keybase.build.darwin` from home with the rbenv shims on the path, with exactly `SMOKE_TEST` on, `TEST` from `--test`, both commits and `NOWAIT` from `--skip-ci`, in that order |
| Darwinbot.DarwinCancelAndEcho | keybot/darwinbot.go:51-52 | `cancel` stops the named job; other commands are echoed |
| Darwinbot.DarwinHelp | keybot/darwinbot.go:75-81 | help is what the empty command line answers; `Darwinbot.DarwinHelpShowsUsage` states it |
| Darwinbot.DarwinHelpShowsUsage | keybot/darwinbot.go:75-81 | help shows the usage of the empty command line, or the error |
| Tuxbot.AdditionsChosen | tuxbot/tuxbot.go:32-40 | `NOWAIT=1` is added exactly with skip-CI, `KEYBASE_NIGHTLY=1` exactly when nightly, nothing else |
| Tuxbot.AnnouncementsMatchEnv | tuxbot/tuxbot.go:33-40 | each added variable is announced with one message, in the same order |
| Tuxbot.LinuxBuildReply | tuxbot/tuxbot.go:22-54 | an unknown user fails with its error; otherwise the reply is `SUCCESS` or `FAILURE` with the script's error |
| Tuxbot.LinuxBuildUsesHome | tuxbot/tuxbot.go:23-53 | the script runs from the user's home with the additions after the process environment; an unknown user stops the build before anything is sent |
| Tuxbot.PostStatHat | tuxbot/tuxbot.go:107-119 | without a key the count fails with "no stathat key"; otherwise the key, stat and count are posted |
| Tuxbot.Sent | tuxbot/tuxbot.go:27-39 | each text becomes one message on the channel, in order |
| Tuxbot.Tuxbot.LinuxBuild | tuxbot/tuxbot.go:22-54 | the reply is the build's, and the bot sends exactly the build announcements |
| Tuxbot.Tuxbot.Run | tuxbot/tuxbot.go:60-105 | the reply is the decision chain's, and the bot sends exactly its messages |
| Tuxbot.RunReply | tuxbot/tuxbot.go:60-105 | the reply of `tuxbot.Run`; the lemmas below give it for dry-run, paused, counted and other commands |
| Tuxbot.DryRunAndPauseBuildNothing | tuxbot/tuxbot.go:78-86 | dry-run mode wins over paused, and neither builds or sends; dry-run mentions `NOWAIT=1` exactly with skip-CI |
| Tuxbot.BuildOutcomeCounted | tuxbot/tuxbot.go:88-101 | success is counted exactly when the build succeeded; the reply is the build's unless counting failed, and then both errors are kept |
| Tuxbot.MissingStatHatKeyAlwaysFails | tuxbot/tuxbot.go:88-111 | without a StatHat key every build, even a successful one, reports the counting error |
| Tuxbot.TuxbotUnmatchedEchoed | tuxbot/tuxbot.go:104 | other commands are echoed without a message sent |
| Tuxbot.TuxbotHelp | tuxbot/tuxbot.go:121-127 | help is what the empty command line answers; `Tuxbot.TuxbotHelpShowsUsage` states it |
| Tuxbot.TuxbotHelpShowsUsage | tuxbot/tuxbot.go:121-127 | help shows the usage of the empty command line, or the error |

## Left out

- Concurrency is not modelled:
  - `go b.run(…)` in `RunCommand` is modelled as running immediately after the acknowledgement;
  - the hybrid backend's goroutines and wait group become one listener per member, in order;
  - the Jenkins crumb worker becomes a class whose `Get` applies the refresh rule.
- Network and chat I/O are oracles:
  - Slack RTM, `AuthTest` and connection management;
  - the Keybase chat API;
  - the Jenkins HTTP requests and their JSON;
  - StatHat's HTTP post.
  - The Slack file upload of the journal on a failed Linux build, and the `journalctl` call, are not modelled.
- Connection setup is left out. The chat user name, the channel-ID table, `bot.User()` and `bot.Config()` are parameters.
- kingpin is an oracle. It supplies the parse context, the parsed command, the text it writes to the buffer and its usage text.
- `parseInput`, used by the Slack and Keybase-chat backends, is not part of this model. It is a tokenizer parameter.
- `slackbot.BlockQuote`, used by `cli/cli.go`, is not part of this model. It is taken to be `SlackBlockQuote`.
- `text/tabwriter` column padding is not modelled: a help row is `trigger + "\t" + description + "\n"`.
- `url.Values.Encode` escaping is not modelled. Query parameters are kept as key/value pairs, in the key order it writes.
- JSON encoding and decoding of the config are not modelled: the file holds a `Config` or nothing.
- `filepath.Join` and `path.Join` are modelled without `Clean`. The properties about paths assume clean, non-empty directories.
- Go's `%q` and `%#v` are modelled for ASCII text. Escapes for non-ASCII runes are not modelled.
- `%+v` of a config is modelled as `{DryRun:<bool> Paused:<bool>}`.
- The following are not part of this model: `boolToEnvString`, `boolToString`, `runScript`, `launchd.Stop`, `ExecCommand.Run`, `FuncCommand` and `ToggleDryRunCommand`.
  - The boolean encodings are a parameter.
  - Running a script, stopping a job or running a program becomes a plan or an action, and its outcome is an oracle.
  - `FuncCommand` and `ToggleDryRunCommand` carry their description and result switch as data.
- `Script.Command` is used by `keybot/darwinbot.go` but is not a field in `launchd/plist.go`, so it is not modelled.
- Winbot's `cancel` always answers "No build running". Only that answer is modelled, because the running command is a local that is always nil at that point.
- The error `os.Remove` returns when the log file is removed before a Windows build is ignored, as the source does.
- Writing the Windows log can fail. Only that outcome is modelled (no log is left), not the error text.
- The Linux script's standard output and error go to the bot's own streams. They are not modelled.
- `SetLastCrumb`, `GetLastCrumb`, `GetTokenFromEnv` and every `main` function are not modelled. They are test hooks and wiring.
- Logging is not modelled.
- Integer widths: queue and build numbers are unbounded integers. `Atoi` keeps Go's 64-bit range check.
- `Bot.Bot.Listen` and the backends' `Listen` handle a finite sequence of events, standing in for the source's endless loops.
- Bot.Bot.Listen: a command's outcome is one function of the command, the channel and the arguments, so a request repeated within one stream gets the same reply. The source's commands have state that this does not capture: `pause` changes what the next `config` answers, and `date` and `toggle-dryrun` answer differently from run to run. The same holds for `Bot.Bot.RunCommand`, `Bot.Bot.Run` and `Bot.Bot.HandleEvent`.
- Winbot.WinbotRun: reads and writes the log at the corrected path `Winbot.LogFileName`, not at the path the source computes (`Winbot.LogFileNameAsWritten`, see Findings). With temporary directory `/tmp`, `dumplog` without a log answers "Error reading /tmp/winbot.log" here and "Error reading /tmpwinbot.log" in the source.
- Jenkins.CrumbCache.Get and KeybotMain.KeybotSwitch: they use the corrected `Jenkins.FetchCrumb` and `Jenkins.StartBuild`; the panics of the code as written are stated separately (see Findings).
- Jenkins.StartBuild: the Location header is taken as sent. `res.Location()` resolves a relative one against the request URL; that resolution is not modelled.
- Launchd.WritePlist and Config.ConfigFile.UpdateConfig: a failed write is modelled as one that fails before the file is opened, which leaves the old file in place. `ioutil.WriteFile` truncates the file when it opens it, so a write that fails after the open leaves it empty or cut short, and the next read does not give back the old content.
- Strings are sequences of characters (Unicode code points), not of bytes. Winbot.Tail therefore keeps the last 4000 characters, where `winbot.go` keeps the last 4000 bytes; the two agree on ASCII output. Other lengths and indices (`strings.Index`, slicing after a prefix) are counted in characters as well.
- Jenkins.LastBuildNumbers and Jenkins.WalkBack: a decoded build description is a JSON object whose `queueId` and `number` are numbers when present. The unchecked assertions `f.(map[string]interface{})` (jenkins/jenkins.go:247, 320) and `.(float64)` (jenkins/jenkins.go:259-260, 322) panic on a body that decodes to `null` or to something other than an object, and on a `queueId` or `number` that is `null` or not a number. These panics are not modelled, and neither is the truncation of the float to an integer.
- Jenkins.CrumbedPost: every request of one start or stop uses the same crumb. In the source each `doJenkinsPost` asks the crumb worker again, which may refetch between two requests of the same operation.

## Findings

| source | as written | input that shows it | evidently intended | confidence | as-written member | corrected member |
|---|---|---|---|---|---|---|
| jenkins/jenkins.go:90-91 | `defer func() { _ = res.Body.Close() }()` is registered before the error of `client.Do` is checked | both Jenkins credentials set and the crumb request fails (server unreachable): `res` is nil, the deferred close panics in the crumb worker goroutine, which has no `recover`, and the bot's process exits | check the error first, as `StartBuild` does with `if res != nil`, and report the failed fetch as the crumb's error | medium, not executed | Jenkins.TransportErrorPanics | Jenkins.FetchCrumb |
| jenkins/jenkins.go:111 | `crumb.(string)` is an unchecked type assertion on the decoded `crumb` field | a crumb issuer answering 200 with `{"crumb": 42}`: the assertion panics in the crumb worker goroutine and the bot's process exits | the two-value assertion `crumb, ok := ...`, reporting a crumb that is not a string as "no crumb in response" | low, not executed | Jenkins.TransportErrorPanics | Jenkins.FetchCrumb |
| jenkins/jenkins.go:180-185 | `loc, _ := res.Location()` drops the error, and `loc.String()` is called on the result | Jenkins accepts the build with 201 but sends no Location header: `loc` is nil and `loc.String()` panics, after `controlJob(true)` re-enabled the job | treat a missing Location like a malformed one, which `parseQueueNumber` answers with an empty queue ID | low, not executed | Jenkins.StartBuildPanicsWithoutLocation | Jenkins.StartBuild |
| keybot/winbot.go:39 | the log path is `path.Join(os.TempDir() + "winbot.log")`: the directory and the file name are concatenated before `path.Join` sees them | temporary directory `/tmp` gives `/tmpwinbot.log`, a file next to `/tmp` rather than in it | `path.Join(os.TempDir(), "winbot.log")`, which gives `/tmp/winbot.log` | medium, not executed | Winbot.LogFileOutsideTempDir | Winbot.LogFileName |
