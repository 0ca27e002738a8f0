/** The dispatcher (bot.go): a registry from trigger word to command, the
    help table built from it, and the acknowledge/run/report protocol. Every
    message the bot sends and every command it runs is appended, in order, to
    one log. */
module Bot {
  import opened Outcomes
  import opened Text
  import Strconv
  import Sorting
  import Config
  import Chat

  /** The commands a bot can register. `FuncCommand` and `ToggleDryRunCommand`
      are defined outside the modelled files, so what they show and how they
      describe themselves is carried as data. */
  datatype Command =
    | ExecCommand(path: string, args: seq<string>, showResult: bool, desc: string)
    | ConfigCommand(config: Config.ConfigCommand)
    | FuncCommand(desc: string, handler: string, showResult: bool)
    | ToggleDryRunCommand(desc: string, showResult: bool)
  {
    function ShowResult(): bool
    {
      match this
      case ConfigCommand(c) => c.ShowResult()
      case _ => showResult
    }

    function Description(): string
    {
      match this
      case ConfigCommand(c) => c.Description()
      case _ => desc
    }
  }

  /** One observable step of the bot: a chat message handed to the RTM
      connection, or a command run with the arguments it received. */
  datatype BotEvent =
    | Sent(text: string, channel: string)
    | Ran(command: Command, channel: string, args: seq<string>)

  /** What a command returns when run with a channel and arguments. */
  type Executor = (Command, string, seq<string>) -> Reply

  /** The events a Slack RTM connection delivers. */
  datatype SlackEvent =
    | Hello
    | Connected
    | Message(text: string, channel: string)
    | PresenceChange
    | LatencyReport
    | RTMError(msg: string)
    | InvalidAuth
    | Unexpected

  /** Sends go to the channel's ID when the name is known, else to `channel` itself. */
  function ResolveChannel(channelIDs: map<string, string>, channel: string): (cid: string)
    ensures channel in channelIDs && channelIDs[channel] != "" ==> cid == channelIDs[channel]
    ensures !(channel in channelIDs && channelIDs[channel] != "") ==> cid == channel
  {
    if channel in channelIDs && channelIDs[channel] != "" then channelIDs[channel] else channel
  }

  /** `SlackBlockQuote`: the text between two fences, newline-terminated. */
  function SlackBlockQuote(s: string): (r: string)
    ensures HasPrefix(r, "```\n") && HasSuffix(r, "\n```")
    ensures HasSuffix(s, "\n") ==> |r| == |s| + 7 && r[4..|r| - 3] == s
    ensures !HasSuffix(s, "\n") ==> |r| == |s| + 8 && r[4..|r| - 3] == s + "\n"
  {
    var body := if HasSuffix(s, "\n") then s else s + "\n";
    var r := "```\n" + body + "```";
    assert r[4..|r| - 3] == body;
    assert r[|r| - 4..] == [body[|body| - 1]] + "```";
    r
  }

  const HelpHeader: string := "Command\tDescription\n"

  function HelpRow(trigger: string, command: Command): string
  {
    trigger + "\t" + command.Description() + "\n"
  }

  /** The help rows of `triggers`, one line each, in the given order. */
  function Rows(triggers: seq<string>, commands: map<string, Command>): string
  {
    FlatMap(t => if t in commands then HelpRow(t, commands[t]) else "", triggers)
  }

  lemma RowsSnoc(triggers: seq<string>, i: nat, commands: map<string, Command>)
    requires i < |triggers| && triggers[i] in commands
    ensures Rows(triggers[..i + 1], commands)
            == Rows(triggers[..i], commands) + HelpRow(triggers[i], commands[triggers[i]])
  {
    FlatMapSnoc(t => if t in commands then HelpRow(t, commands[t]) else "", triggers, i);
  }

  /** The help message: a header and one row per trigger, in ascending order of
      trigger, block-quoted. Column padding by the tab writer is not modelled. */
  ghost function HelpText(commands: map<string, Command>): string
  {
    SlackBlockQuote(HelpHeader + Rows(Sorting.SortedSet(commands.Keys), commands))
  }

  predicate IsHelpRequest(args: seq<string>)
  {
    |args| == 0 || args[0] == "help"
  }

  function AckText(args: seq<string>): string
  {
    "Sure, I will `" + Join(args, " ") + "`."
  }

  function ErrorReport(args: seq<string>, out: string): string
  {
    "Oops, there was an error in " + Strconv.Quote(Join(args, " ")) + ":\n" + SlackBlockQuote(out)
  }

  /** What `run` sends once the command has returned `reply`. */
  function ReportEvents(command: Command, args: seq<string>, reply: Reply, cid: string): seq<BotEvent>
  {
    if reply.err.Some? then [Sent(ErrorReport(args, reply.out), cid)]
    else if command.ShowResult() then [Sent(reply.out, cid)]
    else []
  }

  /** Everything `RunCommand(args, channel)` causes, in order. */
  ghost function DispatchEvents(commands: map<string, Command>, channelIDs: map<string, string>,
                                args: seq<string>, channel: string, exec: Executor): seq<BotEvent>
  {
    var cid := ResolveChannel(channelIDs, channel);
    if IsHelpRequest(args) then [Sent(HelpText(commands), cid)]
    else if args[0] !in commands then []
    else
      var command := commands[args[0]];
      [Sent(AckText(args), cid), Ran(command, channel, args)]
        + ReportEvents(command, args, exec(command, channel, args), cid)
  }

  /** The events of a listen loop up to (not including) the first InvalidAuth. */
  function BeforeInvalidAuth(events: seq<SlackEvent>): (r: seq<SlackEvent>)
    ensures |r| <= |events| && r == events[..|r|]
    ensures forall j :: 0 <= j < |r| ==> !r[j].InvalidAuth?
    ensures |r| < |events| ==> events[|r|].InvalidAuth?
  {
    if |events| == 0 || events[0].InvalidAuth? then []
    else [events[0]] + BeforeInvalidAuth(events[1..])
  }

  lemma {:induction false} BeforeInvalidAuthIsPrefix(events: seq<SlackEvent>, i: nat)
    requires i <= |events|
    requires forall j :: 0 <= j < i ==> !events[j].InvalidAuth?
    requires i == |events| || events[i].InvalidAuth?
    ensures BeforeInvalidAuth(events) == events[..i]
  {
    if i > 0 {
      assert !events[0].InvalidAuth?;
      BeforeInvalidAuthIsPrefix(events[1..], i - 1);
      assert events[..i] == [events[0]] + events[1..][..i - 1];
    }
  }

  /** A message is a command for the bot iff its first field is `"!" + user`;
      the remaining fields are the arguments. */
  function CommandArgs(user: string, text: string): Option<seq<string>>
  {
    Chat.CommandTokens(Fields(text), "!" + user)
  }

  ghost function EventEffects(commands: map<string, Command>, channelIDs: map<string, string>,
                              user: string, e: SlackEvent, exec: Executor): seq<BotEvent>
  {
    match e
    case Message(text, channel) =>
      (match CommandArgs(user, text)
       case Some(args) => DispatchEvents(commands, channelIDs, args, channel, exec)
       case None => [])
    case _ => []
  }

  ghost function HandleAll(commands: map<string, Command>, channelIDs: map<string, string>,
                           user: string, events: seq<SlackEvent>, exec: Executor): seq<BotEvent>
  {
    FlatMap(e => EventEffects(commands, channelIDs, user, e, exec), events)
  }

  lemma AppendAssoc<T>(a: seq<T>, b: seq<T>, c: seq<T>)
    ensures (a + b) + c == a + (b + c)
  {
  }

  lemma HandleAllSnoc(commands: map<string, Command>, channelIDs: map<string, string>,
                      user: string, events: seq<SlackEvent>, i: nat, exec: Executor)
    requires i < |events|
    ensures HandleAll(commands, channelIDs, user, events[..i + 1], exec)
            == HandleAll(commands, channelIDs, user, events[..i], exec)
               + EventEffects(commands, channelIDs, user, events[i], exec)
  {
    FlatMapSnoc(e => EventEffects(commands, channelIDs, user, e, exec), events, i);
  }

  class Bot {
    var commands: map<string, Command>
    const channelIDs: map<string, string>
    var log: seq<BotEvent>

    /** `NewBot`/`newBot`: an empty registry; the channel table is what
        `LoadChannelIDs` returned. */
    constructor (channelIDs: map<string, string>)
      ensures commands == map[] && log == [] && this.channelIDs == channelIDs
    {
      commands := map[];
      this.channelIDs := channelIDs;
      log := [];
    }

    /** Registers (or replaces) the command for `trigger`. */
    method AddCommand(trigger: string, command: Command)
      modifies this`commands
      ensures commands == old(commands)[trigger := command]
      ensures trigger in commands && commands[trigger] == command
      ensures forall t :: t != trigger ==> (t in commands <==> t in old(commands))
      ensures forall t :: t != trigger && t in commands ==> commands[t] == old(commands)[t]
    {
      commands := commands[trigger := command];
    }

    method SendMessage(text: string, channel: string)
      modifies this`log
      ensures log == old(log) + [Sent(text, ResolveChannel(channelIDs, channel))]
    {
      var cid := if channel in channelIDs then channelIDs[channel] else "";
      if cid == "" {
        cid := channel;
      }
      log := log + [Sent(text, cid)];
    }

    /** The registered triggers, each once, in ascending order. */
    method Triggers() returns (triggers: seq<string>)
      ensures triggers == Sorting.SortedSet(commands.Keys)
    {
      var remaining := commands.Keys;
      var collected: seq<string> := [];
      while remaining != {}
        invariant remaining <= commands.Keys
        invariant forall t :: t in collected <==> t in commands && t !in remaining
        invariant Sorting.NoDuplicates(collected)
        decreases remaining
      {
        var t :| t in remaining;
        assert multiset(collected)[t] == 0;
        collected := collected + [t];
        remaining := remaining - {t};
      }
      triggers := Sorting.Sort(collected);
      assert forall t :: t in triggers <==> t in multiset(collected);
      Sorting.SortedDistinct(triggers);
      Sorting.SortedSetSpec(commands.Keys);
      Sorting.StrictlySortedUnique(triggers, Sorting.SortedSet(commands.Keys));
    }

    /** `helpMessage`: writes the header and one row per trigger, then block-quotes. */
    method HelpMessage() returns (text: string)
      ensures text == HelpText(commands)
    {
      var triggers := Triggers();
      Sorting.SortedSetMembers(commands.Keys);
      var table := WriteTable(triggers);
      text := SlackBlockQuote(table);
    }

    /** The tab-writer part of `helpMessage`: the header, then the rows of
        `triggers` in order. */
    method WriteTable(triggers: seq<string>) returns (table: string)
      requires forall t | t in triggers :: t in commands
      ensures table == HelpHeader + Rows(triggers, commands)
    {
      table := HelpHeader;
      for i := 0 to |triggers|
        invariant table == HelpHeader + Rows(triggers[..i], commands)
      {
        RowsSnoc(triggers, i, commands);
        AppendAssoc(HelpHeader, Rows(triggers[..i], commands), HelpRow(triggers[i], commands[triggers[i]]));
        table := table + HelpRow(triggers[i], commands[triggers[i]]);
      }
      assert triggers[..|triggers|] == triggers;
    }

    method Help(channel: string)
      modifies this`log
      ensures log == old(log) + [Sent(HelpText(commands), ResolveChannel(channelIDs, channel))]
    {
      var text := HelpMessage();
      SendMessage(text, channel);
    }

    /** `RunCommand`: help for an empty or `help` request; silence for an
        unknown trigger; otherwise an acknowledgement, then the command runs and
        its outcome is reported. */
    method RunCommand(args: seq<string>, channel: string, exec: Executor)
      modifies this`log
      ensures log == old(log) + DispatchEvents(commands, channelIDs, args, channel, exec)
    {
      if |args| == 0 || args[0] == "help" {
        Help(channel);
        return;
      }
      if args[0] !in commands {
        return;
      }
      var command := commands[args[0]];
      SendMessage(AckText(args), channel);
      Run(args, command, channel, exec);
    }

    /** `run`: an error is reported with the block-quoted output; a success is
        shown only when the command asks for it. */
    method Run(args: seq<string>, command: Command, channel: string, exec: Executor)
      modifies this`log
      ensures log == old(log) + [Ran(command, channel, args)]
                + ReportEvents(command, args, exec(command, channel, args), ResolveChannel(channelIDs, channel))
    {
      var reply := exec(command, channel, args);
      log := log + [Ran(command, channel, args)];
      if reply.err.Some? {
        SendMessage(ErrorReport(args, reply.out), channel);
        return;
      }
      if command.ShowResult() {
        SendMessage(reply.out, channel);
      }
    }

    /** One turn of the `Listen` loop for an event other than InvalidAuth:
        a message whose first field is `"!" + user` runs the rest as a command;
        every other event is only logged by the source. */
    method HandleEvent(user: string, e: SlackEvent, exec: Executor)
      modifies this`log
      ensures log == old(log) + EventEffects(commands, channelIDs, user, e, exec)
    {
      if e.Message? {
        var args := Fields(e.text);
        if |args| > 0 && args[0] == "!" + user {
          RunCommand(args[1..], e.channel, exec);
        }
      }
    }

    /** The message branch of `Listen` over a finite stream of events; the
        loop ends at an InvalidAuth event. */
    method Listen(user: string, events: seq<SlackEvent>, exec: Executor)
      modifies this`log
      ensures log == old(log) + HandleAll(commands, channelIDs, user, BeforeInvalidAuth(events), exec)
    {
      ghost var registry := commands;
      ghost var start := log;
      var i := 0;
      while i < |events|
        invariant 0 <= i <= |events|
        invariant commands == registry
        invariant forall j :: 0 <= j < i ==> !events[j].InvalidAuth?
        invariant log == start + HandleAll(registry, channelIDs, user, events[..i], exec)
        decreases |events| - i
      {
        if events[i].InvalidAuth? {
          break;
        }
        HandleAllSnoc(registry, channelIDs, user, events, i, exec);
        ghost var handled := HandleAll(registry, channelIDs, user, events[..i], exec);
        ghost var effects := EventEffects(registry, channelIDs, user, events[i], exec);
        ghost var mid := log;
        HandleEvent(user, events[i], exec);
        assert log == mid + effects;
        AppendAssoc(start, handled, effects);
        i := i + 1;
      }
      BeforeInvalidAuthIsPrefix(events, i);
    }
  }
}

/** Properties of the dispatcher, stated over the functions that specify it. */
module BotProperties {
  import opened Outcomes
  import opened Text
  import Sorting
  import opened Bot

  lemma RowsAppend(a: seq<string>, b: seq<string>, commands: map<string, Command>)
    ensures Rows(a + b, commands) == Rows(a, commands) + Rows(b, commands)
  {
    FlatMapAppend(t => if t in commands then HelpRow(t, commands[t]) else "", a, b);
  }

  lemma RowsEndWithNewline(triggers: seq<string>, commands: map<string, Command>)
    requires forall t | t in triggers :: t in commands
    ensures HasSuffix(HelpHeader + Rows(triggers, commands), "\n")
  {
  }

  /** The help message is the header and the rows, between two fences. */
  lemma HelpTextShape(commands: map<string, Command>)
    ensures var ts := Sorting.SortedSet(commands.Keys);
            (forall t | t in ts :: t in commands)
            && HelpText(commands) == "```\n" + HelpHeader + Rows(ts, commands) + "```"
  {
    var ts := Sorting.SortedSet(commands.Keys);
    Sorting.SortedSetMembers(commands.Keys);
    RowsEndWithNewline(ts, commands);
  }

  lemma Regroup(a: string, b: string, c: string, d: string, e: string)
    ensures a + (b + c + d) + e == (a + b) + c + (d + e)
  {
  }

  lemma PositionOf(ts: seq<string>, x: string) returns (k: nat)
    requires x in ts
    ensures k < |ts| && ts[k] == x
  {
    k :| 0 <= k < |ts| && ts[k] == x;
  }

  lemma RowsSplitAt(ts: seq<string>, k: nat, commands: map<string, Command>)
    requires k < |ts|
    requires forall t | t in ts :: t in commands
    ensures Rows(ts, commands)
            == Rows(ts[..k], commands) + HelpRow(ts[k], commands[ts[k]]) + Rows(ts[k + 1..], commands)
  {
    assert ts[..k + 1] + ts[k + 1..] == ts;
    RowsAppend(ts[..k + 1], ts[k + 1..], commands);
    RowsSnoc(ts, k, commands);
  }

  /** Every registered trigger has its row, with its description, in the help message. */
  lemma HelpListsEveryCommand(commands: map<string, Command>, trigger: string)
    requires trigger in commands
    ensures Contains(HelpText(commands), HelpRow(trigger, commands[trigger]))
  {
    var ts := Sorting.SortedSet(commands.Keys);
    HelpTextShape(commands);
    Sorting.SortedSetMembers(commands.Keys);
    assert trigger in ts;
    var k := PositionOf(ts, trigger);
    RowsSplitAt(ts, k, commands);
    var row := HelpRow(trigger, commands[trigger]);
    var pre := "```\n" + HelpHeader + Rows(ts[..k], commands);
    var post := Rows(ts[k + 1..], commands) + "```";
    Regroup("```\n" + HelpHeader, Rows(ts[..k], commands), row, Rows(ts[k + 1..], commands), "```");
    assert HelpText(commands) == pre + row + post;
    ContainsMiddle(pre, row, post);
  }

  /** Only a non-help request naming a registered trigger runs anything; it
      runs exactly that command, once, after the acknowledgement. */
  lemma DispatchRunsOnlyRegistered(commands: map<string, Command>, channelIDs: map<string, string>,
                                   args: seq<string>, channel: string, exec: Executor)
    ensures var evs := DispatchEvents(commands, channelIDs, args, channel, exec);
            (exists j :: 0 <= j < |evs| && evs[j].Ran?)
            <==> !IsHelpRequest(args) && args[0] in commands
    ensures var evs := DispatchEvents(commands, channelIDs, args, channel, exec);
            !IsHelpRequest(args) && args[0] in commands ==>
              |evs| >= 2
              && evs[0] == Sent(AckText(args), ResolveChannel(channelIDs, channel))
              && evs[1] == Ran(commands[args[0]], channel, args)
              && forall j :: 2 <= j < |evs| ==> evs[j].Sent?
  {
    var evs := DispatchEvents(commands, channelIDs, args, channel, exec);
    if !IsHelpRequest(args) && args[0] in commands {
      assert evs[1].Ran?;
    }
  }

  /** Block-quoting keeps what the text starts with, after the opening fence. */
  lemma QuotedPrefix(s: string, p: string)
    requires HasPrefix(s, p)
    ensures HasPrefix(SlackBlockQuote(s), "```\n" + p)
  {
    var r := SlackBlockQuote(s);
    assert r[4..4 + |s|] == s;
    assert r[..4 + |p|] == r[..4] + r[4..4 + |s|][..|p|];
  }

  /** Block-quoting keeps every piece of the text. */
  lemma QuotedContains(s: string, t: string)
    requires Contains(s, t)
    ensures Contains(SlackBlockQuote(s), t)
  {
    var r := SlackBlockQuote(s);
    var k: nat :| k <= |s| && OccursAt(s, t, k);
    assert r[4..4 + |s|] == s;
    assert r[4 + k..4 + k + |t|] == s[k..k + |t|];
    assert OccursAt(r, t, 4 + k);
  }

  /** A help request answers with the help message and runs nothing. */
  lemma HelpRequestAnswersHelp(commands: map<string, Command>, channelIDs: map<string, string>,
                               args: seq<string>, channel: string, exec: Executor)
    requires IsHelpRequest(args)
    ensures DispatchEvents(commands, channelIDs, args, channel, exec)
            == [Sent(HelpText(commands), ResolveChannel(channelIDs, channel))]
  {
  }

  /** A failed command reports its output, block-quoted, whatever ShowResult says;
      a successful one sends its output verbatim only when ShowResult is set. */
  lemma ReportShowsOutput(command: Command, args: seq<string>, reply: Reply, cid: string)
    ensures var evs := ReportEvents(command, args, reply, cid);
            |evs| <= 1
            && (reply.err.Some? ==> |evs| == 1 && Contains(evs[0].text, reply.out))
            && (reply.err.None? ==> (|evs| == 1 <==> command.ShowResult()))
            && (reply.err.None? && command.ShowResult() ==> evs[0].text == reply.out)
  {
    if reply.err.Some? {
      ErrorReportQuotesOutput(args, reply.out);
    }
  }

  /** The error report quotes the whole output. */
  lemma ErrorReportQuotesOutput(args: seq<string>, out: string)
    ensures Contains(ErrorReport(args, out), out)
  {
    var head := "Oops, there was an error in " + Strconv.Quote(Join(args, " ")) + ":\n";
    assert out == "" + out + "";
    ContainsMiddle("", out, "");
    QuotedContains(out, out);
    assert ErrorReport(args, out) == head + SlackBlockQuote(out);
    ContainsInRight(head, SlackBlockQuote(out), out);
  }

  /** A message is taken as a command exactly when its first field is
      `"!" + user`: joining the prefix and the arguments with spaces gives
      back the arguments. */
  lemma CommandArgsOfJoin(user: string, args: seq<string>)
    requires IsWord("!" + user)
    requires forall i :: 0 <= i < |args| ==> IsWord(args[i])
    ensures CommandArgs(user, Join(["!" + user] + args, " ")) == Some(args)
  {
    var ws := ["!" + user] + args;
    forall i | 0 <= i < |ws| ensures IsWord(ws[i]) {
      if i > 0 { assert ws[i] == args[i - 1]; }
    }
    FieldsOfJoin(ws);
    assert ws[1..] == args;
  }

  /** Events after the first InvalidAuth are never handled. */
  lemma {:induction false} InvalidAuthEndsListening(before: seq<SlackEvent>, after: seq<SlackEvent>)
    ensures BeforeInvalidAuth(before + [InvalidAuth] + after) == BeforeInvalidAuth(before + [InvalidAuth])
  {
    if |before| > 0 && !before[0].InvalidAuth? {
      assert (before + [InvalidAuth] + after)[1..] == before[1..] + [InvalidAuth] + after;
      assert (before + [InvalidAuth])[1..] == before[1..] + [InvalidAuth];
      InvalidAuthEndsListening(before[1..], after);
    }
  }

  /** Handling a stream event by event is handling its parts in order. */
  lemma HandleAllAppend(commands: map<string, Command>, channelIDs: map<string, string>,
                        user: string, a: seq<SlackEvent>, b: seq<SlackEvent>, exec: Executor)
    ensures HandleAll(commands, channelIDs, user, a + b, exec)
            == HandleAll(commands, channelIDs, user, a, exec) + HandleAll(commands, channelIDs, user, b, exec)
  {
    FlatMapAppend(e => EventEffects(commands, channelIDs, user, e, exec), a, b);
  }

}
