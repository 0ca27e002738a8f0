/** The kingpin wrapper (cli/cli.go, and its copy `parse` in keybot/main.go):
    decides between a command, a block-quoted usage text and an error. */
module Cli {
  import opened Outcomes
  import opened Text
  import Bot
  import BotProperties

  /** What `app.ParseContext(args)` returned: whether the context was nil,
      and the error. */
  datatype ContextCheck = ContextCheck(isNil: bool, err: Option<string>)

  /** What `app.Parse(args)` returned, and what kingpin wrote to the
      application's writer while parsing. */
  datatype ParseOutcome = ParseOutcome(cmd: string, err: Option<string>, written: string)

  /** A kingpin application, known only by its answers: the parse context and
      the parse of each argument list, and the text `app.Usage` writes. */
  datatype App = App(context: seq<string> -> ContextCheck,
                     parse: seq<string> -> ParseOutcome,
                     usage: string)

  /** `Parse`'s three results: the command, the usage text and the error. */
  datatype Parsed = Parsed(cmd: string, usage: string, err: Option<string>)

  /** `IsParseContextValid`: the context's error when the context is nil. */
  function IsParseContextValid(app: App, args: seq<string>): (err: Option<string>)
    ensures err.Some? ==> app.context(args).isNil && err == app.context(args).err
    ensures !app.context(args).isNil ==> err.None?
  {
    var c := app.context(args);
    if c.isNil then c.err else None
  }

  /** The explanation written before the usage when parsing fails. */
  function ParseErrorText(args: seq<string>, err: string): string
  {
    "I don't know what you mean by `" + Join(args, " ") + "`.\nError: `" + err + "`\nHere's my usage:\n\n"
  }

  /** What `Parse` returns, and what the buffer then holds, given what it held. */
  function ParseSpec(app: App, args: seq<string>, buffer: string): (Parsed, string)
  {
    var contextErr := IsParseContextValid(app, args);
    if contextErr.Some? then (Parsed("", "", contextErr), buffer)
    else
      var p := app.parse(args);
      var written := buffer + p.written;
      var full := if p.err.Some? && |written| == 0
                  then written + ParseErrorText(args, p.err.value) + app.usage
                  else written;
      if |full| > 0 then (Parsed("", Bot.SlackBlockQuote(full), None), full)
      else (Parsed(p.cmd, "", p.err), full)
  }

  /** The `bytes.Buffer` kingpin writes its output to. */
  class StringBuffer {
    var contents: string

    constructor ()
      ensures contents == ""
    {
      contents := "";
    }

    method Write(s: string)
      modifies this`contents
      ensures contents == old(contents) + s
    {
      contents := contents + s;
    }
  }

  method Parse(app: App, args: seq<string>, buffer: StringBuffer) returns (r: Parsed)
    modifies buffer
    ensures (r, buffer.contents) == ParseSpec(app, args, old(buffer.contents))
  {
    var contextErr := IsParseContextValid(app, args);
    if contextErr.Some? {
      return Parsed("", "", contextErr);
    }
    var p := app.parse(args);
    buffer.Write(p.written);
    if p.err.Some? && |buffer.contents| == 0 {
      buffer.Write(ParseErrorText(args, p.err.value));
      buffer.Write(app.usage);
    }
    if |buffer.contents| > 0 {
      return Parsed("", Bot.SlackBlockQuote(buffer.contents), None);
    }
    return Parsed(p.cmd, "", p.err);
  }

  /** An invalid parse context is returned as the error, with no command, no
      usage and nothing written. */
  lemma InvalidContextShortCircuits(app: App, args: seq<string>, buffer: string)
    requires app.context(args).isNil && app.context(args).err.Some?
    ensures ParseSpec(app, args, buffer) == (Parsed("", "", app.context(args).err), buffer)
  {
  }

  /** A parse error on an empty buffer is answered by a usage text made of
      the explanation followed by kingpin's usage, block-quoted; the error
      itself is dropped. */
  lemma ParseErrorGivesUsage(app: App, args: seq<string>)
    requires IsParseContextValid(app, args).None?
    requires app.parse(args).err.Some? && app.parse(args).written == ""
    ensures var (r, _) := ParseSpec(app, args, "");
            r.cmd == "" && r.err.None?
            && HasPrefix(r.usage, "```\n" + ParseErrorText(args, app.parse(args).err.value))
            && Contains(r.usage, app.usage)
  {
    var explanation := ParseErrorText(args, app.parse(args).err.value);
    var full := explanation + app.usage;
    assert ("" + "") + explanation + app.usage == full;
    assert ParseSpec(app, args, "") == (Parsed("", Bot.SlackBlockQuote(full), None), full);
    assert full[..|explanation|] == explanation;
    BotProperties.QuotedPrefix(full, explanation);
    assert full == explanation + app.usage + "";
    ContainsMiddle(explanation, app.usage, "");
    BotProperties.QuotedContains(full, app.usage);
  }

  /** Whenever the buffer ends up non-empty its block-quoted text is the
      answer and any parse error is suppressed. */
  lemma WrittenBufferWins(app: App, args: seq<string>, buffer: string)
    requires IsParseContextValid(app, args).None?
    ensures var (r, after) := ParseSpec(app, args, buffer);
            |after| > 0 ==> r == Parsed("", Bot.SlackBlockQuote(after), None)
  {
  }

  /** A parse error never reaches the caller: the only error `Parse` returns
      is the parse context's; with a valid context the answer is either a
      command or a usage text. */
  lemma OnlyContextErrorsEscape(app: App, args: seq<string>, buffer: string)
    ensures var (r, _) := ParseSpec(app, args, buffer);
            r.err.Some? ==> r.err == IsParseContextValid(app, args)
    ensures var (r, after) := ParseSpec(app, args, buffer);
            IsParseContextValid(app, args).None? ==>
              r.err.None? && (r.usage == "" ==> r.cmd == app.parse(args).cmd && after == "")
  {
  }
}
