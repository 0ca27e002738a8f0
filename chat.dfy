/** What the backends (slack.go, kbchat.go, hybrid.go) exchange with the
    command runner and with their chat services. */
module Chat {
  import opened Outcomes

  /** One call `runner.RunCommand(args, channel)`. */
  datatype RunRequest = RunRequest(args: seq<string>, channel: string)

  /** One message handed to a chat service. */
  datatype Send = Send(text: string, target: string)

  /** `parseInput`, the backends' tokenizer, which is defined outside the
      modelled files. */
  type Tokenizer = string -> seq<string>

  /** A message is a command when its first token is the command prefix; the
      arguments are the tokens after it. */
  function CommandTokens(tokens: seq<string>, prefix: string): (args: Option<seq<string>>)
    ensures args.Some? <==> |tokens| > 0 && tokens[0] == prefix
    ensures args.Some? ==> tokens == [prefix] + args.value
  {
    if |tokens| > 0 && tokens[0] == prefix then Some(tokens[1..]) else None
  }
}
