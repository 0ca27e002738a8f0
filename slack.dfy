/** The Slack backend (slack.go): guarded sends over the RTM connection and
    the event loop that hands commands to a runner. */
module Slack {
  import opened Outcomes
  import opened Chat
  import Bot

  /** What one RTM event asks of the runner, if anything. */
  function EventRequests(prefix: string, e: Bot.SlackEvent, tokenize: Tokenizer): seq<RunRequest>
  {
    match e
    case Message(text, channel) =>
      (match CommandTokens(tokenize(text), prefix)
       case Some(args) => [RunRequest(args, channel)]
       case None => [])
    case _ => []
  }

  /** The runner calls made while handling `events`, in order. */
  function Dispatched(prefix: string, events: seq<Bot.SlackEvent>, tokenize: Tokenizer): seq<RunRequest>
  {
    if |events| == 0 then []
    else Dispatched(prefix, events[..|events| - 1], tokenize) + EventRequests(prefix, events[|events| - 1], tokenize)
  }

  /** The sends `SendMessage(text, channel)` makes. */
  function Sends(channelIDs: map<string, string>, rtmPresent: bool, text: string, channel: string): seq<Send>
  {
    if channel == "" || !rtmPresent then []
    else [Send(text, Bot.ResolveChannel(channelIDs, channel))]
  }

  /** An empty channel name or a missing connection suppresses the send;
      otherwise exactly one send goes to the resolved channel. */
  lemma SendGuards(channelIDs: map<string, string>, rtmPresent: bool, text: string, channel: string)
    ensures var out := Sends(channelIDs, rtmPresent, text, channel);
            (|out| == 0 <==> channel == "" || !rtmPresent)
            && (|out| > 0 ==> out == [Send(text, if channel in channelIDs && channelIDs[channel] != ""
                                                 then channelIDs[channel] else channel)])
  {
  }

  /** Every runner call comes from a message event whose tokens are the
      prefix followed by the call's arguments, and carries that event's
      channel. */
  lemma {:induction false} DispatchedFromMessages(prefix: string, events: seq<Bot.SlackEvent>, tokenize: Tokenizer)
    ensures forall r :: r in Dispatched(prefix, events, tokenize) ==>
              exists j :: 0 <= j < |events| && events[j].Message? && events[j].channel == r.channel
                          && tokenize(events[j].text) == [prefix] + r.args
  {
    if |events| > 0 {
      var init := events[..|events| - 1];
      DispatchedFromMessages(prefix, init, tokenize);
      forall r | r in Dispatched(prefix, events, tokenize)
        ensures exists j :: 0 <= j < |events| && events[j].Message? && events[j].channel == r.channel
                            && tokenize(events[j].text) == [prefix] + r.args
      {
        if r in Dispatched(prefix, init, tokenize) {
          var j :| 0 <= j < |init| && init[j].Message? && init[j].channel == r.channel
                   && tokenize(init[j].text) == [prefix] + r.args;
          assert events[j] == init[j];
        } else {
          assert r in EventRequests(prefix, events[|events| - 1], tokenize);
        }
      }
    }
  }

  /** A message whose first token is the prefix asks for exactly one run, on
      its own channel; any other event asks for none. */
  lemma MessageDispatch(prefix: string, events: seq<Bot.SlackEvent>, e: Bot.SlackEvent, tokenize: Tokenizer)
    ensures Dispatched(prefix, events + [e], tokenize) ==
            Dispatched(prefix, events, tokenize)
            + (if e.Message? && |tokenize(e.text)| > 0 && tokenize(e.text)[0] == prefix
               then [RunRequest(tokenize(e.text)[1..], e.channel)] else [])
  {
    assert (events + [e])[..|events|] == events;
  }

  class SlackBackend {
    const channelIDs: map<string, string>
    /** Whether the RTM connection exists (`b.rtm != nil`). */
    const rtmPresent: bool
    var sent: seq<Send>

    constructor (channelIDs: map<string, string>, rtmPresent: bool)
      ensures this.channelIDs == channelIDs && this.rtmPresent == rtmPresent && sent == []
    {
      this.channelIDs := channelIDs;
      this.rtmPresent := rtmPresent;
      sent := [];
    }

    /** Resolves the channel, then gives up on an empty channel name or a
        missing connection; otherwise sends once. */
    method SendMessage(text: string, channel: string)
      modifies this`sent
      ensures sent == old(sent) + Sends(channelIDs, rtmPresent, text, channel)
    {
      var cid := if channel in channelIDs then channelIDs[channel] else "";
      if cid == "" {
        cid := channel;
      }
      if channel == "" {
        return;
      }
      if rtmPresent {
        sent := sent + [Send(text, cid)];
      }
    }

    /** The event loop of `Listen` over a finite stream, for the user the
        connection authenticated as. Runner errors are only logged, so the
        loop goes on after them; InvalidAuth ends it. */
    method Listen(user: string, events: seq<Bot.SlackEvent>, tokenize: Tokenizer) returns (calls: seq<RunRequest>)
      ensures calls == Dispatched("!" + user, Bot.BeforeInvalidAuth(events), tokenize)
    {
      var prefix := "!" + user;
      calls := [];
      var i := 0;
      while i < |events|
        invariant 0 <= i <= |events|
        invariant forall j :: 0 <= j < i ==> !events[j].InvalidAuth?
        invariant calls == Dispatched(prefix, events[..i], tokenize)
        decreases |events| - i
      {
        assert events[..i + 1][..i] == events[..i];
        match events[i] {
          case InvalidAuth =>
            break;
          case Message(text, channel) =>
            var args := tokenize(text);
            if |args| > 0 && args[0] == prefix {
              calls := calls + [RunRequest(args[1..], channel)];
            }
          case _ =>
        }
        i := i + 1;
      }
      Bot.BeforeInvalidAuthIsPrefix(events, i);
    }
  }
}
