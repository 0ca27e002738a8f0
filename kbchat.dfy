/** The Keybase chat backend (kbchat.go): sends only to the configured
    conversation, and a read loop that dispatches commands seen there. */
module Kbchat {
  import opened Outcomes
  import opened Chat

  /** One result of `sub.Read()`: a read error, or a message of some content
      type, with its text body and conversation. */
  datatype ReadResult =
    | ReadError(msg: string)
    | Received(typeName: string, body: string, convID: string)

  function ReadRequests(prefix: string, convID: string, r: ReadResult, tokenize: Tokenizer): seq<RunRequest>
  {
    if r.ReadError? || r.typeName != "text" then []
    else
      match CommandTokens(tokenize(r.body), prefix)
      case Some(args) => if r.convID == convID then [RunRequest(args, convID)] else []
      case None => []
  }

  /** The runner calls made while handling `stream`, in order. */
  function Dispatched(prefix: string, convID: string, stream: seq<ReadResult>, tokenize: Tokenizer): seq<RunRequest>
  {
    if |stream| == 0 then []
    else Dispatched(prefix, convID, stream[..|stream| - 1], tokenize)
           + ReadRequests(prefix, convID, stream[|stream| - 1], tokenize)
  }

  function Sends(configured: string, text: string, convID: string): seq<Send>
  {
    if convID != configured || |text| == 0 then [] else [Send(text, convID)]
  }

  /** Nothing goes to another conversation, nothing blank is sent, and
      everything else is sent exactly once to the configured conversation. */
  lemma SendGuards(configured: string, text: string, convID: string)
    ensures var out := Sends(configured, text, convID);
            (|out| == 0 <==> convID != configured || text == "")
            && (|out| > 0 ==> out == [Send(text, configured)])
  {
  }

  /** Every runner call is on the configured conversation and comes from a
      text message read there whose tokens are the prefix and the call's
      arguments. */
  lemma {:induction false} DispatchedFromConfigured(prefix: string, convID: string, stream: seq<ReadResult>,
                                                    tokenize: Tokenizer)
    ensures forall r :: r in Dispatched(prefix, convID, stream, tokenize) ==>
              r.channel == convID
              && exists j :: 0 <= j < |stream| && stream[j].Received? && stream[j].typeName == "text"
                             && stream[j].convID == convID && tokenize(stream[j].body) == [prefix] + r.args
  {
    if |stream| > 0 {
      var init := stream[..|stream| - 1];
      DispatchedFromConfigured(prefix, convID, init, tokenize);
      forall r | r in Dispatched(prefix, convID, stream, tokenize)
        ensures r.channel == convID
                && exists j :: 0 <= j < |stream| && stream[j].Received? && stream[j].typeName == "text"
                               && stream[j].convID == convID && tokenize(stream[j].body) == [prefix] + r.args
      {
        if r in Dispatched(prefix, convID, init, tokenize) {
          var j :| 0 <= j < |init| && init[j].Received? && init[j].typeName == "text"
                   && init[j].convID == convID && tokenize(init[j].body) == [prefix] + r.args;
          assert stream[j] == init[j];
        } else {
          assert r in ReadRequests(prefix, convID, stream[|stream| - 1], tokenize);
        }
      }
    }
  }

  /** A read error or a non-text message changes nothing and the loop goes on;
      a text message is dispatched iff it carries the prefix and was read on
      the configured conversation. */
  lemma ReadDispatch(prefix: string, convID: string, stream: seq<ReadResult>, r: ReadResult, tokenize: Tokenizer)
    ensures Dispatched(prefix, convID, stream + [r], tokenize) ==
            Dispatched(prefix, convID, stream, tokenize)
            + (if r.Received? && r.typeName == "text" && r.convID == convID
                  && |tokenize(r.body)| > 0 && tokenize(r.body)[0] == prefix
               then [RunRequest(tokenize(r.body)[1..], convID)] else [])
  {
    assert (stream + [r])[..|stream|] == stream;
  }

  class KbchatBackend {
    const name: string
    const convID: string
    var sent: seq<Send>

    constructor (name: string, convID: string)
      ensures this.name == name && this.convID == convID && sent == []
    {
      this.name := name;
      this.convID := convID;
      sent := [];
    }

    method SendMessage(text: string, convID: string)
      modifies this`sent
      ensures sent == old(sent) + Sends(this.convID, text, convID)
    {
      if convID != this.convID {
        return;
      }
      if |text| == 0 {
        return;
      }
      sent := sent + [Send(text, convID)];
    }

    /** The read loop of `Listen` over a finite stream of reads. */
    method Listen(stream: seq<ReadResult>, tokenize: Tokenizer) returns (calls: seq<RunRequest>)
      ensures calls == Dispatched("!" + name, convID, stream, tokenize)
    {
      var prefix := "!" + name;
      calls := [];
      for i := 0 to |stream|
        invariant calls == Dispatched(prefix, convID, stream[..i], tokenize)
      {
        assert stream[..i + 1][..i] == stream[..i];
        var r := stream[i];
        if r.ReadError? {
          continue;
        }
        if r.typeName != "text" {
          continue;
        }
        var args := tokenize(r.body);
        if |args| > 0 && args[0] == prefix && convID == r.convID {
          calls := calls + [RunRequest(args[1..], convID)];
        }
      }
      assert stream[..|stream|] == stream;
    }
  }
}
