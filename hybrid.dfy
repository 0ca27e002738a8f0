/** The hybrid backend (hybrid.go): several backends, each bound to one
    channel, behaving as one. */
module Hybrid {
  import opened Outcomes
  import opened Chat

  /** `HybridBackendMember`: a backend, named by an identifier, and the
      channel it is bound to. */
  datatype Member = Member(backend: nat, channel: string)

  /** One `SendMessage` call made on a member backend. */
  datatype MemberSend = MemberSend(backend: nat, text: string, channel: string)

  /** `hybridRunner`: a runner bound to a channel. */
  datatype HybridRunner = HybridRunner(channel: string)
  {
    /** `RunCommand(args, _)`: the call the wrapped runner receives. */
    function Forward(args: seq<string>, reported: string): (r: RunRequest)
      ensures r.args == args && r.channel == channel
    {
      RunRequest(args, channel)
    }

    /** The error returned is the wrapped runner's. */
    function RunCommand(inner: RunRequest -> Option<string>, args: seq<string>, reported: string): Option<string>
    {
      inner(Forward(args, reported))
    }
  }

  /** The channel a command arrives on does not matter: it runs on the bound
      channel with the same arguments, and the same error comes back. */
  lemma RunnerIgnoresChannel(r: HybridRunner, inner: RunRequest -> Option<string>, args: seq<string>,
                             x: string, y: string)
    ensures r.RunCommand(inner, args, x) == r.RunCommand(inner, args, y) == inner(RunRequest(args, r.channel))
  {
  }

  /** The sends one hybrid send fans out to, in member order. */
  function FanOut(members: seq<Member>, text: string): (out: seq<MemberSend>)
    ensures |out| == |members|
    ensures forall i :: 0 <= i < |members| ==>
              out[i] == MemberSend(members[i].backend, text, members[i].channel)
  {
    if |members| == 0 then []
    else FanOut(members[..|members| - 1], text) + [MemberSend(members[|members| - 1].backend, text, members[|members| - 1].channel)]
  }

  /** What a member's listener sees when it reports `reported` through the
      runner it was given. */
  function Rebind(channel: string, reported: seq<RunRequest>): (seen: seq<RunRequest>)
    ensures |seen| == |reported|
    ensures forall k :: 0 <= k < |seen| ==> seen[k] == RunRequest(reported[k].args, channel)
  {
    if |reported| == 0 then []
    else Rebind(channel, reported[..|reported| - 1]) + [HybridRunner(channel).Forward(reported[|reported| - 1].args, reported[|reported| - 1].channel)]
  }

  class HybridBackend {
    const members: seq<Member>
    var sent: seq<MemberSend>

    /** `NewHybridBackend` keeps the members in the order given. */
    constructor (members: seq<Member>)
      ensures this.members == members && sent == []
    {
      this.members := members;
      sent := [];
    }

    /** Sends `text` once to every member, on the member's own channel; the
        channel argument is not used. */
    method SendMessage(text: string, channel: string)
      modifies this`sent
      ensures sent == old(sent) + FanOut(members, text)
    {
      for i := 0 to |members|
        invariant sent == old(sent) + FanOut(members[..i], text)
      {
        assert members[..i + 1][..i] == members[..i];
        sent := sent + [MemberSend(members[i].backend, text, members[i].channel)];
      }
      assert members[..|members|] == members;
    }

    /** `Listen` gives each member a runner bound to that member's channel.
        `reported(i)` are the calls member i's own listener makes; the result
        holds, member by member, the calls that reach the shared runner. */
    method Listen(reported: nat -> seq<RunRequest>) returns (received: seq<seq<RunRequest>>)
      ensures |received| == |members|
      ensures forall i :: 0 <= i < |members| ==> received[i] == Rebind(members[i].channel, reported(i))
    {
      received := [];
      for i := 0 to |members|
        invariant |received| == i
        invariant forall j :: 0 <= j < i ==> received[j] == Rebind(members[j].channel, reported(j))
      {
        var runner := HybridRunner(members[i].channel);
        var calls := reported(i);
        var seen := [];
        for k := 0 to |calls|
          invariant seen == Rebind(runner.channel, calls[..k])
        {
          assert calls[..k + 1][..k] == calls[..k];
          seen := seen + [runner.Forward(calls[k].args, calls[k].channel)];
        }
        assert calls[..|calls|] == calls;
        received := received + [seen];
      }
    }
  }
}
