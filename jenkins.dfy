/** The Jenkins client that starts and stops the Windows installer build.
    Every HTTP request is a `Call` handed to a `Post` oracle, which stands
    for `doJenkinsPost`: the crumb check, the credential check and the
    server's reply. */
module Jenkins {
  import opened Outcomes
  import opened Text
  import opened Strconv
  import Sorting

  const JenkinsURL := "https://ci.keyba.se"
  const JobName := "windows-installer"
  const JobURL := JenkinsURL + "/job/" + JobName

  /** One URL query parameter. */
  datatype Param = Param(key: string, value: string)

  /** The requests the client posts to Jenkins. */
  datatype Call =
    | Control(enable: bool)
    | BuildWithParameters(query: seq<Param>)
    | CancelItem(id: string)
    | LastBuild
    | BuildInfo(number: int)
    | Stop(number: int)

  /** The decoded JSON description of a build: its optional `queueId` and
      `number` fields, and how `%v` prints the whole object. A body that is
      not an object, or a field that is present but not a number, is not
      represented. */
  datatype BuildJson = BuildJson(queueId: Option<int>, number: Option<int>, printed: string)

  /** A server reply: status, the Location header (`None` when there is no
      usable one), the error of reading the body, and the outcome of decoding
      the body as a build description. */
  datatype Response = Response(status: int, location: Option<string>, readErr: Option<string>, json: Result<BuildJson>)

  /** What posting a call yields: a transport, crumb or credential error, or a reply. */
  type Post = Call -> Result<Response>

  // The crumb cache.

  const Hour: int := 3_600_000_000_000
  const CredentialsError := "Jenkins Windows username and password required"

  /** The cached crumb, the error of the fetch that produced it, and the
      time (in nanoseconds) of the last successful fetch. */
  datatype CrumbResult = CrumbResult(crumb: string, err: Option<string>, time: int)

  /** The crumb is fetched again when it is older than an hour, when the
      last fetch failed, or when there is no crumb. */
  predicate NeedsRefresh(c: CrumbResult, now: int)
  {
    now - c.time > Hour || c.err.Some? || c.crumb == ""
  }

  /** The cache after one request at `now`, where `fetched` is what fetching
      a crumb would give: the timestamp moves only on a successful fetch. */
  function Refreshed(c: CrumbResult, now: int, fetched: (string, Option<string>)): (r: CrumbResult)
    ensures !NeedsRefresh(c, now) ==> r == c
    ensures NeedsRefresh(c, now) ==> r.crumb == fetched.0 && r.err == fetched.1
    ensures NeedsRefresh(c, now) && fetched.1.None? ==> r.time == now
    ensures fetched.1.Some? ==> r.time == c.time
  {
    if NeedsRefresh(c, now) then
      CrumbResult(fetched.0, fetched.1, if fetched.1.None? then now else c.time)
    else c
  }

  /** A crumb fetched successfully is reused for the following hour. */
  lemma FreshCrumbReused(c: CrumbResult, now: int, fetched: (string, Option<string>), later: int)
    requires NeedsRefresh(c, now) && fetched.1.None? && fetched.0 != ""
    requires now <= later <= now + Hour
    ensures !NeedsRefresh(Refreshed(c, now, fetched), later)
    ensures Refreshed(Refreshed(c, now, fetched), later, fetched) == Refreshed(c, now, fetched)
  {
  }

  /** A failed fetch is not cached: the next request fetches again. */
  lemma FailedFetchRetried(c: CrumbResult, now: int, fetched: (string, Option<string>), later: int)
    requires fetched.1.Some?
    ensures NeedsRefresh(c, now) ==> NeedsRefresh(Refreshed(c, now, fetched), later)
  {
  }

  /** The `crumb` field of the decoded reply: absent or null, a JSON string,
      or some other JSON value. */
  datatype CrumbField = NoField | Text(text: string) | NotText

  /** The crumb issuer's reply once delivered: its status, the error reading
      its body if any, and the body decoded as a JSON object or the decoding
      error. */
  datatype CrumbReply = CrumbReply(status: int, readErr: Option<string>, decoded: Result<CrumbField>)

  /** The reply passed every check before the `crumb` field is looked at. */
  predicate ReplyDecoded(reply: CrumbReply)
  {
    reply.readErr.None? && 200 <= reply.status <= 201 && reply.decoded.Ok?
  }

  /** `getJenkinsCrumb` with the transport error checked before the response
      is used and a crumb that is not a string reported like a missing one:
      on failure the crumb text is the error message. The checks run in the
      source's order: credentials, transport, body read, status, decoding,
      the crumb itself. */
  function FetchCrumb(name: string, password: string, reply: Result<CrumbReply>): (r: (string, Option<string>))
    ensures r.1.None? <==> (name != "" && password != "" && reply.Ok? && ReplyDecoded(reply.value) &&
      reply.value.decoded.value.Text? && reply.value.decoded.value.text != "")
    ensures r.1.None? ==> r.0 == reply.value.decoded.value.text
    ensures r.1.Some? ==> r.0 == r.1.value
    ensures name != "" && password != "" && reply.Err? ==> r.1 == Some(reply.msg)
    ensures name != "" && password != "" && reply.Ok? && reply.value.readErr.Some? ==> r.1 == reply.value.readErr
    ensures (name != "" && password != "" && reply.Ok? && reply.value.readErr.None? &&
             200 <= reply.value.status <= 201 && reply.value.decoded.Err?) ==> r.1 == Some(reply.value.decoded.msg)
  {
    var err :=
      if name == "" || password == "" then Some(CredentialsError)
      else if reply.Err? then Some(reply.msg)
      else if reply.value.readErr.Some? then reply.value.readErr
      else if reply.value.status < 200 || reply.value.status > 201 then
        Some("Build request returned " + IntToString(reply.value.status))
      else if reply.value.decoded.Err? then Some(reply.value.decoded.msg)
      else if !reply.value.decoded.value.Text? || reply.value.decoded.value.text == "" then
        Some("no crumb in response")
      else None;
    if err.Some? then (err.value, err) else (reply.value.decoded.value.text, None)
  }

  /** What one fetch by the crumb worker comes to: the crumb text and its
      error, or a panic that ends the bot's process. */
  datatype Fetch = Fetched(crumb: string, err: Option<string>) | Panicked

  /** `getJenkinsCrumb` as written: the deferred `res.Body.Close()` is
      registered before the transport error is checked, so a request that
      fails leaves `res` nil and the deferred call panics; and the unchecked
      assertion `crumb.(string)` panics on a crumb that is not a string. The
      worker goroutine has no `recover`. */
  function FetchCrumbAsWritten(name: string, password: string, reply: Result<CrumbReply>): Fetch
  {
    if name == "" || password == "" then Fetched(CredentialsError, Some(CredentialsError))
    else if reply.Err? then Panicked
    else if ReplyDecoded(reply.value) && reply.value.decoded.value.NotText? then Panicked
    else Fetched(FetchCrumb(name, password, reply).0, FetchCrumb(name, password, reply).1)
  }

  /** A transport error while fetching the crumb, or a crumb that is not a
      string, ends the process; every other outcome is the one `FetchCrumb`
      reports. */
  lemma TransportErrorPanics(name: string, password: string, reply: Result<CrumbReply>)
    ensures FetchCrumbAsWritten(name, password, reply).Panicked? <==>
      name != "" && password != "" &&
      (reply.Err? || (ReplyDecoded(reply.value) && reply.value.decoded.value.NotText?))
    ensures var (crumb, err) := FetchCrumb(name, password, reply);
      FetchCrumbAsWritten(name, password, reply).Fetched? ==> FetchCrumbAsWritten(name, password, reply) == Fetched(crumb, err)
  {
  }

  /** The cache the crumb worker keeps between requests. */
  class CrumbCache {
    var lastCrumb: CrumbResult

    constructor (initial: CrumbResult)
      ensures lastCrumb == initial
    {
      lastCrumb := initial;
    }

    /** One round of the worker: refresh if needed, then hand out the cache. */
    method Get(now: int, fetched: (string, Option<string>)) returns (r: CrumbResult)
      modifies this
      ensures lastCrumb == Refreshed(old(lastCrumb), now, fetched)
      ensures r == lastCrumb
    {
      if NeedsRefresh(lastCrumb, now) {
        lastCrumb := lastCrumb.(crumb := fetched.0, err := fetched.1);
        if lastCrumb.err.None? {
          lastCrumb := lastCrumb.(time := now);
        }
      }
      r := lastCrumb;
    }
  }

  /** `doJenkinsPost`: refuses to post with a failed crumb or without credentials. */
  function DoPost(crumb: CrumbResult, name: string, password: string,
                  server: Call -> Result<Response>, call: Call): (r: Result<Response>)
    ensures crumb.err.Some? ==> r == Err(crumb.err.value)
    ensures crumb.err.None? && (name == "" || password == "") ==> r == Err(CredentialsError)
    ensures r.Ok? ==> r == server(call)
    ensures crumb.err.None? && name != "" && password != "" ==> r == server(call)
  {
    if crumb.err.Some? then Err(crumb.err.value)
    else if name == "" || password == "" then Err(CredentialsError)
    else server(call)
  }

  /** Every request of one operation posted through `doJenkinsPost` with the
      same cached crumb and credentials. */
  function CrumbedPost(crumb: CrumbResult, name: string, password: string,
                       server: Call -> Result<Response>): Post
  {
    call => DoPost(crumb, name, password, server, call)
  }

  /** The error `doJenkinsPost` refuses with before contacting the server. */
  function RefusalError(crumb: CrumbResult): string
  {
    if crumb.err.Some? then crumb.err.value else CredentialsError
  }

  // URLs.

  /** `url.Values.Encode` without escaping: `key=value` pairs joined by `&`. */
  function EncodeQuery(q: seq<Param>): string
  {
    Join(seq(|q|, i requires 0 <= i < |q| => q[i].key + "=" + q[i].value), "&")
  }

  /** `controlJob`'s endpoint: `enable` or `disable` on the job. */
  function ControlURL(enable: bool): (u: string)
    ensures HasPrefix(u, JobURL + "/")
    ensures HasSuffix(u, "/enable") <==> enable
    ensures HasSuffix(u, "/disable") <==> !enable
  {
    var tail := if enable then "/enable" else "/disable";
    var u := JobURL + tail;
    assert u[..|JobURL| + 1] == JobURL + "/";
    assert u[|JobURL|..] == tail;
    assert enable ==> u[|u| - 8] == JobURL[|JobURL| - 1] == 'r';
    assert !enable ==> u[|u| - 7] == 'd';
    u
  }

  function URL(call: Call): string
  {
    match call
    case Control(enable) => ControlURL(enable)
    case BuildWithParameters(q) => JobURL + "/buildWithParameters?" + EncodeQuery(q)
    case CancelItem(id) => JenkinsURL + "/queue/cancelItem?" + EncodeQuery([Param("id", id)])
    case LastBuild => JobURL + "/lastBuild/api/json"
    case BuildInfo(n) => JobURL + "/" + IntToString(n) + "/api/json"
    case Stop(n) => JobURL + "/" + IntToString(n) + "/stop"
  }

  // Starting a build.

  const QueueMarker := "queue/item/"

  /** `parseQueueNumber`: the text after the first `queue/item/` of a
      Location header, without trailing slashes; empty when there is none. */
  function ParseQueueNumber(location: string): (r: string)
    ensures !Contains(location, QueueMarker) ==> r == ""
    ensures Contains(location, QueueMarker) ==>
      var k := IndexOf(location, QueueMarker).value + |QueueMarker|;
      HasPrefix(location[k..], r) &&
      forall i :: k + |r| <= i < |location| ==> location[i] == '/'
    ensures |r| > 0 ==> r[|r| - 1] != '/'
  {
    match IndexOf(location, QueueMarker)
    case None => ""
    case Some(k) => TrimRight(location[k + |QueueMarker|..], {'/'})
  }

  /** A Location header of the form `<server>/queue/item/<n>/` gives back `n`. */
  lemma ParseQueueNumberOfLocation(server: string, n: string, slashes: string)
    requires !Contains(server, QueueMarker)
    requires |n| > 0 ==> n[|n| - 1] != '/'
    requires forall i :: 0 <= i < |slashes| ==> slashes[i] == '/'
    ensures ParseQueueNumber(server + QueueMarker + n + slashes) == n
  {
    var loc := server + QueueMarker + n + slashes;
    assert loc[|server|..|server| + |QueueMarker|] == QueueMarker;
    assert OccursAt(loc, QueueMarker, |server|);
    forall k: nat | k < |server| ensures !OccursAt(loc, QueueMarker, k) {
      MarkerNotBefore(server, loc, k);
    }
    assert IndexOf(loc, QueueMarker) == Some(|server|);
    var rest := loc[|server| + |QueueMarker|..];
    assert rest == n + slashes;
    TrimSlashes(n, slashes);
  }

  /** The marker starts with the only `q` it holds, so in a text that
      continues a server part with the marker, no occurrence starts inside
      the server part unless the server part holds the marker itself. */
  lemma MarkerNotBefore(server: string, loc: string, k: nat)
    requires !Contains(server, QueueMarker) && k < |server|
    requires |server| + |QueueMarker| <= |loc| && loc[..|server|] == server
    requires loc[|server|..|server| + |QueueMarker|] == QueueMarker
    ensures !OccursAt(loc, QueueMarker, k)
  {
    if k + |QueueMarker| <= |server| {
      assert loc[..|server|][k..k + |QueueMarker|] == loc[k..k + |QueueMarker|];
      assert !OccursAt(server, QueueMarker, k);
    } else if k + |QueueMarker| <= |loc| {
      var j := |server| - k;
      assert loc[|server|] == loc[|server|..|server| + |QueueMarker|][0] == QueueMarker[0] == 'q';
      assert loc[k..k + |QueueMarker|][j] == 'q';
      assert QueueMarker[j] != 'q';
    }
  }

  lemma {:induction false} TrimSlashes(n: string, slashes: string)
    requires |n| > 0 ==> n[|n| - 1] != '/'
    requires forall i :: 0 <= i < |slashes| ==> slashes[i] == '/'
    ensures TrimRight(n + slashes, {'/'}) == n
    decreases |slashes|
  {
    if |slashes| == 0 {
      assert n + slashes == n;
    } else {
      var shorter := slashes[..|slashes| - 1];
      assert (n + slashes)[..|n + slashes| - 1] == n + shorter;
      TrimSlashes(n, shorter);
    }
  }

  /** The parameters of a build request, in the key order `Encode` writes:
      `SlackBot=true` always, each revision and the channel only when given. */
  function StartBuildQuery(clientRev: string, kbfsRev: string, updateChannel: string): (q: seq<Param>)
  {
    (if clientRev != "" then [Param("ClientRevision", clientRev)] else []) +
    (if kbfsRev != "" then [Param("KBFSRevision", kbfsRev)] else []) +
    [Param("SlackBot", "true")] +
    (if updateChannel != "" then [Param("UpdateChannel", updateChannel)] else [])
  }

  function Keys(q: seq<Param>): seq<string>
  {
    seq(|q|, i requires 0 <= i < |q| => q[i].key)
  }

  /** `SlackBot=true` is always sent; each optional parameter exactly when it is given. */
  lemma StartBuildQueryParams(clientRev: string, kbfsRev: string, updateChannel: string)
    ensures var q := StartBuildQuery(clientRev, kbfsRev, updateChannel);
      Param("SlackBot", "true") in q &&
      (Param("ClientRevision", clientRev) in q <==> clientRev != "") &&
      (Param("KBFSRevision", kbfsRev) in q <==> kbfsRev != "") &&
      (Param("UpdateChannel", updateChannel) in q <==> updateChannel != "")
  {
    var c := if clientRev != "" then [Param("ClientRevision", clientRev)] else [];
    var k := if kbfsRev != "" then [Param("KBFSRevision", kbfsRev)] else [];
    var u := if updateChannel != "" then [Param("UpdateChannel", updateChannel)] else [];
    var q := c + k + [Param("SlackBot", "true")] + u;
    assert q == StartBuildQuery(clientRev, kbfsRev, updateChannel);
    assert Param("SlackBot", "true") == q[|c| + |k|];
    forall p | p in q ensures p in c || p in k || p == Param("SlackBot", "true") || p in u {
    }
  }

  /** The keys are written in ascending order, each once, as `Encode` writes them. */
  lemma StartBuildQuerySorted(clientRev: string, kbfsRev: string, updateChannel: string)
    ensures Sorting.StrictlySorted(Keys(StartBuildQuery(clientRev, kbfsRev, updateChannel)))
  {
    var mask := [clientRev != "", kbfsRev != "", true, updateChannel != ""];
    ParameterNamesSorted();
    KeepSorted(ParameterNames, mask);
    KeysOfQuery(clientRev, kbfsRev, updateChannel);
    KeepParameterNames(clientRev != "", kbfsRev != "", updateChannel != "");
  }

  /** The four parameter names of a build, in ascending order. */
  const ParameterNames := ["ClientRevision", "KBFSRevision", "SlackBot", "UpdateChannel"]

  lemma ParameterNamesSorted()
    ensures Sorting.StrictlySorted(ParameterNames)
  {
    assert Sorting.LexLess("ClientRevision", "KBFSRevision");
    assert Sorting.LexLess("KBFSRevision", "SlackBot");
    assert Sorting.LexLess("SlackBot", "UpdateChannel");
    Sorting.LexTransitive("ClientRevision", "KBFSRevision", "SlackBot");
    Sorting.LexTransitive("KBFSRevision", "SlackBot", "UpdateChannel");
    Sorting.LexTransitive("ClientRevision", "SlackBot", "UpdateChannel");
  }

  /** Keeping the given optional names and `SlackBot`. */
  lemma KeepParameterNames(client: bool, kbfs: bool, channel: bool)
    ensures Keep(ParameterNames, [client, kbfs, true, channel]) ==
      (if client then ["ClientRevision"] else []) +
      (if kbfs then ["KBFSRevision"] else []) + ["SlackBot"] +
      (if channel then ["UpdateChannel"] else [])
  {
    var all := ParameterNames;
    var mask := [client, kbfs, true, channel];
    var u := if channel then ["UpdateChannel"] else [];
    assert Keep(all[3..], mask[3..]) == u;
    assert Keep(all[2..], mask[2..]) == ["SlackBot"] + u;
    assert Keep(all[1..], mask[1..]) == (if kbfs then ["KBFSRevision"] else []) + ["SlackBot"] + u;
  }

  lemma KeysOfQuery(clientRev: string, kbfsRev: string, updateChannel: string)
    ensures Keys(StartBuildQuery(clientRev, kbfsRev, updateChannel)) ==
      (if clientRev != "" then ["ClientRevision"] else []) +
      (if kbfsRev != "" then ["KBFSRevision"] else []) + ["SlackBot"] +
      (if updateChannel != "" then ["UpdateChannel"] else [])
  {
  }

  /** The elements of `all` whose flag in `mask` is set, in order. */
  function Keep(all: seq<string>, mask: seq<bool>): (r: seq<string>)
    requires |mask| == |all|
    ensures forall x :: x in r ==> x in all
  {
    if |all| == 0 then [] else (if mask[0] then [all[0]] else []) + Keep(all[1..], mask[1..])
  }

  /** Keeping some elements of a strictly ascending sequence keeps it ascending. */
  lemma {:induction false} KeepSorted(all: seq<string>, mask: seq<bool>)
    requires |mask| == |all| && Sorting.StrictlySorted(all)
    ensures Sorting.StrictlySorted(Keep(all, mask))
  {
    if |all| > 0 {
      var rest := Keep(all[1..], mask[1..]);
      KeepSorted(all[1..], mask[1..]);
      forall j | 0 <= j < |rest| ensures Sorting.LexLess(all[0], rest[j]) {
        assert rest[j] in all[1..];
      }
    }
  }

  /** The error text of a call whose body is read: the post error or the read error. */
  function CallErr(r: Result<Response>): (e: Option<string>)
    ensures e.None? <==> r.Ok? && r.value.readErr.None?
  {
    match r
    case Err(m) => Some(m)
    case Ok(resp) => resp.readErr
  }

  /** The error of a call whose reply is ignored. */
  function PostErr(r: Result<Response>): (e: Option<string>)
    ensures e.None? <==> r.Ok?
  {
    if r.Err? then Some(r.msg) else None
  }

  /** The build request was accepted: posted, read, and answered with 201. */
  predicate Accepted(r: Result<Response>)
  {
    r.Ok? && r.value.readErr.None? && r.value.status == 201
  }

  /** The text of a Location header; an absent one reads as empty. */
  function LocationText(location: Option<string>): (t: string)
    ensures location.None? ==> t == ""
  {
    if location.Some? then location.value else ""
  }

  /** `StartBuild` with an absent Location header read as an empty one:
      requests the build and, once Jenkins accepts it with 201, re-enables the
      job and reports the queue number. Returns the reply and the calls made,
      in order. */
  function StartBuild(clientRev: string, kbfsRev: string, updateChannel: string, post: Post): (r: (Reply, seq<Call>))
    ensures |r.1| >= 1 && r.1[0] == BuildWithParameters(StartBuildQuery(clientRev, kbfsRev, updateChannel))
  {
    var build := BuildWithParameters(StartBuildQuery(clientRev, kbfsRev, updateChannel));
    match post(build)
    case Err(m) => (Reply(m, Some(m)), [build])
    case Ok(resp) =>
      if resp.readErr.Some? then (Reply(resp.readErr.value, resp.readErr), [build])
      else if resp.status != 201 then
        var m := "Build request returned " + IntToString(resp.status);
        (Reply(m, Some(m)), [build])
      else
        (Reply("Requested Jenkins build with queue ID " + ParseQueueNumber(LocationText(resp.location)),
               PostErr(post(Control(true)))), [build, Control(true)])
  }

  /** The job is re-enabled exactly when the build request was accepted with
      status 201; any other status is reported as an error. */
  lemma StartBuildAccepted(clientRev: string, kbfsRev: string, updateChannel: string, post: Post)
    ensures var build := BuildWithParameters(StartBuildQuery(clientRev, kbfsRev, updateChannel));
      var r := StartBuild(clientRev, kbfsRev, updateChannel, post);
      var accepted := Accepted(post(build));
      (accepted <==> r.1 == [build, Control(true)]) &&
      (!accepted ==> r.1 == [build] && r.0.err.Some? && r.0.out == r.0.err.value) &&
      (accepted && post(build).value.location.Some? ==>
        r.0.out == "Requested Jenkins build with queue ID " + ParseQueueNumber(post(build).value.location.value)) &&
      (accepted && post(build).value.location.None? ==> r.0.out == "Requested Jenkins build with queue ID ") &&
      (accepted ==> r.0.err == PostErr(post(Control(true)))) &&
      (post(build).Ok? && post(build).value.readErr.None? && post(build).value.status != 201 ==>
        r.0.err == Some("Build request returned " + IntToString(post(build).value.status)))
  {
  }

  /** What `StartBuild` as written comes to: a reply, or a panic after the
      calls made so far. */
  datatype Start = Started(reply: Reply, calls: seq<Call>) | StartPanicked(calls: seq<Call>)

  /** `StartBuild` as written: the error of `res.Location()` is dropped and
      `loc.String()` is called on the nil URL it returns when the accepted
      reply has no usable Location header, after the job was re-enabled. */
  function StartBuildAsWritten(clientRev: string, kbfsRev: string, updateChannel: string, post: Post): Start
  {
    var build := BuildWithParameters(StartBuildQuery(clientRev, kbfsRev, updateChannel));
    if Accepted(post(build)) && post(build).value.location.None? then StartPanicked([build, Control(true)])
    else Started(StartBuild(clientRev, kbfsRev, updateChannel, post).0, StartBuild(clientRev, kbfsRev, updateChannel, post).1)
  }

  /** An accepted build request whose reply has no Location header ends the
      process once the job has been re-enabled; any other reply gives what
      `StartBuild` gives. */
  lemma StartBuildPanicsWithoutLocation(clientRev: string, kbfsRev: string, updateChannel: string, post: Post)
    ensures var build := BuildWithParameters(StartBuildQuery(clientRev, kbfsRev, updateChannel));
      var r := StartBuildAsWritten(clientRev, kbfsRev, updateChannel, post);
      (r.StartPanicked? <==> Accepted(post(build)) && post(build).value.location.None?) &&
      (r.StartPanicked? ==> r.calls == [build, Control(true)]) &&
      (r.Started? ==> (r.reply, r.calls) == StartBuild(clientRev, kbfsRev, updateChannel, post))
  {
  }

  // Stopping a build.

  /** `getLastBuildAndQueueNumbers`: the latest build number and its queue id. */
  function LastBuildNumbers(post: Post): (r: Result<(int, int)>)
    ensures r.Ok? ==> post(LastBuild).Ok? && post(LastBuild).value.json.Ok?
    ensures r.Ok? <==> (post(LastBuild).Ok? && post(LastBuild).value.json.Ok? &&
                        post(LastBuild).value.json.value.number.Some? && post(LastBuild).value.json.value.queueId.Some?)
    ensures r.Ok? ==>
      r.value == (post(LastBuild).value.json.value.number.value, post(LastBuild).value.json.value.queueId.value)
    ensures post(LastBuild).Err? ==> r == Err(post(LastBuild).msg)
    ensures post(LastBuild).Ok? && post(LastBuild).value.json.Err? ==> r == Err(post(LastBuild).value.json.msg)
    ensures (post(LastBuild).Ok? && post(LastBuild).value.json.Ok? &&
             post(LastBuild).value.json.value.queueId.None?) ==>
      r == Err("No queueId in current build --- " + post(LastBuild).value.json.value.printed)
    ensures (post(LastBuild).Ok? && post(LastBuild).value.json.Ok? &&
             post(LastBuild).value.json.value.queueId.Some? && post(LastBuild).value.json.value.number.None?) ==>
      r == Err("No number in current build --- " + post(LastBuild).value.json.value.printed)
  {
    match post(LastBuild)
    case Err(m) => Err(m)
    case Ok(resp) =>
      match resp.json
      case Err(m) => Err(m)
      case Ok(j) =>
        if j.queueId.None? then Err("No queueId in current build --- " + j.printed)
        else if j.number.None? then Err("No number in current build --- " + j.printed)
        else Ok((j.number.value, j.queueId.value))
  }

  /** `getJSON`: the decoded build description, or the error of the request
      or of decoding its body. */
  function GetJSON(r: Result<Response>): (j: Result<BuildJson>)
    ensures j.Ok? <==> r.Ok? && r.value.json.Ok?
    ensures j.Ok? ==> j == r.value.json
    ensures r.Err? ==> j == Err(r.msg)
    ensures r.Ok? ==> j == r.value.json
  {
    match r
    case Err(m) => Err(m)
    case Ok(resp) => resp.json
  }

  /** Where the walk down the builds ended: the build and its queue id, or the
      error of a lookup; with the lookups made. */
  datatype Walk =
    | Walked(build: int, queue: int, calls: seq<Call>)
    | WalkFailed(msg: string, calls: seq<Call>)

  function Prefixed(cs: seq<Call>, w: Walk): Walk
  {
    match w
    case Walked(b, q, c) => Walked(b, q, cs + c)
    case WalkFailed(m, c) => WalkFailed(m, cs + c)
  }

  /** The walk from `build` (whose queue id is `queue`) down towards the build
      that `started` queued, with at most `lookups` more lookups. A build
      description without a queue id keeps the previous one. */
  function WalkBack(started: int, build: int, queue: int, lookups: nat, post: Post): Walk
    decreases lookups
  {
    if lookups == 0 || queue <= started then Walked(build, queue, [])
    else
      var b := build - 1;
      match GetJSON(post(BuildInfo(b)))
      case Err(m) => WalkFailed(m, [BuildInfo(b)])
      case Ok(j) =>
        Prefixed([BuildInfo(b)], WalkBack(started, b, NextQueue(j, queue), lookups - 1, post))
  }

  /** How many builds below the latest one StopBuild looks at, at most. */
  const MaxLookups: nat := 10

  /** `StopBuild` as a function of the server's replies: the error returned and the calls made. */
  function StopBuildSpec(queueEntry: string, post: Post): (Option<string>, seq<Call>)
  {
    if queueEntry == "" then (PostErr(post(Control(false))), [Control(false)])
    else
      var c0 := [Control(false), CancelItem(queueEntry)];
      if CallErr(post(CancelItem(queueEntry))).Some? then (CallErr(post(CancelItem(queueEntry))), c0)
      else match Atoi(queueEntry)
        case Err(m) => (Some(m), c0)
        case Ok(started) =>
          var c1 := c0 + [LastBuild];
          match LastBuildNumbers(post)
          case Err(m) => (Some(m), c1)
          case Ok(numbers) =>
            match WalkBack(started, numbers.0, numbers.1, MaxLookups, post)
            case WalkFailed(m, cs) => (Some(m), c1 + cs)
            case Walked(b, q, cs) =>
              if q == started then (CallErr(post(Stop(b))), c1 + cs + [Stop(b)])
              else (None, c1 + cs)
  }

  /** `StopBuild`: disables the job; given a queue entry, also cancels it in
      the queue and stops the build it started, found by walking down at most
      ten builds from the latest. */
  method StopBuild(queueEntry: string, post: Post) returns (err: Option<string>, calls: seq<Call>)
    ensures (err, calls) == StopBuildSpec(queueEntry, post)
  {
    err := PostErr(post(Control(false)));
    calls := [Control(false)];
    if queueEntry == "" {
      return;
    }
    calls := [Control(false), CancelItem(queueEntry)];
    err := CallErr(post(CancelItem(queueEntry)));
    if err.Some? {
      return;
    }
    var parsed := Atoi(queueEntry);
    if parsed.Err? {
      err := Some(parsed.msg);
      return;
    }
    var startedQ := parsed.value;
    calls := calls + [LastBuild];
    var last := LastBuildNumbers(post);
    if last.Err? {
      err := Some(last.msg);
      return;
    }
    var walk := WalkDown(startedQ, last.value.0, last.value.1, post);
    calls := calls + walk.calls;
    match walk {
      case WalkFailed(m, _) =>
        err := Some(m);
      case Walked(currentBuild, currentQ, _) =>
        err := None;
        if currentQ == startedQ {
          calls := calls + [Stop(currentBuild)];
          err := CallErr(post(Stop(currentBuild)));
        }
    }
  }

  /** StopBuild's loop: checks the builds below the latest one, at most ten,
      until one was queued no later than the entry. */
  method WalkDown(startedQ: int, latestBuild: int, latestQ: int, post: Post) returns (w: Walk)
    ensures w == WalkBack(startedQ, latestBuild, latestQ, MaxLookups, post)
  {
    var currentBuild, currentQ := latestBuild, latestQ;
    var walked: seq<Call> := [];
    var i := 0;
    assert walked + [] == walked;
    while i < MaxLookups && currentQ > startedQ
      invariant 0 <= i <= MaxLookups
      invariant WalkBack(startedQ, latestBuild, latestQ, MaxLookups, post) ==
        Prefixed(walked, WalkBack(startedQ, currentBuild, currentQ, MaxLookups - i, post))
    {
      WalkOn(startedQ, latestBuild, latestQ, post, walked, currentBuild, currentQ, MaxLookups - i);
      currentBuild := currentBuild - 1;
      var json := GetJSON(post(BuildInfo(currentBuild)));
      if json.Err? {
        return WalkFailed(json.msg, walked + [BuildInfo(currentBuild)]);
      }
      currentQ := NextQueue(json.value, currentQ);
      walked := walked + [BuildInfo(currentBuild)];
      i := i + 1;
    }
    WalkEnd(startedQ, latestBuild, latestQ, post, walked, currentBuild, currentQ, MaxLookups - i);
    w := Walked(currentBuild, currentQ, walked);
  }

  /** The queue id the walk carries on with: the build's own, or the previous
      one when its description has none. */
  function NextQueue(j: BuildJson, queue: int): (q: int)
    ensures j.queueId.Some? ==> q == j.queueId.value
    ensures j.queueId.None? ==> q == queue
  {
    if j.queueId.Some? then j.queueId.value else queue
  }

  /** One turn of `WalkDown`'s loop keeps the walk equal to the calls made so
      far followed by the rest of the walk. */
  lemma WalkOn(started: int, latestBuild: int, latestQ: int, post: Post,
               walked: seq<Call>, build: int, queue: int, left: nat)
    requires left > 0 && queue > started
    requires WalkBack(started, latestBuild, latestQ, MaxLookups, post) ==
      Prefixed(walked, WalkBack(started, build, queue, left, post))
    ensures var json := GetJSON(post(BuildInfo(build - 1)));
      var whole := WalkBack(started, latestBuild, latestQ, MaxLookups, post);
      (json.Err? ==> whole == WalkFailed(json.msg, walked + [BuildInfo(build - 1)])) &&
      (json.Ok? ==> whole == Prefixed(walked + [BuildInfo(build - 1)],
                                      WalkBack(started, build - 1, NextQueue(json.value, queue), left - 1, post)))
  {
    WalkBackStep(started, build, queue, left, post);
    var json := GetJSON(post(BuildInfo(build - 1)));
    if json.Ok? {
      PrefixedTwice(walked, [BuildInfo(build - 1)],
                    WalkBack(started, build - 1, NextQueue(json.value, queue), left - 1, post));
    }
  }

  /** When `WalkDown`'s loop stops, the rest of the walk is empty. */
  lemma WalkEnd(started: int, latestBuild: int, latestQ: int, post: Post,
                walked: seq<Call>, build: int, queue: int, left: nat)
    requires left == 0 || queue <= started
    requires WalkBack(started, latestBuild, latestQ, MaxLookups, post) ==
      Prefixed(walked, WalkBack(started, build, queue, left, post))
    ensures WalkBack(started, latestBuild, latestQ, MaxLookups, post) == Walked(build, queue, walked)
  {
    assert walked + [] == walked;
  }

  /** One step of the walk: the lookup of the build below `build`. */
  lemma WalkBackStep(started: int, build: int, queue: int, lookups: nat, post: Post)
    requires lookups > 0 && queue > started
    ensures var r := GetJSON(post(BuildInfo(build - 1)));
      var w := WalkBack(started, build, queue, lookups, post);
      (r.Err? ==> w == WalkFailed(r.msg, [BuildInfo(build - 1)])) &&
      (r.Ok? ==> w == Prefixed([BuildInfo(build - 1)], WalkBack(started, build - 1, NextQueue(r.value, queue), lookups - 1, post)))
  {
  }

  lemma PrefixedTwice(a: seq<Call>, b: seq<Call>, w: Walk)
    ensures Prefixed(a, Prefixed(b, w)) == Prefixed(a + b, w)
  {
    assert forall c: seq<Call> :: a + (b + c) == (a + b) + c;
  }

  /** Without a queue entry, StopBuild only disables the job. */
  lemma StopBuildWithoutEntry(post: Post)
    ensures StopBuildSpec("", post) == (PostErr(post(Control(false))), [Control(false)])
  {
  }

  /** A queue entry that is not a number ends StopBuild with the conversion
      error, after the cancel and before any build lookup. */
  lemma StopBuildBadEntry(queueEntry: string, post: Post)
    requires queueEntry != "" && CallErr(post(CancelItem(queueEntry))).None? && Atoi(queueEntry).Err?
    ensures StopBuildSpec(queueEntry, post) ==
      (Some(Atoi(queueEntry).msg), [Control(false), CancelItem(queueEntry)])
  {
  }

  /** The walk looks up consecutive builds below the starting one, at most
      `lookups` of them, and only stops early once the queue id is no longer
      above the one started. */
  lemma {:induction false} WalkBackShape(started: int, build: int, queue: int, lookups: nat, post: Post)
    ensures var w := WalkBack(started, build, queue, lookups, post);
      |w.calls| <= lookups &&
      (forall i :: 0 <= i < |w.calls| ==> w.calls[i] == BuildInfo(build - 1 - i)) &&
      (w.Walked? ==> w.build == build - |w.calls| && (w.queue <= started || |w.calls| == lookups)) &&
      (w.WalkFailed? ==> |w.calls| >= 1)
    decreases lookups
  {
    if lookups > 0 && queue > started {
      var b := build - 1;
      if GetJSON(post(BuildInfo(b))).Ok? {
        WalkBackShape(started, b, NextQueue(GetJSON(post(BuildInfo(b))).value, queue), lookups - 1, post);
      }
    }
  }

  /** The walk has started at the queue entry's build when it ended on it. */
  predicate FoundStartedBuild(queueEntry: string, post: Post)
  {
    queueEntry != "" && CallErr(post(CancelItem(queueEntry))).None? && Atoi(queueEntry).Ok? &&
    LastBuildNumbers(post).Ok? &&
    var w := WalkBack(Atoi(queueEntry).value, LastBuildNumbers(post).value.0, LastBuildNumbers(post).value.1, MaxLookups, post);
    w.Walked? && w.queue == Atoi(queueEntry).value
  }

  /** The calls StopBuild makes once it knows the latest build: the three
      preliminary calls, the walk's lookups, and a stop exactly when the walk
      ended on the queue entry's build. */
  lemma StopBuildTrace(queueEntry: string, post: Post)
    requires queueEntry != "" && CallErr(post(CancelItem(queueEntry))).None? && Atoi(queueEntry).Ok?
    requires LastBuildNumbers(post).Ok?
    ensures var started := Atoi(queueEntry).value;
      var w := WalkBack(started, LastBuildNumbers(post).value.0, LastBuildNumbers(post).value.1, MaxLookups, post);
      var c1 := [Control(false), CancelItem(queueEntry), LastBuild];
      StopBuildSpec(queueEntry, post).1 ==
        if w.Walked? && w.queue == started then c1 + w.calls + [Stop(w.build)] else c1 + w.calls
  {
    var c1 := [Control(false), CancelItem(queueEntry), LastBuild];
    assert [Control(false), CancelItem(queueEntry)] + [LastBuild] == c1;
  }

  /** StopBuild stops a build exactly when the walk found the build whose queue
      id is the entry, and then it stops that build and no other; it never
      makes more than fourteen calls. */
  lemma StopOnlyStartedBuild(queueEntry: string, post: Post)
    ensures var calls := StopBuildSpec(queueEntry, post).1;
      ((exists b :: Stop(b) in calls) <==> FoundStartedBuild(queueEntry, post)) &&
      (FoundStartedBuild(queueEntry, post) ==>
        var w := WalkBack(Atoi(queueEntry).value, LastBuildNumbers(post).value.0, LastBuildNumbers(post).value.1, MaxLookups, post);
        calls[|calls| - 1] == Stop(w.build)) &&
      |calls| <= 14
  {
    var calls := StopBuildSpec(queueEntry, post).1;
    if queueEntry != "" && CallErr(post(CancelItem(queueEntry))).None? && Atoi(queueEntry).Ok? && LastBuildNumbers(post).Ok? {
      var numbers := LastBuildNumbers(post).value;
      var started := Atoi(queueEntry).value;
      WalkBackShape(started, numbers.0, numbers.1, MaxLookups, post);
      var w := WalkBack(started, numbers.0, numbers.1, MaxLookups, post);
      StopBuildTrace(queueEntry, post);
      var c1 := [Control(false), CancelItem(queueEntry), LastBuild];
      if w.Walked? && w.queue == started {
        assert calls == c1 + w.calls + [Stop(w.build)];
        assert calls[|calls| - 1] == Stop(w.build);
      } else {
        assert calls == c1 + w.calls;
        forall b ensures Stop(b) !in calls {
          forall k | 0 <= k < |calls| ensures calls[k] != Stop(b) {
            if k >= 3 {
              assert calls[k] == w.calls[k - 3];
            }
          }
        }
      }
    } else {
      assert |calls| <= 3;
      forall b ensures Stop(b) !in calls {
        forall k | 0 <= k < |calls| ensures calls[k] != Stop(b) {
        }
      }
    }
  }

  // Requests refused by `doJenkinsPost`.

  /** With a failed crumb or a missing credential, the build request is
      refused before it reaches the server: the refusal is the reply's text
      and error, and the job is not re-enabled. */
  lemma StartBuildRefused(clientRev: string, kbfsRev: string, updateChannel: string,
                          crumb: CrumbResult, name: string, password: string, server: Call -> Result<Response>)
    requires crumb.err.Some? || name == "" || password == ""
    ensures var e := RefusalError(crumb);
      StartBuild(clientRev, kbfsRev, updateChannel, CrumbedPost(crumb, name, password, server)) ==
        (Reply(e, Some(e)), [BuildWithParameters(StartBuildQuery(clientRev, kbfsRev, updateChannel))])
  {
  }

  /** With a failed crumb or a missing credential, stopping a build ends at
      the first request whose error is not ignored: the disable alone without
      a queue entry, otherwise the cancel of that entry. */
  lemma StopBuildRefused(queueEntry: string, crumb: CrumbResult, name: string, password: string,
                         server: Call -> Result<Response>)
    requires crumb.err.Some? || name == "" || password == ""
    ensures StopBuildSpec(queueEntry, CrumbedPost(crumb, name, password, server)) ==
      (Some(RefusalError(crumb)),
       if queueEntry == "" then [Control(false)] else [Control(false), CancelItem(queueEntry)])
  {
  }
}
