/**
  The heartbeat lifecycle controller. Each operation is a method of `Client`,
  whose two fields record what the process does to the outside world: the
  requests it sends to the service, in order, and the lines it writes to the
  operator's log. The service's answers are parameters (one `Reply` per
  request), so every postcondition holds whatever the service answers.
  The functions after the class give each operation's trace; the lemmas
  state the lifecycle rules about those traces.
 */
module Controller {
  import opened Wrappers
  import opened Arguments
  import opened Payloads
  import opened Responses
  import Urls

  datatype Method = GET | POST | DELETE

  /**
    One request: HTTP method, path suffix, query parameters and JSON body
    (`None` for Go's nil map). The URL sent is `Urls.UrlOf(path, query)`.
   */
  datatype Request = Request(verb: Method, path: string, query: Query, content: Option<Payload>)

  const FetchPath := "/v1/json/heartbeat/"
  const CreatePath := "/v1/json/heartbeat/"
  const UpdatePath := "/v1/json/heartbeat"
  const SendPath := "/v1/json/heartbeat/send"
  const DisablePath := "/v1/json/heartbeat/disable"
  const DeletePath := "/v1/json/heartbeat"

  /** A line in the operator's log. */
  datatype Report = Info(text: string) | ErrorLine(fault: Fault)

  function AddedText(name: string): string { "Successfully added heartbeat [" + name + "]" }
  function UpdatedText(name: string): string { "Successfully enabled and updated heartbeat [" + name + "]" }
  function SentText(name: string): string { "Successfully sent heartbeat [" + name + "]" }
  function DeletedText(name: string): string { "Successfully deleted heartbeat [" + name + "]" }
  function DisabledText(name: string): string { "Successfully disabled heartbeat [" + name + "]" }
  function RetrievedText(name: string): string { "Successfully retrieved heartbeat [" + name + "]" }
  function AbsentText(name: string): string { "Heartbeat [" + name + "] doesn't exist" }

  /** The log line a handled request leaves: its success message, or the error it swallowed. */
  function Handled(reply: Reply, text: string): (r: Report)
    ensures r.Info? <==> DoOpsGenieHTTPRequest(reply).Success?
    ensures r.Info? ==> r.text == text
    ensures r.ErrorLine? ==> r.fault == DoOpsGenieHTTPRequest(reply).error
  {
    match DoOpsGenieHTTPRequest(reply)
    case Success(_) => Info(text)
    case Failure(f) => ErrorLine(f)
  }

  function FetchRequest(args: OpsArgs): Request { Request(GET, FetchPath, MandatoryQuery(args), None) }
  function CreateRequest(args: OpsArgs): Request { Request(POST, CreatePath, map[], Some(AllContent(args))) }
  function UpdateRequest(args: OpsArgs, h: Heartbeat): Request { Request(POST, UpdatePath, map[], Some(UpdateContent(args, h.id))) }
  function SendRequest(args: OpsArgs): Request { Request(POST, SendPath, map[], Some(MandatoryContent(args))) }
  function DisableRequest(args: OpsArgs): Request { Request(POST, DisablePath, map[], Some(MandatoryContent(args))) }
  function DeleteRequest(args: OpsArgs): Request { Request(DELETE, DeletePath, MandatoryQuery(args), None) }

  /** The service's answers to one run of a command, in the order its requests are sent. */
  datatype Replies = Replies(fetch: Reply, write: Reply, send: Reply, ticks: seq<Reply>)

  class Client {
    /** Every request sent, oldest first. */
    var requests: seq<Request>
    /** Every line logged, oldest first. */
    var reports: seq<Report>

    constructor ()
      ensures requests == [] && reports == []
    {
      requests := [];
      reports := [];
    }

    /** Sends one request and logs the outcome; an error never reaches the caller. */
    method DoOpsGenieHTTPRequestHandled(m: Method, suffix: string, query: Query, content: Option<Payload>,
                                        text: string, reply: Reply)
      modifies this
      ensures requests == old(requests) + [Request(m, suffix, query, content)]
      ensures reports == old(reports) + [Handled(reply, text)]
    {
      requests := requests + [Request(m, suffix, query, content)];
      var result := DoOpsGenieHTTPRequest(reply);
      if result.Failure? {
        reports := reports + [ErrorLine(result.error)];
      } else {
        reports := reports + [Info(text)];
      }
    }

    /**
      Fetches the heartbeat named in `args`; the reply decides found, absent
      or error. Found and absent are logged here, an error is left to the caller.
     */
    method GetHeartbeat(args: OpsArgs, reply: Reply) returns (r: Result<Option<Heartbeat>, Fault>)
      modifies this
      ensures requests == old(requests) + [FetchRequest(args)]
      ensures reports == old(reports) + FetchReports(args, reply)
      ensures r == FetchResult(reply)
    {
      var query := MandatoryRequestParams(args);
      requests := requests + [Request(GET, FetchPath, query, None)];
      r := FetchResult(reply);
      if r.Success? && r.value.None? {
        reports := reports + [Info(AbsentText(args.name))];
      } else if r.Success? {
        reports := reports + [Info(RetrievedText(args.name))];
      }
    }

    method AddHeartbeat(args: OpsArgs, reply: Reply)
      modifies this
      ensures requests == old(requests) + [CreateRequest(args)]
      ensures reports == old(reports) + [Handled(reply, AddedText(args.name))]
    {
      var content := AllContentParams(args);
      DoOpsGenieHTTPRequestHandled(POST, CreatePath, map[], Some(content), AddedText(args.name), reply);
    }

    method UpdateHeartbeatWithEnabledTrue(args: OpsArgs, heartbeat: Heartbeat, reply: Reply)
      modifies this
      ensures requests == old(requests) + [UpdateRequest(args, heartbeat)]
      ensures reports == old(reports) + [Handled(reply, UpdatedText(args.name))]
    {
      var content := UpdateContentParams(args, heartbeat.id);
      DoOpsGenieHTTPRequestHandled(POST, UpdatePath, map[], Some(content), UpdatedText(args.name), reply);
    }

    method SendHeartbeat(args: OpsArgs, reply: Reply)
      modifies this
      ensures requests == old(requests) + [SendRequest(args)]
      ensures reports == old(reports) + [Handled(reply, SentText(args.name))]
    {
      var content := MandatoryContentParams(args);
      DoOpsGenieHTTPRequestHandled(POST, SendPath, map[], Some(content), SentText(args.name), reply);
    }

    /**
      The send loop after `|ticks|` ticks of its timer, one reply per tick.
      The timer first fires one interval after the loop starts, so nothing
      is sent before the first tick. A non-positive interval gives no timer
      at all: the loop waits forever and sends nothing.
     */
    method SendHeartbeatLoop(args: OpsArgs, ticks: seq<Reply>)
      modifies this
      ensures requests == old(requests) + LoopRequests(args, |Fired(args, ticks)|)
      ensures reports == old(reports) + LoopReports(args, Fired(args, ticks))
    {
      if args.loopInterval <= 0 {
        return;
      }
      for i := 0 to |ticks|
        invariant requests == old(requests) + LoopRequests(args, i)
        invariant reports == old(reports) + LoopReports(args, ticks[..i])
      {
        SendHeartbeat(args, ticks[i]);
        assert LoopRequests(args, i + 1) == LoopRequests(args, i) + [SendRequest(args)];
        assert ticks[..i + 1] == ticks[..i] + [ticks[i]];
        assert LoopReports(args, ticks[..i + 1]) == LoopReports(args, ticks[..i]) + [Handled(ticks[i], SentText(args.name))];
      }
      assert ticks[..|ticks|] == ticks;
    }

    /** Creates the heartbeat when absent, updates and re-enables it when found, and only logs a failed fetch. */
    method StartHeartbeat(args: OpsArgs, fetch: Reply, write: Reply)
      modifies this
      ensures requests == old(requests) + StartRequests(args, fetch)
      ensures reports == old(reports) + StartReports(args, fetch, write)
    {
      var heartbeat := GetHeartbeat(args, fetch);
      if heartbeat.Failure? {
        reports := reports + [ErrorLine(heartbeat.error)];
      } else if heartbeat.value.None? {
        AddHeartbeat(args, write);
      } else {
        UpdateHeartbeatWithEnabledTrue(args, heartbeat.value.value, write);
      }
    }

    method StartHeartbeatAndSend(args: OpsArgs, fetch: Reply, write: Reply, send: Reply)
      modifies this
      ensures requests == old(requests) + StartRequests(args, fetch) + [SendRequest(args)]
      ensures reports == old(reports) + StartReports(args, fetch, write) + [Handled(send, SentText(args.name))]
    {
      StartHeartbeat(args, fetch, write);
      SendHeartbeat(args, send);
    }

    /** Starts the heartbeat, then runs the send loop for `|ticks|` ticks. */
    method StartHeartbeatLoop(args: OpsArgs, fetch: Reply, write: Reply, ticks: seq<Reply>)
      modifies this
      ensures requests == old(requests) + StartRequests(args, fetch) + LoopRequests(args, |Fired(args, ticks)|)
      ensures reports == old(reports) + StartReports(args, fetch, write) + LoopReports(args, Fired(args, ticks))
    {
      StartHeartbeat(args, fetch, write);
      SendHeartbeatLoop(args, ticks);
    }

    method StopHeartbeat(args: OpsArgs, reply: Reply)
      modifies this
      ensures requests == old(requests) + StopRequests(args)
      ensures reports == old(reports) + StopReports(args, reply)
    {
      if args.delete {
        DeleteHeartbeat(args, reply);
      } else {
        DisableHeartbeat(args, reply);
      }
    }

    method DeleteHeartbeat(args: OpsArgs, reply: Reply)
      modifies this
      ensures requests == old(requests) + [DeleteRequest(args)]
      ensures reports == old(reports) + [Handled(reply, DeletedText(args.name))]
    {
      var query := MandatoryRequestParams(args);
      DoOpsGenieHTTPRequestHandled(DELETE, DeletePath, query, None, DeletedText(args.name), reply);
    }

    method DisableHeartbeat(args: OpsArgs, reply: Reply)
      modifies this
      ensures requests == old(requests) + [DisableRequest(args)]
      ensures reports == old(reports) + [Handled(reply, DisabledText(args.name))]
    {
      var content := MandatoryContentParams(args);
      DoOpsGenieHTTPRequestHandled(POST, DisablePath, map[], Some(content), DisabledText(args.name), reply);
    }

    /**
      Runs a command: validates its flag values and, when they pass, performs
      the command's operation. A refused configuration sends nothing and logs
      nothing here; the refusal message is the result. The flag values are
      those a context for `cmd` can return: a flag the command does not
      declare reads as its zero value.
     */
    method Run(cmd: Command, c: Context, replies: Replies) returns (r: Result<OpsArgs, string>)
      requires FitsFlags(cmd, c)
      modifies this
      ensures r == ExtractArgs(c)
      ensures r.Failure? ==> requests == old(requests) && reports == old(reports)
      ensures r.Success? ==> requests == old(requests) + ActionRequests(cmd.action, r.value, replies)
      ensures r.Success? ==> reports == old(reports) + ActionReports(cmd.action, r.value, replies)
    {
      r := ExtractArgs(c);
      if r.Success? {
        var args := r.value;
        match cmd.action
        case StartHeartbeatAndSend =>
          StartHeartbeatAndSend(args, replies.fetch, replies.write, replies.send);
        case StartHeartbeatLoop =>
          StartHeartbeatLoop(args, replies.fetch, replies.write, replies.ticks);
        case StopHeartbeat =>
          StopHeartbeat(args, replies.write);
        case SendHeartbeat =>
          SendHeartbeat(args, replies.send);
        case SendHeartbeatLoop =>
          SendHeartbeatLoop(args, replies.ticks);
      }
    }
  }

  /** The requests of a start: the fetch, then a create, an update or nothing. */
  function StartRequests(args: OpsArgs, fetch: Reply): seq<Request> {
    [FetchRequest(args)]
    + match FetchResult(fetch)
      case Failure(_) => []
      case Success(None) => [CreateRequest(args)]
      case Success(Some(h)) => [UpdateRequest(args, h)]
  }

  /** The lines the fetch itself logs: one for a found or an absent heartbeat, none for an error. */
  function FetchReports(args: OpsArgs, fetch: Reply): seq<Report> {
    match FetchResult(fetch)
    case Failure(_) => []
    case Success(None) => [Info(AbsentText(args.name))]
    case Success(Some(_)) => [Info(RetrievedText(args.name))]
  }

  function StartReports(args: OpsArgs, fetch: Reply, write: Reply): seq<Report> {
    FetchReports(args, fetch)
    + match FetchResult(fetch)
      case Failure(f) => [ErrorLine(f)]
      case Success(None) => [Handled(write, AddedText(args.name))]
      case Success(Some(_)) => [Handled(write, UpdatedText(args.name))]
  }

  /**
    The ticks the loop's timer delivers: all of them for a positive interval,
    none otherwise (the timer does not exist and the loop blocks).
   */
  function Fired(args: OpsArgs, ticks: seq<Reply>): seq<Reply> {
    if args.loopInterval > 0 then ticks else []
  }

  function LoopRequests(args: OpsArgs, n: nat): seq<Request> {
    seq(n, _ => SendRequest(args))
  }

  function LoopReports(args: OpsArgs, ticks: seq<Reply>): seq<Report> {
    seq(|ticks|, i requires 0 <= i < |ticks| => Handled(ticks[i], SentText(args.name)))
  }

  function StopRequests(args: OpsArgs): seq<Request> {
    if args.delete then [DeleteRequest(args)] else [DisableRequest(args)]
  }

  function StopReports(args: OpsArgs, reply: Reply): seq<Report> {
    [Handled(reply, if args.delete then DeletedText(args.name) else DisabledText(args.name))]
  }

  /** The requests a command's operation sends. */
  function ActionRequests(action: Action, args: OpsArgs, replies: Replies): seq<Request> {
    match action
    case StartHeartbeatAndSend => StartRequests(args, replies.fetch) + [SendRequest(args)]
    case StartHeartbeatLoop => StartRequests(args, replies.fetch) + LoopRequests(args, |Fired(args, replies.ticks)|)
    case StopHeartbeat => StopRequests(args)
    case SendHeartbeat => [SendRequest(args)]
    case SendHeartbeatLoop => LoopRequests(args, |Fired(args, replies.ticks)|)
  }

  function ActionReports(action: Action, args: OpsArgs, replies: Replies): seq<Report> {
    match action
    case StartHeartbeatAndSend => StartReports(args, replies.fetch, replies.write) + [Handled(replies.send, SentText(args.name))]
    case StartHeartbeatLoop => StartReports(args, replies.fetch, replies.write) + LoopReports(args, Fired(args, replies.ticks))
    case StopHeartbeat => StopReports(args, replies.write)
    case SendHeartbeat => [Handled(replies.send, SentText(args.name))]
    case SendHeartbeatLoop => LoopReports(args, Fired(args, replies.ticks))
  }

  /** The operations of the service's heartbeat API, told apart by method and path. */
  datatype Op = Fetch | Create | Update | Send | Disable | Delete | Other

  function OpOf(r: Request): Op {
    match r.verb
    case GET => if r.path == FetchPath then Fetch else Other
    case POST =>
      if r.path == CreatePath then Create
      else if r.path == UpdatePath then Update
      else if r.path == SendPath then Send
      else if r.path == DisablePath then Disable
      else Other
    case DELETE => if r.path == DeletePath then Delete else Other
  }

  /** How many of `rs` are requests for `op`. */
  function Count(rs: seq<Request>, op: Op): nat {
    if rs == [] then 0
    else Count(rs[..|rs| - 1], op) + (if OpOf(rs[|rs| - 1]) == op then 1 else 0)
  }

  lemma {:induction false} CountAppend(a: seq<Request>, b: seq<Request>, op: Op)
    ensures Count(a + b, op) == Count(a, op) + Count(b, op)
    decreases |b|
  {
    if b != [] {
      var b' := b[..|b| - 1];
      assert (a + b)[..|a + b| - 1] == a + b';
      assert (a + b)[|a + b| - 1] == b[|b| - 1];
      CountAppend(a, b', op);
      assert Count(b, op) == Count(b', op) + (if OpOf(b[|b| - 1]) == op then 1 else 0);
    } else {
      assert a + b == a;
    }
  }

  lemma CountOne(r: Request, op: Op)
    ensures Count([r], op) == if OpOf(r) == op then 1 else 0
  {
    assert [r][..0] == [];
  }

  /** Each request builder addresses the operation it is named after. */
  lemma RequestsAddressTheirOperation(args: OpsArgs, h: Heartbeat)
    ensures OpOf(FetchRequest(args)) == Fetch && OpOf(CreateRequest(args)) == Create
    ensures OpOf(UpdateRequest(args, h)) == Update && OpOf(SendRequest(args)) == Send
    ensures OpOf(DisableRequest(args)) == Disable && OpOf(DeleteRequest(args)) == Delete
  {
  }

  /** A fetch that fails creates nothing and updates nothing; the failure is logged. */
  lemma StartAfterFailedFetch(args: OpsArgs, fetch: Reply, write: Reply)
    requires FetchResult(fetch).Failure?
    ensures StartRequests(args, fetch) == [FetchRequest(args)]
    ensures Count(StartRequests(args, fetch), Create) == 0 && Count(StartRequests(args, fetch), Update) == 0
    ensures StartReports(args, fetch, write) == [ErrorLine(FetchResult(fetch).error)]
  {
    CountOne(FetchRequest(args), Create);
    CountOne(FetchRequest(args), Update);
  }

  /** An absent heartbeat is created once, with the full content, and not updated. */
  lemma StartWhenAbsent(args: OpsArgs, fetch: Reply, write: Reply)
    requires FetchResult(fetch) == Success(None)
    ensures StartRequests(args, fetch) == [FetchRequest(args), CreateRequest(args)]
    ensures StartReports(args, fetch, write) == [Info(AbsentText(args.name)), Handled(write, AddedText(args.name))]
    ensures Count(StartRequests(args, fetch), Create) == 1 && Count(StartRequests(args, fetch), Update) == 0
    ensures CreateRequest(args) == Request(POST, "/v1/json/heartbeat/", map[], Some(AllContent(args)))
  {
    var rs := StartRequests(args, fetch);
    assert rs == [FetchRequest(args)] + [CreateRequest(args)];
    CountAppend([FetchRequest(args)], [CreateRequest(args)], Create);
    CountAppend([FetchRequest(args)], [CreateRequest(args)], Update);
    CountOne(FetchRequest(args), Create);
    CountOne(FetchRequest(args), Update);
    CountOne(CreateRequest(args), Create);
    CountOne(CreateRequest(args), Update);
  }

  /**
    A found heartbeat is updated once, with its remote id and enabled = true
    added to the full content, and not created again.
   */
  lemma StartWhenFound(args: OpsArgs, fetch: Reply, write: Reply, h: Heartbeat)
    requires FetchResult(fetch) == Success(Some(h))
    ensures StartRequests(args, fetch) == [FetchRequest(args), UpdateRequest(args, h)]
    ensures StartReports(args, fetch, write) == [Info(RetrievedText(args.name)), Handled(write, UpdatedText(args.name))]
    ensures Count(StartRequests(args, fetch), Update) == 1 && Count(StartRequests(args, fetch), Create) == 0
    ensures UpdateRequest(args, h).verb == POST && UpdateRequest(args, h).path == "/v1/json/heartbeat"
    ensures var body := UpdateRequest(args, h).content.value;
            body["id"] == Str(h.id) && body["enabled"] == Bool(true)
            && body - {"id", "enabled"} == AllContent(args)
  {
    var rs := StartRequests(args, fetch);
    assert rs == [FetchRequest(args)] + [UpdateRequest(args, h)];
    CountAppend([FetchRequest(args)], [UpdateRequest(args, h)], Create);
    CountAppend([FetchRequest(args)], [UpdateRequest(args, h)], Update);
    CountOne(FetchRequest(args), Create);
    CountOne(FetchRequest(args), Update);
    CountOne(UpdateRequest(args, h), Create);
    CountOne(UpdateRequest(args, h), Update);
    UpdateContentShape(args, h.id);
  }

  /** A start writes at most once: never both a create and an update. */
  lemma StartWritesAtMostOnce(args: OpsArgs, fetch: Reply)
    ensures Count(StartRequests(args, fetch), Create) + Count(StartRequests(args, fetch), Update) <= 1
    ensures Count(StartRequests(args, fetch), Fetch) == 1
  {
    var rs := StartRequests(args, fetch);
    var tail := rs[1..];
    assert rs == [FetchRequest(args)] + tail;
    CountAppend([FetchRequest(args)], tail, Create);
    CountAppend([FetchRequest(args)], tail, Update);
    CountAppend([FetchRequest(args)], tail, Fetch);
    CountOne(FetchRequest(args), Create);
    CountOne(FetchRequest(args), Update);
    CountOne(FetchRequest(args), Fetch);
    if tail != [] {
      CountOne(tail[0], Create);
      CountOne(tail[0], Update);
      CountOne(tail[0], Fetch);
      assert tail == [tail[0]];
    }
  }

  /** Whatever the fetch and the write answered, the start command ends with exactly one send. */
  lemma StartAndSendEndsWithSend(args: OpsArgs, replies: Replies)
    ensures var rs := ActionRequests(StartHeartbeatAndSend, args, replies);
            && rs[|rs| - 1] == Request(POST, "/v1/json/heartbeat/send", map[], Some(MandatoryContent(args)))
            && Count(rs, Send) == 1
  {
    var start := StartRequests(args, replies.fetch);
    StartSendsNothing(args, replies.fetch);
    CountAppend(start, [SendRequest(args)], Send);
    CountOne(SendRequest(args), Send);
  }

  lemma StartSendsNothing(args: OpsArgs, fetch: Reply)
    ensures Count(StartRequests(args, fetch), Send) == 0
    ensures Count(StartRequests(args, fetch), Delete) == 0
    ensures Count(StartRequests(args, fetch), Disable) == 0
  {
    var rs := StartRequests(args, fetch);
    var tail := rs[1..];
    assert rs == [FetchRequest(args)] + tail;
    forall op | op in {Send, Delete, Disable}
      ensures Count(rs, op) == 0
    {
      CountAppend([FetchRequest(args)], tail, op);
      CountOne(FetchRequest(args), op);
      if tail != [] {
        CountOne(tail[0], op);
        assert tail == [tail[0]];
      }
    }
  }

  /** `n` ticks of the send loop send exactly `n` heartbeats and nothing else. */
  lemma {:induction false} LoopSendsOncePerTick(args: OpsArgs, n: nat)
    ensures Count(LoopRequests(args, n), Send) == n
    ensures forall op :: op != Send ==> Count(LoopRequests(args, n), op) == 0
  {
    if n > 0 {
      LoopSendsOncePerTick(args, n - 1);
      assert LoopRequests(args, n)[..n - 1] == LoopRequests(args, n - 1);
    }
  }

  /** Stop deletes exactly when asked to, and otherwise disables; never both. */
  lemma StopDeletesOrDisables(args: OpsArgs)
    ensures Count(StopRequests(args), Delete) == (if args.delete then 1 else 0)
    ensures Count(StopRequests(args), Disable) == (if args.delete then 0 else 1)
    ensures args.delete ==> StopRequests(args) == [Request(DELETE, "/v1/json/heartbeat", MandatoryQuery(args), None)]
    ensures !args.delete ==> StopRequests(args) == [Request(POST, "/v1/json/heartbeat/disable", map[], Some(MandatoryContent(args)))]
  {
    CountOne(DeleteRequest(args), Delete);
    CountOne(DeleteRequest(args), Disable);
    CountOne(DisableRequest(args), Delete);
    CountOne(DisableRequest(args), Disable);
  }

  /** Only the stop command deletes or disables a heartbeat. */
  lemma OnlyStopRemoves(action: Action, args: OpsArgs, replies: Replies)
    requires action != StopHeartbeat
    ensures Count(ActionRequests(action, args, replies), Delete) == 0
    ensures Count(ActionRequests(action, args, replies), Disable) == 0
  {
    var start := StartRequests(args, replies.fetch);
    var loop := LoopRequests(args, |Fired(args, replies.ticks)|);
    StartSendsNothing(args, replies.fetch);
    LoopSendsOncePerTick(args, |Fired(args, replies.ticks)|);
    CountOne(SendRequest(args), Delete);
    CountOne(SendRequest(args), Disable);
    CountAppend(start, [SendRequest(args)], Delete);
    CountAppend(start, [SendRequest(args)], Disable);
    CountAppend(start, loop, Delete);
    CountAppend(start, loop, Disable);
  }

  /** The fetch addresses the heartbeat by query string, the key first and then the name. */
  lemma FetchUrl(args: OpsArgs)
    ensures Urls.UrlOf(FetchRequest(args).path, FetchRequest(args).query)
            == Urls.ApiURL + FetchPath + "?apiKey=" + args.apiKey + "&name=" + args.name
  {
    QueryUrl(args, FetchPath);
  }

  /** The delete addresses the heartbeat the same way, on the path without the trailing '/'. */
  lemma DeleteUrl(args: OpsArgs)
    ensures Urls.UrlOf(DeleteRequest(args).path, DeleteRequest(args).query)
            == Urls.ApiURL + DeletePath + "?apiKey=" + args.apiKey + "&name=" + args.name
  {
    QueryUrl(args, DeletePath);
  }

  lemma QueryUrl(args: OpsArgs, path: string)
    ensures Urls.UrlOf(path, MandatoryQuery(args)) == Urls.ApiURL + path + "?apiKey=" + args.apiKey + "&name=" + args.name
  {
    assert MandatoryQuery(args) == map["apiKey" := args.apiKey, "name" := args.name];
    Urls.UrlWithMandatoryQuery(path, args.apiKey, args.name);
  }

  /** The requests with a body carry no query, so their URL is the endpoint followed by the path alone. */
  lemma BodyRequestUrls(args: OpsArgs, h: Heartbeat)
    ensures Urls.UrlOf(CreateRequest(args).path, CreateRequest(args).query) == Urls.ApiURL + CreatePath
    ensures Urls.UrlOf(UpdateRequest(args, h).path, UpdateRequest(args, h).query) == Urls.ApiURL + UpdatePath
    ensures Urls.UrlOf(SendRequest(args).path, SendRequest(args).query) == Urls.ApiURL + SendPath
    ensures Urls.UrlOf(DisableRequest(args).path, DisableRequest(args).query) == Urls.ApiURL + DisablePath
  {
    Urls.UrlWithoutParams(CreatePath);
    Urls.UrlWithoutParams(UpdatePath);
    Urls.UrlWithoutParams(SendPath);
    Urls.UrlWithoutParams(DisablePath);
  }

  /** The loop commands send one heartbeat per tick when the interval is positive. */
  lemma LoopSendsWhenIntervalPositive(args: OpsArgs, replies: Replies)
    requires args.loopInterval > 0
    ensures Count(ActionRequests(SendHeartbeatLoop, args, replies), Send) == |replies.ticks|
    ensures ActionRequests(StartHeartbeatLoop, args, replies)
            == StartRequests(args, replies.fetch) + ActionRequests(SendHeartbeatLoop, args, replies)
  {
    LoopSendsOncePerTick(args, |replies.ticks|);
  }

  /**
    With a zero or negative loop interval no tick ever comes: the send loop
    sends and logs nothing, and the combined command does only its start.
   */
  lemma LoopSilentWhenIntervalNotPositive(args: OpsArgs, replies: Replies)
    requires args.loopInterval <= 0
    ensures ActionRequests(SendHeartbeatLoop, args, replies) == []
    ensures ActionReports(SendHeartbeatLoop, args, replies) == []
    ensures ActionRequests(StartHeartbeatLoop, args, replies) == StartRequests(args, replies.fetch)
    ensures ActionReports(StartHeartbeatLoop, args, replies) == StartReports(args, replies.fetch, replies.write)
  {
    assert ActionRequests(StartHeartbeatLoop, args, replies) == StartRequests(args, replies.fetch) + [];
    assert ActionReports(StartHeartbeatLoop, args, replies) == StartReports(args, replies.fetch, replies.write) + [];
  }
}
