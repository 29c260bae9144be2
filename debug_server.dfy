/**
 * The debug interface request handler: the request router, the three
 * single-flight probe slots, the report session and the live-log client list
 * with its log message handler.
 *
 * Processes, the report generator's archive build, the websocket transport and
 * the process-wide log handler are outside the handler; they appear here as
 * the values they hand back (a process's output, a build's result) and as
 * discrete events (a process finishing, a timer firing, a client connecting).
 */
module DebugServer {
  import opened Wrappers
  import opened DebugRouting

  // Probes ----------------------------------------------------------------

  /** A spawned probe process, identified by the command line it runs. */
  datatype Process = Process(program: string, arguments: seq<string>)

  /** The fixed command line of each probe: four echo requests, a DNS lookup, or a path trace, all to `nymea.io`. */
  function ProbeCommand(kind: ProbeKind): (p: Process)
    ensures |p.arguments| > 0 && p.arguments[|p.arguments| - 1] == "nymea.io"
    ensures kind == Ping <==> p.program == "ping"
    ensures kind == Ping ==> p.arguments == ["-c", "4", "nymea.io"]
    ensures kind == Dig <==> p.program == "dig"
    ensures kind == TracePath <==> p.program == "tracepath"
    ensures kind != Ping ==> p.arguments == ["nymea.io"]
  {
    match kind
    case Ping => Process("ping", ["-c", "4", "nymea.io"])
    case Dig => Process("dig", ["nymea.io"])
    case TracePath => Process("tracepath", ["nymea.io"])
  }

  /** A reply object; an asynchronous one is finalised later through the reference the handler keeps. */
  class HttpReply {
    var response: Response
    var isAsync: bool
    var isFinished: bool

    /** A reply that is complete when it is returned. */
    constructor Sync(r: Response)
      ensures response == r && !isAsync && isFinished
    {
      response, isAsync, isFinished := r, false, true;
    }

    /** A reply whose status and payload are set later, when its result arrives. */
    constructor Async()
      ensures isAsync && !isFinished && response == Response(Ok, None, None, NoBody)
    {
      response, isAsync, isFinished := Response(Ok, None, None, NoBody), true, false;
    }
  }

  /** The pair of references one probe kind keeps: its running process and its pending reply. */
  datatype ProbeSlot = ProbeSlot(process: Option<Process>, reply: HttpReply?)

  const IdleSlot: ProbeSlot := ProbeSlot(None, null)

  // Report session --------------------------------------------------------

  datatype GeneratorState = Generating | Finished(valid: bool)

  /** What the handler can observe of a report generator. */
  datatype ReportView = ReportView(fileName: string, state: GeneratorState, data: Bytes, md5Sum: string)

  /**
   * The report generator. Its archive build (collecting files, tar, gzip,
   * checksum) is not part of this model; `Complete` is the event of that
   * build ending.
   */
  class DebugReportGenerator {
    const reportFileName: string
    var state: GeneratorState
    var reportFileData: Bytes
    var md5Sum: string

    constructor (fileName: string)
      ensures reportFileName == fileName && state == Generating && reportFileData == [] && md5Sum == ""
    {
      reportFileName := fileName;
      state, reportFileData, md5Sum := Generating, [], "";
    }

    function View(): ReportView
      reads this
    {
      ReportView(reportFileName, state, reportFileData, md5Sum)
    }

    /** The build ends, successfully with an archive and its checksum, or with an error. */
    method Complete(success: bool, data: Bytes, md5: string)
      requires state == Generating
      modifies this
      ensures state == Finished(success)
      ensures success ==> reportFileData == data && md5Sum == md5
      ensures !success ==> reportFileData == old(reportFileData) && md5Sum == old(md5Sum)
    {
      state := Finished(success);
      if success {
        reportFileData, md5Sum := data, md5;
      }
    }
  }

  const ReportInfoContentType: string := "application/json; charset=\"utf-8\";"
  const ReportArchiveContentType: string := "application/tar+gzip;"

  /**
   * A poll without a file name: start a generator when there is none, report
   * "not ready" while it builds, the summary once it is valid, and drop it
   * with an error once it failed. Gives the session afterwards and the reply.
   */
  function Poll(g: Option<ReportView>, newFileName: string): (r: (Option<ReportView>, Response))
    ensures r.1.status == NoContent <==> g.None? || g.value.state == Generating
    ensures r.1.status == Ok <==> g.Some? && g.value.state == Finished(true)
    ensures r.1.status == InternalServerError <==> g.Some? && g.value.state == Finished(false)
    ensures r.0.None? <==> g.Some? && g.value.state == Finished(false)
    ensures g.Some? && r.0.Some? ==> r.0 == g
    ensures g.None? ==> r.0 == Some(ReportView(newFileName, Generating, [], ""))
    ensures r.1.status == Ok ==>
      r.1.body == ReportInformation(g.value.fileName, |g.value.data|, g.value.md5Sum)
      && r.1.contentType == Some(ReportInfoContentType)
  {
    match g
    case None => (Some(ReportView(newFileName, Generating, [], "")), ErrorResponse(NoContent))
    case Some(v) =>
      if v.state == Generating then (g, ErrorResponse(NoContent))
      else if v.state.valid then
        (g, Response(Ok, Some(ReportInfoContentType), None, ReportInformation(v.fileName, |v.data|, v.md5Sum)))
      else (None, ErrorResponse(InternalServerError))
  }

  /** A request with a file name: the archive of the live generator if the name is its file name. */
  function Fetch(g: Option<ReportView>, fileName: string): (r: Response)
    ensures r.status == Ok <==> g.Some? && g.value.fileName == fileName
    ensures r.status != Ok ==> r == ErrorResponse(NotFound)
    ensures r.status == Ok ==> r.body == RawBody(g.value.data) && r.contentType == Some(ReportArchiveContentType)
  {
    if g.None? || g.value.fileName != fileName then ErrorResponse(NotFound)
    else Response(Ok, Some(ReportArchiveContentType), None, RawBody(g.value.data))
  }

  /**
   * Once the report is ready and valid, polling keeps it and answers with the
   * same summary every time; the summary's size is the archive's length.
   */
  lemma {:induction false} PollIdempotentWhenReady(g: Option<ReportView>, name1: string, name2: string)
    requires g.Some? && g.value.state == Finished(true)
    ensures Poll(Poll(g, name1).0, name2) == Poll(g, name1)
    ensures Poll(g, name1).1.body.fileSize == |g.value.data|
  {
    assert Poll(g, name1).0 == g;
  }

  /**
   * The generate, poll, download protocol end to end: three polls before the
   * build ends answer NoContent, the poll after it the summary, the download
   * with the report's name the archive, any other name NotFound.
   */
  lemma {:induction false} ReportProtocol(name: string, data: Bytes, md5: string, bogus: string)
    requires bogus != name
    ensures var s1 := Poll(None, name);
            var s2 := Poll(s1.0, name);
            var s3 := Poll(s2.0, name);
            var built := Some(ReportView(name, Finished(true), data, md5));
            var s4 := Poll(built, name);
            && s1.1.status == NoContent && s2.1.status == NoContent && s3.1.status == NoContent
            && s3.0 == Some(ReportView(name, Generating, [], ""))
            && s4.1.body == ReportInformation(name, |data|, md5)
            && Fetch(s4.0, name).body == RawBody(data)
            && Fetch(s4.0, bogus).status == NotFound
  {
    var s1 := Poll(None, name);
    assert s1.0 == Some(ReportView(name, Generating, [], ""));
    var s2 := Poll(s1.0, name);
    assert s2.0 == s1.0;
  }

  // Live log --------------------------------------------------------------

  /** A connected live-log websocket client. */
  type Client = nat

  /**
   * A process-wide log message handler. `NoHandler` is the null handler
   * reference, which installs the default handler.
   */
  datatype MessageHandler = NoHandler | DefaultHandler | LiveLogHandler | OtherHandler(id: nat)

  /** The live-log client list, the saved previous handler and the handler in effect. */
  datatype LogState = LogState(clients: seq<Client>, savedHandler: MessageHandler, installed: MessageHandler)

  /** A line sent to one client. */
  datatype Delivery = Delivery(client: Client, line: string)

  /** Installing a null handler installs the default handler. */
  function Installed(h: MessageHandler): MessageHandler {
    if h == NoHandler then DefaultHandler else h
  }

  /** Every occurrence of `c` removed, the order of the others kept. */
  function RemoveClient(clients: seq<Client>, c: Client): (r: seq<Client>)
    ensures |r| <= |clients|
    ensures forall x :: x in r <==> x in clients && x != c
    ensures c in clients ==> |r| < |clients|
    ensures multiset(r) == multiset(clients)[c := 0]
  {
    if clients == [] then []
    else
      assert clients == [clients[0]] + clients[1..];
      if clients[0] == c then RemoveClient(clients[1..], c)
      else [clients[0]] + RemoveClient(clients[1..], c)
  }

  /** Removal keeps the order of the others: a client added at the end stays at the end unless it is the one removed. */
  lemma {:induction false} RemoveClientAppend(clients: seq<Client>, x: Client, c: Client)
    ensures RemoveClient(clients + [x], c) == RemoveClient(clients, c) + (if x == c then [] else [x])
  {
    if clients == [] {
      assert [] + [x] == [x];
    } else {
      assert (clients + [x])[1..] == clients[1..] + [x];
      RemoveClientAppend(clients[1..], x, c);
    }
  }

  /** A client connects: the first one installs the live-log handler and saves the previous one. */
  function ClientConnected(st: LogState, c: Client): LogState {
    if st.clients == [] then LogState([c], st.installed, LiveLogHandler)
    else st.(clients := st.clients + [c])
  }

  /** A client disconnects: when none is left the saved handler is restored and forgotten. */
  function ClientDisconnected(st: LogState, c: Client): LogState {
    var rest := RemoveClient(st.clients, c);
    if rest == [] then LogState([], NoHandler, Installed(st.savedHandler))
    else st.(clients := rest)
  }

  /** The live-log handler is in effect exactly while some client is connected. */
  predicate LogInvariant(st: LogState) {
    && st.installed != NoHandler
    && (st.clients != [] <==> st.installed == LiveLogHandler)
    && (st.clients != [] ==> st.savedHandler != NoHandler && st.savedHandler != LiveLogHandler)
    && (st.clients == [] ==> st.savedHandler == NoHandler)
  }

  /** The handler in effect apart from the live-log interceptor. */
  function OuterHandler(st: LogState): MessageHandler {
    if st.clients == [] then st.installed else st.savedHandler
  }

  /** Connecting keeps the invariant and the outer handler; only the first client installs. */
  lemma {:induction false} ConnectPreserves(st: LogState, c: Client)
    requires LogInvariant(st)
    ensures LogInvariant(ClientConnected(st, c))
    ensures OuterHandler(ClientConnected(st, c)) == OuterHandler(st)
    ensures ClientConnected(st, c).clients == st.clients + [c]
    ensures st.clients != [] ==> ClientConnected(st, c).savedHandler == st.savedHandler
  {
  }

  /**
   * A connected client disconnecting keeps the invariant and the outer
   * handler, so when the last one leaves exactly the handler that was in
   * effect before the first one came is restored.
   */
  lemma {:induction false} DisconnectPreserves(st: LogState, c: Client)
    requires LogInvariant(st) && c in st.clients
    ensures LogInvariant(ClientDisconnected(st, c))
    ensures OuterHandler(ClientDisconnected(st, c)) == OuterHandler(st)
    ensures ClientDisconnected(st, c).clients == [] ==> ClientDisconnected(st, c).installed == st.savedHandler
  {
    var rest := RemoveClient(st.clients, c);
    if rest != [] {
      assert ClientDisconnected(st, c) == st.(clients := rest);
    }
  }

  /**
   * Client A connects, then B; A leaves, then B. The handler is installed by
   * A only, stays while B remains, and B's leaving restores the original.
   */
  lemma {:induction false} TwoClientsRestore(h: MessageHandler, a: Client, b: Client)
    requires h != NoHandler && h != LiveLogHandler && a != b
    ensures var s0 := LogState([], NoHandler, h);
            var s1 := ClientConnected(s0, a);
            var s2 := ClientConnected(s1, b);
            var s3 := ClientDisconnected(s2, a);
            var s4 := ClientDisconnected(s3, b);
            && s1.installed == LiveLogHandler && s1.savedHandler == h
            && s2.savedHandler == h && s2.installed == LiveLogHandler
            && s3.installed == LiveLogHandler && s3.clients == [b]
            && s4.installed == h && s4.clients == []
  {
    var s2 := ClientConnected(ClientConnected(LogState([], NoHandler, h), a), b);
    assert s2.clients == [a, b];
    assert s2.clients[1..] == [b];
    assert RemoveClient(s2.clients, a) == [b];
    var s3 := ClientDisconnected(s2, a);
    assert s3.clients[1..] == [];
    assert RemoveClient(s3.clients, b) == [];
  }

  // The handler -----------------------------------------------------------

  /** The path prefix of each probe. */
  function ProbePath(kind: ProbeKind): string {
    match kind
    case Ping => "/debug/ping"
    case Dig => "/debug/dig"
    case TracePath => "/debug/tracepath"
  }

  class DebugServerHandler {
    var ping: ProbeSlot
    var dig: ProbeSlot
    var tracePath: ProbeSlot
    var reportGenerator: DebugReportGenerator?
    // Shared by every handler in the source (static members); one handler is modelled.
    var websocketClients: seq<Client>
    var oldLogMessageHandler: MessageHandler
    // The process-wide log handler that is in effect.
    var installedHandler: MessageHandler

    function Slot(kind: ProbeKind): ProbeSlot
      reads this
    {
      match kind
      case Ping => ping
      case Dig => dig
      case TracePath => tracePath
    }

    function LogView(): LogState
      reads this
    {
      LogState(websocketClients, oldLogMessageHandler, installedHandler)
    }

    function SessionView(): Option<ReportView>
      reads this, reportGenerator
    {
      if reportGenerator == null then None else Some(reportGenerator.View())
    }

    function PendingReplies(): set<HttpReply?>
      reads this
    {
      {ping.reply, dig.reply, tracePath.reply}
    }

    /** A slot holds a process exactly when it holds a pending reply, and that process runs the slot's command. */
    predicate SlotValid(kind: ProbeKind)
      reads this, PendingReplies()
    {
      var s := Slot(kind);
      && (s.process.Some? <==> s.reply != null)
      && (s.process.Some? ==> s.process.value == ProbeCommand(kind))
      && (s.reply != null ==> s.reply.isAsync && !s.reply.isFinished)
    }

    predicate Valid()
      reads this, PendingReplies()
    {
      && SlotValid(Ping) && SlotValid(Dig) && SlotValid(TracePath)
      && (ping.reply != null ==> ping.reply != dig.reply && ping.reply != tracePath.reply)
      && (dig.reply != null ==> dig.reply != tracePath.reply)
      && LogInvariant(LogView())
    }

    constructor (currentHandler: MessageHandler)
      requires currentHandler != NoHandler && currentHandler != LiveLogHandler
      ensures Valid()
      ensures ping == IdleSlot && dig == IdleSlot && tracePath == IdleSlot && reportGenerator == null
      ensures LogView() == LogState([], NoHandler, currentHandler)
    {
      ping, dig, tracePath := IdleSlot, IdleSlot, IdleSlot;
      reportGenerator := null;
      websocketClients, oldLogMessageHandler, installedHandler := [], NoHandler, currentHandler;
    }

    method SetSlot(kind: ProbeKind, s: ProbeSlot)
      modifies this
      ensures Slot(kind) == s
      ensures forall k :: k != kind ==> Slot(k) == old(Slot(k))
      ensures reportGenerator == old(reportGenerator) && LogView() == old(LogView())
    {
      match kind
      case Ping => ping := s;
      case Dig => dig := s;
      case TracePath => tracePath := s;
    }

    /**
     * The request router. File, page and resource branches answer at once and
     * change nothing; the probe and report branches are specified below.
     */
    method ProcessDebugRequest(path: string, query: map<string, string>, env: Environment) returns (reply: HttpReply)
      requires Valid()
      modifies this
      ensures Valid() && fresh(reply)
      ensures Classify(path) == DebugPage ==> reply.response == DebugPageResponse
      ensures Classify(path) in {LogDatabase, Syslog} || Classify(path).SettingsFile? ==>
        reply.response == FileResponse(env.files, DownloadFileName(Classify(path), env), DownloadContentType(Classify(path)))
      ensures Classify(path) == ResourceOrRedirect ==> reply.response == FallbackResponse(env.resources, path)
      ensures !Classify(path).Probe? && Classify(path) != Report ==>
        ping == old(ping) && dig == old(dig) && tracePath == old(tracePath) && reportGenerator == old(reportGenerator)
      ensures Classify(path).Probe? ==> ProbeStarted(Classify(path).kind, reply)
      ensures Classify(path) == Report ==> ReportHandled(query, env.newReportFileName, reply)
      ensures LogView() == old(LogView())
    {
      var route := Classify(path);
      if route == DebugPage {
        reply := new HttpReply.Sync(DebugPageResponse);
      } else if route == LogDatabase || route == Syslog || route.SettingsFile? {
        reply := new HttpReply.Sync(FileResponse(env.files, DownloadFileName(route, env), DownloadContentType(route)));
      } else if route.Probe? {
        reply := StartProbe(route.kind);
      } else if route == Report {
        reply := HandleReportRequest(query, env.newReportFileName);
      } else {
        reply := new HttpReply.Sync(FallbackResponse(env.resources, path));
      }
    }

    /**
     * What a probe request did: refused with InternalServerError and nothing
     * changed when the slot held a process or a reply; otherwise the slot now
     * holds the probe's process and the returned pending reply.
     */
    twostate predicate ProbeStarted(kind: ProbeKind, new reply: HttpReply)
      reads this, reply
    {
      && (forall k :: k != kind ==> Slot(k) == old(Slot(k)))
      && reportGenerator == old(reportGenerator)
      && if old(Slot(kind)).process.Some? || old(Slot(kind)).reply != null then
           reply.response == ErrorResponse(InternalServerError) && !reply.isAsync && Slot(kind) == old(Slot(kind))
         else
           Slot(kind) == ProbeSlot(Some(ProbeCommand(kind)), reply) && reply.isAsync && !reply.isFinished
    }

    method StartProbe(kind: ProbeKind) returns (reply: HttpReply)
      requires Valid()
      modifies this
      ensures Valid() && fresh(reply)
      ensures ProbeStarted(kind, reply)
      ensures LogView() == old(LogView())
    {
      var s := Slot(kind);
      if s.process.Some? || s.reply != null {
        reply := new HttpReply.Sync(ErrorResponse(InternalServerError));
        return;
      }
      reply := new HttpReply.Async();
      SetSlot(kind, ProbeSlot(Some(ProbeCommand(kind)), reply));
    }

    /**
     * A probe process finished: whatever its exit code, its pending reply is
     * finalised as Ok carrying the captured output, and both references of the
     * slot are cleared.
     */
    method OnProbeProcessFinished(kind: ProbeKind, exitCode: int, output: Bytes)
      requires Valid()
      requires Slot(kind).process.Some? && Slot(kind).reply != null
      modifies this, Slot(kind).reply
      ensures Valid()
      ensures Slot(kind) == IdleSlot
      ensures forall k :: k != kind ==> Slot(k) == old(Slot(k))
      ensures var r := old(Slot(kind).reply);
              r.isFinished && r.response == old(r.response).(status := Ok, body := RawBody(output))
      ensures reportGenerator == old(reportGenerator) && LogView() == old(LogView())
    {
      var r := Slot(kind).reply;
      r.response := r.response.(body := RawBody(output));
      r.response := r.response.(status := Ok);
      r.isFinished := true;
      SetSlot(kind, IdleSlot);
    }

    /**
     * What a report request did: a download answers from the current
     * generator and keeps it; a poll moves the session as `Poll` says, and a
     * generator it starts is a new object.
     */
    twostate predicate ReportHandled(query: map<string, string>, newFileName: string, new reply: HttpReply)
      reads this, reportGenerator, reply
    {
      && ping == old(ping) && dig == old(dig) && tracePath == old(tracePath)
      && ("filename" in query ==>
            reportGenerator == old(reportGenerator)
            && reply.response == Fetch(old(SessionView()), query["filename"]))
      && ("filename" !in query ==>
            reply.response == Poll(old(SessionView()), newFileName).1
            && SessionView() == Poll(old(SessionView()), newFileName).0
            && (old(reportGenerator) == null ==> reportGenerator != null && fresh(reportGenerator))
            && (old(reportGenerator) != null && reportGenerator != null ==> reportGenerator == old(reportGenerator)))
    }

    method HandleReportRequest(query: map<string, string>, newFileName: string) returns (reply: HttpReply)
      requires Valid()
      modifies this
      ensures Valid() && fresh(reply)
      ensures ReportHandled(query, newFileName, reply)
      ensures LogView() == old(LogView())
    {
      if "filename" in query {
        var fileName := query["filename"];
        if reportGenerator == null || reportGenerator.reportFileName != fileName {
          reply := new HttpReply.Sync(ErrorResponse(NotFound));
        } else {
          reply := new HttpReply.Sync(Response(Ok, Some(ReportArchiveContentType), None, RawBody(reportGenerator.reportFileData)));
        }
      } else if reportGenerator == null {
        reportGenerator := new DebugReportGenerator(newFileName);
        reply := new HttpReply.Sync(ErrorResponse(NoContent));
      } else if reportGenerator.state == Generating {
        reply := new HttpReply.Sync(ErrorResponse(NoContent));
      } else if reportGenerator.state.valid {
        var info := ReportInformation(reportGenerator.reportFileName, |reportGenerator.reportFileData|, reportGenerator.md5Sum);
        reply := new HttpReply.Sync(Response(Ok, Some(ReportInfoContentType), None, info));
      } else {
        reportGenerator := null;
        reply := new HttpReply.Sync(ErrorResponse(InternalServerError));
      }
    }

    /** The report's expiry timer fired: the session is cleared, whatever state the report was in. */
    method OnDebugReportGeneratorTimeout()
      requires Valid()
      modifies this
      ensures Valid()
      ensures reportGenerator == null && SessionView() == None
      ensures ping == old(ping) && dig == old(dig) && tracePath == old(tracePath) && LogView() == old(LogView())
    {
      reportGenerator := null;
    }

    /** A live-log client connected. */
    method OnWebsocketClientConnected(client: Client)
      requires Valid()
      modifies this
      ensures Valid()
      ensures LogView() == ClientConnected(old(LogView()), client)
      ensures ping == old(ping) && dig == old(dig) && tracePath == old(tracePath) && reportGenerator == old(reportGenerator)
    {
      ConnectPreserves(LogView(), client);
      if websocketClients == [] {
        oldLogMessageHandler := installedHandler;
        installedHandler := LiveLogHandler;
      }
      websocketClients := websocketClients + [client];
    }

    /** A live-log client disconnected. */
    method OnWebsocketClientDisconnected(client: Client)
      requires Valid()
      modifies this
      ensures Valid()
      ensures LogView() == ClientDisconnected(old(LogView()), client)
      ensures ping == old(ping) && dig == old(dig) && tracePath == old(tracePath) && reportGenerator == old(reportGenerator)
    {
      websocketClients := RemoveClient(websocketClients, client);
      if websocketClients == [] {
        installedHandler := Installed(oldLogMessageHandler);
        oldLogMessageHandler := NoHandler;
      }
    }

    /**
     * The installed log handler: the event goes first to the saved handler,
     * then its line goes to every connected client, in list order.
     */
    method LogMessageHandler(t: MessageType, category: string, message: string)
      returns (forwardedTo: MessageHandler, deliveries: seq<Delivery>)
      requires oldLogMessageHandler != NoHandler
      ensures forwardedTo == oldLogMessageHandler
      ensures |deliveries| == |websocketClients|
      ensures forall i :: 0 <= i < |deliveries| ==>
        deliveries[i] == Delivery(websocketClients[i], FormatLogLine(t, category, message))
    {
      forwardedTo := oldLogMessageHandler;
      var finalMessage := FormatLogLine(t, category, message);
      deliveries := [];
      var i := 0;
      while i < |websocketClients|
        invariant 0 <= i <= |websocketClients|
        invariant |deliveries| == i
        invariant forall j :: 0 <= j < i ==> deliveries[j] == Delivery(websocketClients[j], finalMessage)
      {
        deliveries := deliveries + [Delivery(websocketClients[i], finalMessage)];
        i := i + 1;
      }
    }
  }

  // End-to-end runs ------------------------------------------------------

  /**
   * A second request of the same probe kind while one runs is refused; the
   * first finishes with Ok and the captured output whatever the exit code;
   * after that a new request is accepted.
   */
  method SingleFlightRun(kind: ProbeKind, exitCode: int, output: Bytes, env: Environment)
    returns (first: HttpReply, second: Response, third: HttpReply)
    ensures first.isFinished && first.response.status == Ok && first.response.body == RawBody(output)
    ensures second == ErrorResponse(InternalServerError)
    ensures third.isAsync && !third.isFinished && third != first
  {
    ProbePathsRoute();
    var h := new DebugServerHandler(DefaultHandler);
    first := h.ProcessDebugRequest(ProbePath(kind), map[], env);
    var refused := h.ProcessDebugRequest(ProbePath(kind), map[], env);
    second := refused.response;
    h.OnProbeProcessFinished(kind, exitCode, output);
    third := h.ProcessDebugRequest(ProbePath(kind), map[], env);
  }

  lemma ProbePathsRoute()
    ensures forall kind :: Classify(ProbePath(kind)) == Probe(kind)
  {
    var p := "/debug/ping";
    assert p[7] == 'p';
    var d := "/debug/dig";
    assert d[7] == 'd';
    assert d[8] == 'i';
    var t := "/debug/tracepath";
    assert t[7] == 't';
    assert StartsWith(p, p) && StartsWith(d, d) && StartsWith(t, t);
  }

  lemma ReportPathRoutes()
    ensures Classify("/debug/report") == Report
  {
    var r := "/debug/report";
    assert r[7] == 'r';
    assert r[8] == 'e';
    assert StartsWith(r, r);
  }

  /**
   * Polling, building, downloading and expiry through the handler: the first
   * poll starts a generator, the poll after its build the summary, the
   * download the archive; after the timeout the next poll starts a new
   * generator.
   */
  method ReportRun(env: Environment, data: Bytes, md5: string)
    returns (polls: seq<StatusCode>, info: Response, download: Response, first: DebugReportGenerator, second: DebugReportGenerator)
    ensures polls == [NoContent, NoContent]
    ensures info.status == Ok && info.body == ReportInformation(env.newReportFileName, |data|, md5)
    ensures download.status == Ok && download.body == RawBody(data)
    ensures first != second && second.state == Generating
  {
    ReportPathRoutes();
    var h := new DebugServerHandler(DefaultHandler);
    var r1 := h.ProcessDebugRequest("/debug/report", map[], env);
    first := h.reportGenerator;
    var r2 := h.ProcessDebugRequest("/debug/report", map[], env);
    polls := [r1.response.status, r2.response.status];
    first.Complete(true, data, md5);
    var r3 := h.ProcessDebugRequest("/debug/report", map[], env);
    info := r3.response;
    var r4 := h.ProcessDebugRequest("/debug/report", map["filename" := env.newReportFileName], env);
    download := r4.response;
    h.OnDebugReportGeneratorTimeout();
    var r5 := h.ProcessDebugRequest("/debug/report", map[], env);
    second := h.reportGenerator;
  }
}
