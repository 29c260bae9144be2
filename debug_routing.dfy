/**
 * The stateless part of the debug interface request handler: how a request
 * path is classified, which reply a file download produces, how a bundled
 * resource name and its content type are derived, and how a log event is
 * turned into a live-log line.
 */
module DebugRouting {
  import opened Wrappers

  type Byte = b: int | 0 <= b < 256
  type Bytes = seq<Byte>

  /** The HTTP status codes the debug interface answers with. */
  datatype StatusCode = Ok | NoContent | PermanentRedirect | Forbidden | NotFound | InternalServerError
  {
    function Code(): (c: nat)
      ensures 200 <= c < 600
    {
      match this
      case Ok => 200
      case NoContent => 204
      case PermanentRedirect => 308
      case Forbidden => 403
      case NotFound => 404
      case InternalServerError => 500
    }
  }

  /**
   * What a reply carries. The rendered debug page, the XML error page and the
   * JSON report summary are kept abstract: only what they are built from is
   * recorded.
   */
  datatype Body =
    | NoBody
    | RawBody(data: Bytes)
    | DebugPageBody
    | ErrorDocument(code: StatusCode, message: string)
    | ReportInformation(fileName: string, fileSize: nat, md5Sum: string)

  /** Status, the two headers the handler sets, and the payload of one reply. */
  datatype Response = Response(status: StatusCode, contentType: Option<string>, location: Option<string>, body: Body)

  /** The settings files that can be downloaded, named by their settings role. */
  datatype SettingsRole = Devices | Rules | Global | DeviceStates | Plugins | Tags | MqttPolicies

  /** The three network probes. */
  datatype ProbeKind = Ping | Dig | TracePath

  /** The branch of the request handler a path is dispatched to. */
  datatype Route =
    | DebugPage
    | LogDatabase
    | Syslog
    | SettingsFile(role: SettingsRole)
    | Probe(kind: ProbeKind)
    | Report
    | ResourceOrRedirect

  /** A file as the handler finds it on disk: it exists, may or may not open, and has contents. */
  datatype FileEntry = FileEntry(readable: bool, data: Bytes)

  /**
   * Everything the handler consults outside itself: the file system, the
   * configured log database name, the settings file of each role, the bundled
   * resources and the file name a new report generator chooses.
   */
  datatype Environment = Environment(
    files: map<string, FileEntry>,
    logDbName: string,
    settingsFileName: SettingsRole -> string,
    resources: map<string, FileEntry>,
    newReportFileName: string)

  const SyslogFileName: string := "/var/log/syslog"

  predicate StartsWith(s: string, prefix: string) {
    |prefix| <= |s| && s[..|prefix|] == prefix
  }

  /** The role checked inside the `/debug/settings` block, in source order. */
  function SettingsBlockRole(path: string): Option<SettingsRole> {
    if StartsWith(path, "/debug/settings/devices") then Some(Devices)
    else if StartsWith(path, "/debug/settings/rules") then Some(Rules)
    else if StartsWith(path, "/debug/settings/nymead") then Some(Global)
    else if StartsWith(path, "/debug/settings/devicestates") then Some(DeviceStates)
    else if StartsWith(path, "/debug/settings/plugins") then Some(Plugins)
    else if StartsWith(path, "/debug/settings/tags") then Some(Tags)
    else None
  }

  /** The prefix tests of the request handler, tried in source order. */
  function Classify(path: string): Route {
    if path == "/debug" || path == "/debug/" then DebugPage
    else if StartsWith(path, "/debug/logdb.sql") then LogDatabase
    else if StartsWith(path, "/debug/syslog") then Syslog
    else if StartsWith(path, "/debug/settings") && SettingsBlockRole(path).Some? then SettingsFile(SettingsBlockRole(path).value)
    else if StartsWith(path, "/debug/settings/mqttpolicies") then SettingsFile(MqttPolicies)
    else if StartsWith(path, "/debug/ping") then Probe(Ping)
    else if StartsWith(path, "/debug/dig") then Probe(Dig)
    else if StartsWith(path, "/debug/tracepath") then Probe(TracePath)
    else if StartsWith(path, "/debug/report") then Report
    else ResourceOrRedirect
  }

  /** The prefixes that select a branch, in the order the handler tests them. */
  const RoutePrefixes: seq<string> := [
    "/debug/logdb.sql", "/debug/syslog",
    "/debug/settings/devices", "/debug/settings/rules", "/debug/settings/nymead",
    "/debug/settings/devicestates", "/debug/settings/plugins", "/debug/settings/tags",
    "/debug/settings/mqttpolicies",
    "/debug/ping", "/debug/dig", "/debug/tracepath", "/debug/report"]

  /** Only the two exact page paths get the debug page. */
  lemma DebugPageIffExact(path: string)
    ensures Classify(path) == DebugPage <==> (path == "/debug" || path == "/debug/")
  {
  }

  /**
   * A path falls through to the resource lookup exactly when it is not a page
   * path and starts with none of the branch prefixes.
   */
  lemma {:induction false} FallThroughIffNoPrefix(path: string)
    ensures Classify(path) == ResourceOrRedirect <==>
      (path != "/debug" && path != "/debug/" && forall i :: 0 <= i < |RoutePrefixes| ==> !StartsWith(path, RoutePrefixes[i]))
  {
    if Classify(path) == ResourceOrRedirect {
      forall i | 0 <= i < |RoutePrefixes| ensures !StartsWith(path, RoutePrefixes[i]) {
        if StartsWith(path, RoutePrefixes[i]) && 2 <= i <= 8 {
          PrefixOfPrefix(path, "/debug/settings", RoutePrefixes[i]);
        }
      }
    } else if path != "/debug" && path != "/debug/" {
      var r := Classify(path);
      assert r.SettingsFile? || r.Probe? || r == LogDatabase || r == Syslog || r == Report;
      if r == LogDatabase { assert StartsWith(path, RoutePrefixes[0]); }
      else if r == Syslog { assert StartsWith(path, RoutePrefixes[1]); }
      else if r == SettingsFile(Devices) { assert StartsWith(path, RoutePrefixes[2]); }
      else if r == SettingsFile(Rules) { assert StartsWith(path, RoutePrefixes[3]); }
      else if r == SettingsFile(Global) { assert StartsWith(path, RoutePrefixes[4]); }
      else if r == SettingsFile(DeviceStates) { assert StartsWith(path, RoutePrefixes[5]); }
      else if r == SettingsFile(Plugins) { assert StartsWith(path, RoutePrefixes[6]); }
      else if r == SettingsFile(Tags) { assert StartsWith(path, RoutePrefixes[7]); }
      else if r == SettingsFile(MqttPolicies) { assert StartsWith(path, RoutePrefixes[8]); }
      else if r == Probe(Ping) { assert StartsWith(path, RoutePrefixes[9]); }
      else if r == Probe(Dig) { assert StartsWith(path, RoutePrefixes[10]); }
      else if r == Probe(TracePath) { assert StartsWith(path, RoutePrefixes[11]); }
      else { assert StartsWith(path, RoutePrefixes[12]); }
    }
  }

  lemma PrefixOfPrefix(s: string, p: string, q: string)
    requires StartsWith(q, p) && StartsWith(s, q)
    ensures StartsWith(s, p)
  {
    assert s[..|p|] == s[..|q|][..|p|];
  }

  /**
   * Prefix tests are tried in order, so `/debug/settings/devicestates` is
   * caught by the `/debug/settings/devices` test and the device-states file
   * can never be served.
   */
  lemma {:induction false} DeviceStatesUnreachable(path: string)
    ensures StartsWith(path, "/debug/settings/devicestates") ==> Classify(path) == SettingsFile(Devices)
    ensures Classify(path) != SettingsFile(DeviceStates)
  {
    if StartsWith(path, "/debug/settings/devicestates") {
      assert path[7] == 's' && path[8] == 'e';
      PrefixOfPrefix(path, "/debug/settings/devices", "/debug/settings/devicestates");
      PrefixOfPrefix(path, "/debug/settings", "/debug/settings/devicestates");
    }
  }

  /** The mqtt policies file sits outside the settings block but is still reached. */
  lemma MqttPoliciesReachable()
    ensures Classify("/debug/settings/mqttpolicies") == SettingsFile(MqttPolicies)
  {
    var p := "/debug/settings/mqttpolicies";
    assert p[7] == 's';
    assert p[8] == 'e';
    assert p[16] == 'm';
    assert StartsWith(p, "/debug/settings/mqttpolicies");
  }

  /** The path of the file a file branch serves. */
  function DownloadFileName(route: Route, env: Environment): string
    requires route == LogDatabase || route == Syslog || route.SettingsFile?
  {
    match route
    case LogDatabase => env.logDbName
    case Syslog => SyslogFileName
    case SettingsFile(role) => env.settingsFileName(role)
  }

  /** The content type a successful file download is sent with. */
  function DownloadContentType(route: Route): string
    requires route == LogDatabase || route == Syslog || route.SettingsFile?
  {
    if route == LogDatabase then "application/sql" else "text/plain"
  }

  function NotFoundMessage(fileName: string): string {
    "Could not find file \"" + fileName + "\"."
  }

  function NotOpenedMessage(fileName: string): string {
    "Could not open file \"" + fileName + "\"."
  }

  /**
   * The check-exists, check-open, read-all sequence shared by every file
   * branch. The Forbidden reply carries an error page built with the NotFound
   * code, as the handler does.
   */
  function FileResponse(files: map<string, FileEntry>, fileName: string, contentType: string): (r: Response)
    ensures r.status == NotFound <==> fileName !in files
    ensures r.status == Forbidden <==> fileName in files && !files[fileName].readable
    ensures r.status == Ok <==> fileName in files && files[fileName].readable
    ensures r.status == Ok ==> r.body == RawBody(files[fileName].data) && r.contentType == Some(contentType)
    ensures r.status != Ok ==> r.contentType == Some("text/html") && r.body.ErrorDocument? && r.body.code == NotFound
    ensures r.status == NotFound ==> r.body.message == NotFoundMessage(fileName)
    ensures r.status == Forbidden ==> r.body.message == NotOpenedMessage(fileName)
    ensures r.location == None
  {
    if fileName !in files then
      Response(NotFound, Some("text/html"), None, ErrorDocument(NotFound, NotFoundMessage(fileName)))
    else if !files[fileName].readable then
      Response(Forbidden, Some("text/html"), None, ErrorDocument(NotFound, NotOpenedMessage(fileName)))
    else
      Response(Ok, Some(contentType), None, RawBody(files[fileName].data))
  }

  /** A reply made by the error-reply factory with nothing else set on it. */
  function ErrorResponse(status: StatusCode): Response {
    Response(status, None, None, NoBody)
  }

  const RedirectResponse: Response := Response(PermanentRedirect, None, Some("/debug"), NoBody)
  const DebugPageResponse: Response := Response(Ok, Some("text/html"), None, DebugPageBody)

  // Bundled resources ----------------------------------------------------

  predicate OccursAt(s: string, pattern: string, i: nat) {
    i + |pattern| <= |s| && s[i..i + |pattern|] == pattern
  }

  /**
   * Removes every occurrence of `pattern`, scanning left to right and
   * resuming the search where the removed occurrence was. What it computes
   * is stated by RemoveAllNoOccurrence and ResourceOfDebugAsset below.
   */
  function RemoveAll(s: string, pattern: string): (r: string)
    requires pattern != []
    ensures |r| <= |s|
    decreases |s|
  {
    if |s| < |pattern| then s
    else if StartsWith(s, pattern) then RemoveAll(s[|pattern|..], pattern)
    else [s[0]] + RemoveAll(s[1..], pattern)
  }

  /** The resource name a request path maps to: the path with every "/debug" removed. */
  function ResourceFileName(requestPath: string): string {
    RemoveAll(requestPath, "/debug")
  }

  /** A string without any occurrence of `pattern` is left as it is. */
  lemma {:induction false} RemoveAllNoOccurrence(s: string, pattern: string)
    requires pattern != []
    requires forall i :: 0 <= i <= |s| ==> !OccursAt(s, pattern, i)
    ensures RemoveAll(s, pattern) == s
    decreases |s|
  {
    if |s| >= |pattern| {
      assert !OccursAt(s, pattern, 0);
      forall i | 0 <= i <= |s[1..]| ensures !OccursAt(s[1..], pattern, i) {
        assert !OccursAt(s, pattern, i + 1);
      }
      RemoveAllNoOccurrence(s[1..], pattern);
    }
  }

  /**
   * The debug page's own asset links `/debug/<name>`: when the name holds no
   * further "/debug", the resource looked up is exactly `<name>`.
   */
  lemma ResourceOfDebugAsset(name: string)
    requires forall i :: 0 <= i <= |name| ==> !OccursAt(name, "/debug", i)
    ensures ResourceFileName("/debug" + name) == name
  {
    var s := "/debug" + name;
    assert StartsWith(s, "/debug");
    assert s[6..] == name;
    RemoveAllNoOccurrence(name, "/debug");
  }

  predicate EndsWith(s: string, suffix: string) {
    |suffix| <= |s| && s[|s| - |suffix|..] == suffix
  }

  /** A suffix's characters are the string's last characters. */
  lemma SuffixChars(s: string, suffix: string)
    requires EndsWith(s, suffix)
    ensures forall k :: 0 <= k < |suffix| ==> s[|s| - |suffix| + k] == suffix[k]
  {
    forall k | 0 <= k < |suffix|
      ensures s[|s| - |suffix| + k] == suffix[k]
    {
      assert s[|s| - |suffix|..][k] == suffix[k];
    }
  }

  /** A name ends in at most one of the four known extensions. */
  lemma ExtensionsExclusive(name: string)
    ensures !(EndsWith(name, ".css") && EndsWith(name, ".svg"))
    ensures !(EndsWith(name, ".css") && EndsWith(name, ".js"))
    ensures !(EndsWith(name, ".svg") && EndsWith(name, ".js"))
    ensures !(EndsWith(name, ".svg") && EndsWith(name, ".png"))
    ensures !(EndsWith(name, ".css") && EndsWith(name, ".png"))
    ensures !(EndsWith(name, ".js") && EndsWith(name, ".png"))
  {
    if EndsWith(name, ".css") {
      SuffixChars(name, ".css");
      assert name[|name| - 3] == 'c';
    }
    if EndsWith(name, ".svg") { SuffixChars(name, ".svg"); }
    if EndsWith(name, ".js") { SuffixChars(name, ".js"); }
    if EndsWith(name, ".png") { SuffixChars(name, ".png"); }
  }

  /** The content type of a bundled resource, chosen by extension; none for other extensions. */
  function ResourceContentType(resourceFileName: string): (r: Option<string>)
    ensures r.None? <==> !(EndsWith(resourceFileName, ".css") || EndsWith(resourceFileName, ".svg")
                           || EndsWith(resourceFileName, ".js") || EndsWith(resourceFileName, ".png"))
    ensures EndsWith(resourceFileName, ".css") ==> r == Some("text/css; charset=\"utf-8\";")
    ensures EndsWith(resourceFileName, ".svg") ==> r == Some("image/svg+xml; charset=\"utf-8\";")
    ensures EndsWith(resourceFileName, ".js") ==> r == Some("text/javascript; charset=\"utf-8\";")
    ensures EndsWith(resourceFileName, ".png") ==> r == Some("image/png")
  {
    ExtensionsExclusive(resourceFileName);
    if EndsWith(resourceFileName, ".css") then Some("text/css; charset=\"utf-8\";")
    else if EndsWith(resourceFileName, ".svg") then Some("image/svg+xml; charset=\"utf-8\";")
    else if EndsWith(resourceFileName, ".js") then Some("text/javascript; charset=\"utf-8\";")
    else if EndsWith(resourceFileName, ".png") then Some("image/png")
    else None
  }

  /** The contents of a bundled resource; empty when it cannot be opened. */
  function LoadResourceData(resources: map<string, FileEntry>, resourceFileName: string): Bytes {
    if resourceFileName in resources && resources[resourceFileName].readable
    then resources[resourceFileName].data
    else []
  }

  /** The reply for a path no branch took: the resource if it exists, otherwise a redirect to the page. */
  function FallbackResponse(resources: map<string, FileEntry>, requestPath: string): (r: Response)
    ensures ResourceFileName(requestPath) !in resources ==> r == Response(PermanentRedirect, None, Some("/debug"), NoBody)
    ensures ResourceFileName(requestPath) in resources ==>
      r.status == Ok && r.contentType == ResourceContentType(ResourceFileName(requestPath)) && r.location == None
    ensures ResourceFileName(requestPath) in resources && resources[ResourceFileName(requestPath)].readable ==>
      r.body == RawBody(resources[ResourceFileName(requestPath)].data)
    ensures ResourceFileName(requestPath) in resources && !resources[ResourceFileName(requestPath)].readable ==>
      r.body == RawBody([])
  {
    var name := ResourceFileName(requestPath);
    if name in resources then Response(Ok, ResourceContentType(name), None, RawBody(LoadResourceData(resources, name)))
    else RedirectResponse
  }

  // Live-log lines -------------------------------------------------------

  datatype MessageType = DebugMsg | InfoMsg | WarningMsg | CriticalMsg | FatalMsg

  /** Debug and info events share the letter I. */
  function SeverityLetter(t: MessageType): char {
    match t
    case DebugMsg => 'I'
    case InfoMsg => 'I'
    case WarningMsg => 'W'
    case CriticalMsg => 'C'
    case FatalMsg => 'F'
  }

  /** The line `" L | category: message\n"` sent to the live-log clients. */
  function FormatLogLine(t: MessageType, category: string, message: string): (line: string)
    ensures |line| == |category| + |message| + 8
    ensures line[..5] == [' ', SeverityLetter(t), ' ', '|', ' ']
    ensures line[5..5 + |category|] == category
    ensures line[5 + |category|..7 + |category|] == ": "
    ensures line[7 + |category|..|line| - 1] == message
    ensures line[|line| - 1] == '\n'
  {
    [' ', SeverityLetter(t)] + " | " + category + ": " + message + "\n"
  }

  /** Lines can be told apart by severity, except that debug and info read the same. */
  lemma SeverityLetters()
    ensures SeverityLetter(DebugMsg) == SeverityLetter(InfoMsg) == 'I'
    ensures forall t, u :: SeverityLetter(t) == SeverityLetter(u) ==>
      t == u || {t, u} == {DebugMsg, InfoMsg}
  {
  }
}
