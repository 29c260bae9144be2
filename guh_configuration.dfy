/**
 * The server configuration: a few scalar settings of the `guhd` group and
 * three tables of server configurations (TCP, web, websocket) keyed by id,
 * all kept in step with the global settings store.
 *
 * The store is a map from key paths (group, sub-group, name) to variant
 * values; a value read back goes through the same conversion the variant
 * type applies.
 */
module GuhConfig {
  /** A settings key: a top-level name, a name inside a group, or a name inside a group's sub-group. */
  datatype Key =
    | RootKey(name: string)
    | GroupKey(group: string, name: string)
    | EntryKey(group: string, id: string, name: string)

  datatype Variant = VString(s: string) | VUInt(n: nat) | VBool(b: bool) | VUuid(u: string)

  type Store = map<Key, Variant>

  const NullUuid: string := "{00000000-0000-0000-0000-000000000000}"
  const DefaultServerName: string := "guhIO"
  const DefaultLanguage: string := "en_US"
  const DefaultAddress: string := "0.0.0.0"
  const DefaultPublicFolder: string := "/usr/share/guh-webinterface/public/"
  const DefaultSslCertificate: string := "/etc/ssl/certs/guhd-certificate.crt"
  const DefaultSslCertificateKey: string := "/etc/ssl/certs/guhd-certificate.key"

  const NameKey: Key := GroupKey("guhd", "name")
  const TimeZoneKey: Key := GroupKey("guhd", "timeZone")
  const LanguageKey: Key := GroupKey("guhd", "language")
  const UuidKey: Key := GroupKey("guhd", "uuid")
  const BluetoothEnabledKey: Key := GroupKey("BluetoothServer", "enabled")
  const SslCertificateKey: Key := GroupKey("SSL", "certificate")
  const SslCertificateKeyKey: Key := GroupKey("SSL", "certificate-key")
  /** A top-level key, outside every group, read for the default web server's folder. */
  const RootPublicFolderKey: Key := RootKey("publicFolder")

  function DigitChar(d: nat): (c: char)
    requires d < 10
    ensures IsDigit(c) && DigitValue(c) == d
  {
    "0123456789"[d]
  }

  predicate IsDigit(c: char) {
    '0' <= c <= '9'
  }

  function DigitValue(c: char): nat {
    if IsDigit(c) then (c as int - '0' as int) as nat else 0
  }

  /** The number a string of decimal digits denotes, most significant digit first. */
  function DecimalValue(s: string): nat
    decreases |s|
  {
    if s == [] then 0 else DecimalValue(s[..|s| - 1]) * 10 + DigitValue(s[|s| - 1])
  }

  /** How a stored unsigned number reads as text: its decimal digits, without leading zeros. */
  function DecimalString(n: nat): (s: string)
    ensures |s| > 0
    ensures forall i :: 0 <= i < |s| ==> IsDigit(s[i])
    ensures DecimalValue(s) == n
    ensures s[0] == '0' ==> n == 0 && |s| == 1
    decreases n
  {
    if n < 10 then [DigitChar(n)]
    else
      var prefix := DecimalString(n / 10);
      var s := prefix + [DigitChar(n % 10)];
      assert s[..|s| - 1] == prefix;
      s
  }

  function ToString(v: Variant): string {
    match v
    case VString(s) => s
    case VUInt(n) => DecimalString(n)
    case VBool(b) => if b then "true" else "false"
    case VUuid(u) => u
  }

  /** A non-empty run of decimal digits. */
  predicate IsDecimal(s: string) {
    |s| > 0 && forall i :: 0 <= i < |s| ==> IsDigit(s[i])
  }

  /**
   * The unsigned reading of a value. Text is parsed as a decimal number into a
   * 64-bit value, which is then cut to 32 bits; text that is not a number, or
   * does not fit in 64 bits, reads as 0.
   */
  function ToUInt(v: Variant): nat {
    match v
    case VUInt(n) => n
    case VBool(b) => if b then 1 else 0
    case VString(s) =>
      if IsDecimal(s) && DecimalValue(s) < 0x1_0000_0000_0000_0000 then DecimalValue(s) % 0x1_0000_0000 else 0
    case VUuid(_) => 0
  }

  function LowerChar(c: char): char {
    if 'A' <= c <= 'Z' then (c as int - 'A' as int + 'a' as int) as char else c
  }

  /** The text with its ASCII capitals lowered. */
  function Lower(s: string): (r: string)
    ensures |r| == |s|
  {
    if s == [] then [] else [LowerChar(s[0])] + Lower(s[1..])
  }

  /** Text reads as false when, lowered, it is empty, `0` or `false`. */
  function ToBool(v: Variant): bool {
    match v
    case VBool(b) => b
    case VUInt(n) => n != 0
    case VString(s) => var t := Lower(s); !(t == "" || t == "0" || t == "false")
    case VUuid(_) => false
  }

  /** A port stored as a number and given back as its text, as a text settings file does, reads as the same number. */
  lemma PortTextReadsBack(n: nat)
    requires n < 0x1_0000_0000
    ensures ToUInt(VString(DecimalString(n))) == n
  {
  }

  /** A flag given back as its text reads as the same flag, and so does `false` in any case. */
  lemma BoolTextReadsBack(b: bool)
    ensures ToBool(VString(ToString(VBool(b)))) == b
    ensures !ToBool(VString("False")) && !ToBool(VString("FALSE"))
  {
    LowerFalse("false");
    LowerFalse("False");
    LowerFalse("FALSE");
  }

  /** Lowering spelled out letter by letter for five-letter text. */
  lemma LowerFalse(s: string)
    requires |s| == 5
    requires LowerChar(s[0]) == 'f' && LowerChar(s[1]) == 'a' && LowerChar(s[2]) == 'l'
    requires LowerChar(s[3]) == 's' && LowerChar(s[4]) == 'e'
    ensures Lower(s) == "false"
  {
    assert Lower(s[4..]) == "e";
    assert s[3..][1..] == s[4..];
    assert Lower(s[3..]) == "se";
    assert s[2..][1..] == s[3..];
    assert Lower(s[2..]) == "lse";
    assert s[1..][1..] == s[2..];
    assert Lower(s[1..]) == "alse";
  }

  function ToUuid(v: Variant): string {
    match v
    case VUuid(u) => u
    case _ => NullUuid
  }

  /** The value at `key` as a string, or `default` when the key is absent. */
  function ValueString(store: Store, key: Key, default: string): string {
    if key in store then ToString(store[key]) else default
  }

  function ValueBool(store: Store, key: Key, default: bool): bool {
    if key in store then ToBool(store[key]) else default
  }

  /** Unsigned reads have no default: an absent key reads as 0. */
  function ValueUInt(store: Store, key: Key): nat {
    if key in store then ToUInt(store[key]) else 0
  }

  function ValueUuid(store: Store, key: Key): string {
    if key in store then ToUuid(store[key]) else NullUuid
  }

  datatype ServerConfiguration = ServerConfiguration(
    id: string, address: string, port: nat, sslEnabled: bool, authenticationEnabled: bool)

  datatype WebServerConfiguration = WebServerConfiguration(server: ServerConfiguration, publicFolder: string)

  /** The top-level groups: every group that holds a key, directly or in a sub-group. */
  function TopGroups(store: Store): set<string> {
    set k | k in store && !k.RootKey? :: k.group
  }

  /** The sub-groups of `group`: the ids of its server entries. */
  function GroupChildren(store: Store, group: string): set<string> {
    set k | k in store && k.EntryKey? && k.group == group :: k.id
  }

  function ServerKeys(group: string, id: string): set<Key> {
    {EntryKey(group, id, "address"), EntryKey(group, id, "port"), EntryKey(group, id, "sslEnabled"), EntryKey(group, id, "authenticationEnabled")}
  }

  /** The four values of a server entry written under `group/<id>`. */
  function StoreServerConfig(store: Store, group: string, config: ServerConfiguration): (r: Store)
    ensures r.Keys == store.Keys + ServerKeys(group, config.id)
    ensures forall k :: k in store && k !in ServerKeys(group, config.id) ==> r[k] == store[k]
  {
    store[EntryKey(group, config.id, "address") := VString(config.address)]
         [EntryKey(group, config.id, "port") := VUInt(config.port)]
         [EntryKey(group, config.id, "sslEnabled") := VBool(config.sslEnabled)]
         [EntryKey(group, config.id, "authenticationEnabled") := VBool(config.authenticationEnabled)]
  }

  /** A server entry read from `group/<id>`; SSL and authentication default to on. */
  function ReadServerConfig(store: Store, group: string, id: string): (c: ServerConfiguration)
    ensures c.id == id
    ensures EntryKey(group, id, "sslEnabled") !in store ==> c.sslEnabled
    ensures EntryKey(group, id, "authenticationEnabled") !in store ==> c.authenticationEnabled
    ensures EntryKey(group, id, "port") !in store ==> c.port == 0
  {
    ServerConfiguration(
      id,
      ValueString(store, EntryKey(group, id, "address"), ""),
      ValueUInt(store, EntryKey(group, id, "port")),
      ValueBool(store, EntryKey(group, id, "sslEnabled"), true),
      ValueBool(store, EntryKey(group, id, "authenticationEnabled"), true))
  }

  /** Storing an entry and reading it back under its own id gives the entry. */
  lemma StoreThenRead(store: Store, group: string, config: ServerConfiguration)
    ensures ReadServerConfig(StoreServerConfig(store, group, config), group, config.id) == config
  {
  }

  /** Storing one entry leaves every other entry's read unchanged. */
  lemma StoreKeepsOtherReads(store: Store, group: string, config: ServerConfiguration, otherGroup: string, otherId: string)
    requires otherGroup != group || otherId != config.id
    ensures ReadServerConfig(StoreServerConfig(store, group, config), otherGroup, otherId) == ReadServerConfig(store, otherGroup, otherId)
  {
  }

  /** The web server's entry: the common fields plus the public folder under the same sub-group. */
  function ReadWebServerConfig(store: Store, id: string): (c: WebServerConfiguration)
    ensures c.server == ReadServerConfig(store, "WebServer", id)
    ensures EntryKey("WebServer", id, "publicFolder") !in store ==> c.publicFolder == ""
  {
    WebServerConfiguration(ReadServerConfig(store, "WebServer", id), ValueString(store, EntryKey("WebServer", id, "publicFolder"), ""))
  }

  /** What setting a web server configuration writes: the common fields, then the public folder. */
  function StoreWebServerConfig(store: Store, config: WebServerConfiguration): (r: Store)
    ensures r.Keys == store.Keys + ServerKeys("WebServer", config.server.id) + {EntryKey("WebServer", config.server.id, "publicFolder")}
  {
    StoreServerConfig(store, "WebServer", config.server)[EntryKey("WebServer", config.server.id, "publicFolder") := VString(config.publicFolder)]
  }

  /** Setting a web server entry and reading it back under its own id gives the entry, folder included. */
  lemma StoreWebThenRead(store: Store, config: WebServerConfiguration)
    ensures ReadWebServerConfig(StoreWebServerConfig(store, config), config.server.id) == config
  {
  }

  /** Writing one key adds at most its group and sub-group to the group lists. */
  lemma PutGroups(store: Store, key: Key, v: Variant)
    ensures !key.RootKey? ==> TopGroups(store[key := v]) == TopGroups(store) + {key.group}
    ensures key.RootKey? ==> TopGroups(store[key := v]) == TopGroups(store)
    ensures key.EntryKey? ==> GroupChildren(store[key := v], key.group) == GroupChildren(store, key.group) + {key.id}
    ensures forall g :: (!key.EntryKey? || g != key.group) ==> GroupChildren(store[key := v], g) == GroupChildren(store, g)
  {
    var r := store[key := v];
    forall g | (!key.EntryKey? || g != key.group)
      ensures GroupChildren(r, g) == GroupChildren(store, g)
    {
      forall x | x in GroupChildren(r, g)
        ensures x in GroupChildren(store, g)
      {
        var k :| k in r && k.EntryKey? && k.group == g && k.id == x;
        assert k != key;
      }
      forall x | x in GroupChildren(store, g)
        ensures x in GroupChildren(r, g)
      {
        var k :| k in store && k.EntryKey? && k.group == g && k.id == x;
        assert k in r;
      }
    }
    if key.EntryKey? {
      assert key.id in GroupChildren(r, key.group);
      forall x | x in GroupChildren(r, key.group)
        ensures x in GroupChildren(store, key.group) + {key.id}
      {
        var k :| k in r && k.EntryKey? && k.group == key.group && k.id == x;
      }
      forall x | x in GroupChildren(store, key.group)
        ensures x in GroupChildren(r, key.group)
      {
        var k :| k in store && k.EntryKey? && k.group == key.group && k.id == x;
        assert k in r;
      }
    }
    if !key.RootKey? {
      assert key.group in TopGroups(r);
    }
    forall x | x in TopGroups(r)
      ensures x in TopGroups(store) + (if !key.RootKey? then {key.group} else {})
    {
      var k :| k in r && !k.RootKey? && k.group == x;
    }
    forall x | x in TopGroups(store)
      ensures x in TopGroups(r)
    {
      var k :| k in store && !k.RootKey? && k.group == x;
      assert k in r;
    }
  }

  /** Storing a server entry adds its group and its id, and no other group changes. */
  lemma StoreServerConfigGroups(store: Store, group: string, config: ServerConfiguration)
    ensures TopGroups(StoreServerConfig(store, group, config)) == TopGroups(store) + {group}
    ensures GroupChildren(StoreServerConfig(store, group, config), group) == GroupChildren(store, group) + {config.id}
    ensures forall g :: g != group ==> GroupChildren(StoreServerConfig(store, group, config), g) == GroupChildren(store, g)
  {
    var id := config.id;
    var k1 := EntryKey(group, id, "address");
    var k2 := EntryKey(group, id, "port");
    var k3 := EntryKey(group, id, "sslEnabled");
    var k4 := EntryKey(group, id, "authenticationEnabled");
    var s1 := store[k1 := VString(config.address)];
    var s2 := s1[k2 := VUInt(config.port)];
    var s3 := s2[k3 := VBool(config.sslEnabled)];
    PutGroups(store, k1, VString(config.address));
    PutGroups(s1, k2, VUInt(config.port));
    PutGroups(s2, k3, VBool(config.sslEnabled));
    PutGroups(s3, k4, VBool(config.authenticationEnabled));
  }

  lemma AbsentGroupHasNoChildren(store: Store, group: string)
    requires group !in TopGroups(store)
    ensures GroupChildren(store, group) == {}
  {
  }

  /** A server entry written under any group leaves every key outside the sub-groups as it was. */
  lemma StoreKeepsGroupKeys(store: Store, group: string, config: ServerConfiguration, key: Key)
    requires !key.EntryKey?
    ensures key in StoreServerConfig(store, group, config) <==> key in store
    ensures key in store ==> StoreServerConfig(store, group, config)[key] == store[key]
  {
  }

  /** A table matches the store: one entry per sub-group of `group`, each equal to what the store reads. */
  predicate InStep(store: Store, group: string, configs: map<string, ServerConfiguration>) {
    configs.Keys == GroupChildren(store, group) &&
    forall id :: id in configs ==> configs[id] == ReadServerConfig(store, group, id)
  }

  predicate WebInStep(store: Store, configs: map<string, WebServerConfiguration>) {
    configs.Keys == GroupChildren(store, "WebServer") &&
    forall id :: id in configs ==> configs[id] == ReadWebServerConfig(store, id)
  }

  /** All three tables match the store. */
  predicate ServersInStep(store: Store, tcp: map<string, ServerConfiguration>,
                          web: map<string, WebServerConfiguration>, webSocket: map<string, ServerConfiguration>) {
    InStep(store, "TcpServer", tcp) && WebInStep(store, web) && InStep(store, "WebSocketServer", webSocket)
  }

  /** Setting an entry of one table, as the setters do, keeps that table in step. */
  lemma {:induction false} StoreKeepsOwnTable(store: Store, group: string, configs: map<string, ServerConfiguration>, config: ServerConfiguration)
    requires InStep(store, group, configs)
    ensures InStep(StoreServerConfig(store, group, config), group, configs[config.id := config])
  {
    StoreServerConfigGroups(store, group, config);
    StoreThenRead(store, group, config);
    forall id | id in configs && id != config.id
      ensures configs[id] == ReadServerConfig(StoreServerConfig(store, group, config), group, id)
    {
      StoreKeepsOtherReads(store, group, config, group, id);
    }
  }

  /** Storing in one group leaves another group's table in step. */
  lemma {:induction false} StoreKeepsOtherTable(store: Store, group: string, config: ServerConfiguration,
                                               other: string, configs: map<string, ServerConfiguration>)
    requires other != group && InStep(store, other, configs)
    ensures InStep(StoreServerConfig(store, group, config), other, configs)
  {
    StoreServerConfigGroups(store, group, config);
    forall id | id in configs
      ensures configs[id] == ReadServerConfig(StoreServerConfig(store, group, config), other, id)
    {
      StoreKeepsOtherReads(store, group, config, other, id);
    }
  }

  /** Storing a server entry under another group or id changes no web server entry's read. */
  lemma StoreKeepsWebRead(store: Store, group: string, config: ServerConfiguration, id: string)
    requires group != "WebServer" || id != config.id
    ensures ReadWebServerConfig(StoreServerConfig(store, group, config), id) == ReadWebServerConfig(store, id)
  {
    StoreKeepsOtherReads(store, group, config, "WebServer", id);
  }

  /** Writing a public folder changes no common fields and no other web entry. */
  lemma PublicFolderKeepsReads(store: Store, id: string, folder: string, group: string, otherId: string)
    ensures ReadServerConfig(store[EntryKey("WebServer", id, "publicFolder") := VString(folder)], group, otherId) == ReadServerConfig(store, group, otherId)
    ensures otherId != id ==>
      ReadWebServerConfig(store[EntryKey("WebServer", id, "publicFolder") := VString(folder)], otherId) == ReadWebServerConfig(store, otherId)
  {
  }

  /** Storing a TCP or websocket entry leaves the web table in step. */
  lemma {:induction false} StoreKeepsWebTable(store: Store, group: string, config: ServerConfiguration,
                                             configs: map<string, WebServerConfiguration>)
    requires group != "WebServer" && WebInStep(store, configs)
    ensures WebInStep(StoreServerConfig(store, group, config), configs)
  {
    StoreServerConfigGroups(store, group, config);
    forall id | id in configs
      ensures configs[id] == ReadWebServerConfig(StoreServerConfig(store, group, config), id)
    {
      StoreKeepsWebRead(store, group, config, id);
    }
  }

  /** Setting a web server entry keeps the web table in step. */
  lemma {:induction false} StoreWebKeepsWebTable(store: Store, configs: map<string, WebServerConfiguration>, config: WebServerConfiguration)
    requires WebInStep(store, configs)
    ensures WebInStep(StoreWebServerConfig(store, config), configs[config.server.id := config])
  {
    var id := config.server.id;
    var s := StoreServerConfig(store, "WebServer", config.server);
    var k := EntryKey("WebServer", id, "publicFolder");
    StoreServerConfigGroups(store, "WebServer", config.server);
    PutGroups(s, k, VString(config.publicFolder));
    StoreWebThenRead(store, config);
    forall other | other in configs && other != id
      ensures configs[other] == ReadWebServerConfig(StoreWebServerConfig(store, config), other)
    {
      StoreKeepsWebRead(store, "WebServer", config.server, other);
      PublicFolderKeepsReads(s, id, config.publicFolder, "WebServer", other);
    }
  }

  /** Setting a web server entry leaves the TCP and websocket tables in step. */
  lemma {:induction false} StoreWebKeepsOtherTable(store: Store, config: WebServerConfiguration,
                                                  other: string, configs: map<string, ServerConfiguration>)
    requires other != "WebServer" && InStep(store, other, configs)
    ensures InStep(StoreWebServerConfig(store, config), other, configs)
  {
    var s := StoreServerConfig(store, "WebServer", config.server);
    var k := EntryKey("WebServer", config.server.id, "publicFolder");
    StoreKeepsOtherTable(store, "WebServer", config.server, other, configs);
    PutGroups(s, k, VString(config.publicFolder));
    forall id | id in configs
      ensures configs[id] == ReadServerConfig(s[k := VString(config.publicFolder)], other, id)
    {
      PublicFolderKeepsReads(s, config.server.id, config.publicFolder, other, id);
    }
  }

  /** A key outside every server sub-group changes no server entry's read. */
  lemma ShortKeyKeepsReads(store: Store, key: Key, v: Variant, group: string, id: string)
    requires !key.EntryKey?
    ensures ReadServerConfig(store[key := v], group, id) == ReadServerConfig(store, group, id)
    ensures ReadWebServerConfig(store[key := v], id) == ReadWebServerConfig(store, id)
  {
  }

  /** A key outside every server sub-group (the `guhd`, Bluetooth and SSL keys) leaves all tables in step. */
  lemma {:induction false} ShortKeyKeepsTables(store: Store, key: Key, v: Variant, tcp: map<string, ServerConfiguration>,
                                              web: map<string, WebServerConfiguration>, webSocket: map<string, ServerConfiguration>)
    requires !key.EntryKey? && ServersInStep(store, tcp, web, webSocket)
    ensures ServersInStep(store[key := v], tcp, web, webSocket)
  {
    PutGroups(store, key, v);
    forall id | id in tcp
      ensures tcp[id] == ReadServerConfig(store[key := v], "TcpServer", id)
    {
      ShortKeyKeepsReads(store, key, v, "TcpServer", id);
    }
    forall id | id in webSocket
      ensures webSocket[id] == ReadServerConfig(store[key := v], "WebSocketServer", id)
    {
      ShortKeyKeepsReads(store, key, v, "WebSocketServer", id);
    }
    forall id | id in web
      ensures web[id] == ReadWebServerConfig(store[key := v], id)
    {
      ShortKeyKeepsReads(store, key, v, "WebServer", id);
    }
  }

  function DefaultServerConfig(port: nat): (c: ServerConfiguration)
    ensures c.id == "default" && c.address == DefaultAddress && c.port == port
    ensures !c.sslEnabled && !c.authenticationEnabled
  {
    ServerConfiguration("default", DefaultAddress, port, false, false)
  }

  /** The web default as the start-up code builds and persists it: the folder is not written. */
  function DefaultWebStartupAsWritten(store: Store): (r: (WebServerConfiguration, Store))
    ensures r.0.server == DefaultServerConfig(3333)
    ensures r.0.publicFolder == ValueString(store, RootPublicFolderKey, DefaultPublicFolder)
    ensures r.1 == StoreServerConfig(store, "WebServer", DefaultServerConfig(3333))
  {
    var config := WebServerConfiguration(DefaultServerConfig(3333), ValueString(store, RootPublicFolderKey, DefaultPublicFolder));
    (config, StoreServerConfig(store, "WebServer", config.server))
  }

  /**
   * On a first start with an empty store the default web server serves the
   * default folder, but what is persisted reads back with an empty folder: the
   * next start, which finds the web group, loses the folder.
   */
  lemma DefaultWebFolderLostOnRestart()
    ensures DefaultWebStartupAsWritten(map[]).0.publicFolder == DefaultPublicFolder
    ensures ReadWebServerConfig(DefaultWebStartupAsWritten(map[]).1, "default").publicFolder == ""
    ensures !WebInStep(DefaultWebStartupAsWritten(map[]).1, map["default" := DefaultWebStartupAsWritten(map[]).0])
  {
    var s := DefaultWebStartupAsWritten(map[]).1;
    assert EntryKey("WebServer", "default", "publicFolder") !in s;
  }

  /** The web default persisted the way a web server configuration is set: the folder is written too. */
  function DefaultWebStartup(store: Store): (r: (WebServerConfiguration, Store))
    ensures r.0.server == DefaultServerConfig(3333)
    ensures r.0.publicFolder == ValueString(store, RootPublicFolderKey, DefaultPublicFolder)
    ensures ReadWebServerConfig(r.1, "default") == r.0
  {
    var config := WebServerConfiguration(DefaultServerConfig(3333), ValueString(store, RootPublicFolderKey, DefaultPublicFolder));
    StoreWebThenRead(store, config);
    (config, StoreWebServerConfig(store, config))
  }

  /** Two stores hold the same value, or both none, at `key`. */
  predicate SameAt(a: Store, b: Store, key: Key) {
    (key in a <==> key in b) && (key in a ==> a[key] == b[key])
  }

  /** Two stores agree on every key outside the server sub-groups that the configuration reads. */
  predicate SameScalarKeys(a: Store, b: Store) {
    SameAt(a, b, NameKey) && SameAt(a, b, TimeZoneKey) && SameAt(a, b, LanguageKey) && SameAt(a, b, UuidKey) &&
    SameAt(a, b, BluetoothEnabledKey) && SameAt(a, b, SslCertificateKey) && SameAt(a, b, SslCertificateKeyKey) &&
    SameAt(a, b, RootPublicFolderKey)
  }

  lemma StoreKeepsScalarKeys(store: Store, group: string, config: ServerConfiguration)
    ensures SameScalarKeys(store, StoreServerConfig(store, group, config))
  {
    StoreKeepsGroupKeys(store, group, config, NameKey);
    StoreKeepsGroupKeys(store, group, config, TimeZoneKey);
    StoreKeepsGroupKeys(store, group, config, LanguageKey);
    StoreKeepsGroupKeys(store, group, config, UuidKey);
    StoreKeepsGroupKeys(store, group, config, BluetoothEnabledKey);
    StoreKeepsGroupKeys(store, group, config, SslCertificateKey);
    StoreKeepsGroupKeys(store, group, config, SslCertificateKeyKey);
    StoreKeepsGroupKeys(store, group, config, RootPublicFolderKey);
  }

  lemma EntryPutKeepsScalarKeys(store: Store, key: Key, v: Variant)
    requires key.EntryKey?
    ensures SameScalarKeys(store, store[key := v])
  {
  }

  /**
   * Start-up of one TCP or websocket table: every sub-group read when the group
   * exists, otherwise a single default entry created and persisted.
   */
  method LoadServerGroup(store: Store, group: string, defaultPort: nat) returns (configs: map<string, ServerConfiguration>, newStore: Store)
    ensures group in TopGroups(store) ==> newStore == store
    ensures group !in TopGroups(store) ==>
      configs == map["default" := DefaultServerConfig(defaultPort)] &&
      newStore == StoreServerConfig(store, group, DefaultServerConfig(defaultPort))
    ensures InStep(newStore, group, configs)
    ensures SameScalarKeys(store, newStore)
  {
    if group in TopGroups(store) {
      newStore := store;
      configs := map[];
      var remaining := GroupChildren(store, group);
      while remaining != {}
        invariant remaining <= GroupChildren(store, group)
        invariant configs.Keys == GroupChildren(store, group) - remaining
        invariant forall id :: id in configs ==> configs[id] == ReadServerConfig(store, group, id)
        decreases remaining
      {
        var key :| key in remaining;
        var config := ReadServerConfig(store, group, key);
        configs := configs[config.id := config];
        remaining := remaining - {key};
      }
    } else {
      var config := DefaultServerConfig(defaultPort);
      configs := map[config.id := config];
      newStore := StoreServerConfig(store, group, config);
      StoreServerConfigGroups(store, group, config);
      StoreKeepsScalarKeys(store, group, config);
      AbsentGroupHasNoChildren(store, group);
      StoreKeepsOwnTable(store, group, map[], config);
    }
  }

  /** Start-up of the web table; a missing group gets the default, persisted with its folder. */
  method LoadWebServerGroup(store: Store) returns (configs: map<string, WebServerConfiguration>, newStore: Store)
    ensures "WebServer" in TopGroups(store) ==> newStore == store
    ensures "WebServer" !in TopGroups(store) ==>
      configs == map["default" := DefaultWebStartup(store).0] && newStore == DefaultWebStartup(store).1
    ensures WebInStep(newStore, configs)
    ensures SameScalarKeys(store, newStore)
  {
    if "WebServer" in TopGroups(store) {
      newStore := store;
      configs := map[];
      var remaining := GroupChildren(store, "WebServer");
      while remaining != {}
        invariant remaining <= GroupChildren(store, "WebServer")
        invariant configs.Keys == GroupChildren(store, "WebServer") - remaining
        invariant forall id :: id in configs ==> configs[id] == ReadWebServerConfig(store, id)
        decreases remaining
      {
        var key :| key in remaining;
        var common := ReadServerConfig(store, "WebServer", key);
        var config := WebServerConfiguration(common, ValueString(store, EntryKey("WebServer", key, "publicFolder"), ""));
        configs := configs[common.id := config];
        remaining := remaining - {key};
      }
    } else {
      var (config, s) := DefaultWebStartup(store);
      configs := map[config.server.id := config];
      newStore := s;
      StoreServerConfigGroups(store, "WebServer", config.server);
      StoreKeepsScalarKeys(store, "WebServer", config.server);
      EntryPutKeepsScalarKeys(StoreServerConfig(store, "WebServer", config.server),
                              EntryKey("WebServer", "default", "publicFolder"), VString(config.publicFolder));
      PutGroups(StoreServerConfig(store, "WebServer", config.server), EntryKey("WebServer", "default", "publicFolder"), VString(config.publicFolder));
      AbsentGroupHasNoChildren(store, "WebServer");
      StoreWebKeepsWebTable(store, map[], config);
    }
  }

  /** The fields of the configuration object. */
  datatype ConfigFields = ConfigFields(
    serverName: string, timeZone: string, locale: string, serverUuid: string,
    tcp: map<string, ServerConfiguration>, web: map<string, WebServerConfiguration>,
    webSocket: map<string, ServerConfiguration>, bluetoothServerEnabled: bool,
    sslCertificate: string, sslCertificateKey: string, settings: Store)

  /** The scalar fields are what the store reads back. */
  predicate ScalarsMatch(f: ConfigFields, systemTimeZone: string) {
    f.serverName == ValueString(f.settings, NameKey, DefaultServerName) &&
    f.timeZone == ValueString(f.settings, TimeZoneKey, systemTimeZone) &&
    f.locale == ValueString(f.settings, LanguageKey, DefaultLanguage) &&
    f.serverUuid == ValueUuid(f.settings, UuidKey) &&
    f.bluetoothServerEnabled == ValueBool(f.settings, BluetoothEnabledKey, false) &&
    f.sslCertificate == ValueString(f.settings, SslCertificateKey, DefaultSslCertificate) &&
    f.sslCertificateKey == ValueString(f.settings, SslCertificateKeyKey, DefaultSslCertificateKey)
  }

  /** Every field is what the store reads back, so a restart yields the same configuration. */
  predicate FieldsValid(f: ConfigFields, systemTimeZone: string) {
    ServersInStep(f.settings, f.tcp, f.web, f.webSocket) && ScalarsMatch(f, systemTimeZone)
  }

  lemma {:induction false} SetServerNameKeepsValid(f: ConfigFields, tz: string, name: string)
    requires FieldsValid(f, tz)
    ensures FieldsValid(f.(serverName := name, settings := f.settings[NameKey := VString(name)]), tz)
  {
    ShortKeyKeepsTables(f.settings, NameKey, VString(name), f.tcp, f.web, f.webSocket);
  }

  lemma {:induction false} SetTimeZoneKeepsValid(f: ConfigFields, tz: string, zone: string)
    requires FieldsValid(f, tz)
    ensures FieldsValid(f.(timeZone := zone, settings := f.settings[TimeZoneKey := VString(zone)]), tz)
  {
    ShortKeyKeepsTables(f.settings, TimeZoneKey, VString(zone), f.tcp, f.web, f.webSocket);
  }

  lemma {:induction false} SetLocaleKeepsValid(f: ConfigFields, tz: string, localeName: string)
    requires FieldsValid(f, tz)
    ensures FieldsValid(f.(locale := localeName, settings := f.settings[LanguageKey := VString(localeName)]), tz)
  {
    ShortKeyKeepsTables(f.settings, LanguageKey, VString(localeName), f.tcp, f.web, f.webSocket);
  }

  lemma {:induction false} SetServerUuidKeepsValid(f: ConfigFields, tz: string, uuid: string)
    requires FieldsValid(f, tz)
    ensures FieldsValid(f.(serverUuid := uuid, settings := f.settings[UuidKey := VUuid(uuid)]), tz)
  {
    ShortKeyKeepsTables(f.settings, UuidKey, VUuid(uuid), f.tcp, f.web, f.webSocket);
  }

  lemma {:induction false} SetBluetoothKeepsValid(f: ConfigFields, tz: string, enabled: bool)
    requires FieldsValid(f, tz)
    ensures FieldsValid(f.(bluetoothServerEnabled := enabled, settings := f.settings[BluetoothEnabledKey := VBool(enabled)]), tz)
  {
    ShortKeyKeepsTables(f.settings, BluetoothEnabledKey, VBool(enabled), f.tcp, f.web, f.webSocket);
  }

  lemma {:induction false} SetSslCertificateKeepsValid(f: ConfigFields, tz: string, certificate: string, certificateKey: string)
    requires FieldsValid(f, tz)
    ensures FieldsValid(f.(sslCertificate := certificate, sslCertificateKey := certificateKey,
                           settings := f.settings[SslCertificateKey := VString(certificate)][SslCertificateKeyKey := VString(certificateKey)]), tz)
  {
    var s1 := f.settings[SslCertificateKey := VString(certificate)];
    ShortKeyKeepsTables(f.settings, SslCertificateKey, VString(certificate), f.tcp, f.web, f.webSocket);
    ShortKeyKeepsTables(s1, SslCertificateKeyKey, VString(certificateKey), f.tcp, f.web, f.webSocket);
  }

  /** A server entry write leaves the scalar fields matching the store. */
  lemma ScalarsKept(f: ConfigFields, tz: string, group: string, config: ServerConfiguration)
    ensures ScalarsMatch(f.(settings := StoreServerConfig(f.settings, group, config)), tz) == ScalarsMatch(f, tz)
  {
    var store := f.settings;
    var r := StoreServerConfig(store, group, config);
    StoreKeepsGroupKeys(store, group, config, NameKey);
    assert ValueString(r, NameKey, DefaultServerName) == ValueString(store, NameKey, DefaultServerName);
    StoreKeepsGroupKeys(store, group, config, TimeZoneKey);
    assert ValueString(r, TimeZoneKey, tz) == ValueString(store, TimeZoneKey, tz);
    StoreKeepsGroupKeys(store, group, config, LanguageKey);
    assert ValueString(r, LanguageKey, DefaultLanguage) == ValueString(store, LanguageKey, DefaultLanguage);
    StoreKeepsGroupKeys(store, group, config, UuidKey);
    assert ValueUuid(r, UuidKey) == ValueUuid(store, UuidKey);
    StoreKeepsGroupKeys(store, group, config, BluetoothEnabledKey);
    assert ValueBool(r, BluetoothEnabledKey, false) == ValueBool(store, BluetoothEnabledKey, false);
    StoreKeepsGroupKeys(store, group, config, SslCertificateKey);
    assert ValueString(r, SslCertificateKey, DefaultSslCertificate) == ValueString(store, SslCertificateKey, DefaultSslCertificate);
    StoreKeepsGroupKeys(store, group, config, SslCertificateKeyKey);
    assert ValueString(r, SslCertificateKeyKey, DefaultSslCertificateKey) == ValueString(store, SslCertificateKeyKey, DefaultSslCertificateKey);
  }

  lemma {:induction false} SetTcpKeepsValid(f: ConfigFields, tz: string, config: ServerConfiguration)
    requires FieldsValid(f, tz)
    ensures FieldsValid(f.(tcp := f.tcp[config.id := config], settings := StoreServerConfig(f.settings, "TcpServer", config)), tz)
  {
    StoreKeepsOwnTable(f.settings, "TcpServer", f.tcp, config);
    StoreKeepsWebTable(f.settings, "TcpServer", config, f.web);
    StoreKeepsOtherTable(f.settings, "TcpServer", config, "WebSocketServer", f.webSocket);
    ScalarsKept(f, tz, "TcpServer", config);
    assert ScalarsMatch(f.(tcp := f.tcp[config.id := config], settings := StoreServerConfig(f.settings, "TcpServer", config)), tz)
        == ScalarsMatch(f.(settings := StoreServerConfig(f.settings, "TcpServer", config)), tz);
  }

  lemma {:induction false} SetWebSocketKeepsValid(f: ConfigFields, tz: string, config: ServerConfiguration)
    requires FieldsValid(f, tz)
    ensures FieldsValid(f.(webSocket := f.webSocket[config.id := config], settings := StoreServerConfig(f.settings, "WebSocketServer", config)), tz)
  {
    StoreKeepsOwnTable(f.settings, "WebSocketServer", f.webSocket, config);
    StoreKeepsWebTable(f.settings, "WebSocketServer", config, f.web);
    StoreKeepsOtherTable(f.settings, "WebSocketServer", config, "TcpServer", f.tcp);
    ScalarsKept(f, tz, "WebSocketServer", config);
    assert ScalarsMatch(f.(webSocket := f.webSocket[config.id := config], settings := StoreServerConfig(f.settings, "WebSocketServer", config)), tz)
        == ScalarsMatch(f.(settings := StoreServerConfig(f.settings, "WebSocketServer", config)), tz);
  }

  /** A write inside a server sub-group leaves the scalar fields matching the store. */
  lemma ScalarsKeptByEntry(f: ConfigFields, tz: string, key: Key, v: Variant)
    requires key.EntryKey?
    ensures ScalarsMatch(f.(settings := f.settings[key := v]), tz) == ScalarsMatch(f, tz)
  {
  }

  lemma {:induction false} SetWebKeepsValid(f: ConfigFields, tz: string, config: WebServerConfiguration)
    requires FieldsValid(f, tz)
    ensures FieldsValid(f.(web := f.web[config.server.id := config], settings := StoreWebServerConfig(f.settings, config)), tz)
  {
    StoreWebKeepsWebTable(f.settings, f.web, config);
    StoreWebKeepsOtherTable(f.settings, config, "TcpServer", f.tcp);
    StoreWebKeepsOtherTable(f.settings, config, "WebSocketServer", f.webSocket);
    var g := f.(web := f.web[config.server.id := config]);
    ScalarsKept(g, tz, "WebServer", config.server);
    var h := g.(settings := StoreServerConfig(f.settings, "WebServer", config.server));
    ScalarsKeptByEntry(h, tz, EntryKey("WebServer", config.server.id, "publicFolder"), VString(config.publicFolder));
  }

  /** What start-up promises about the fields it loads from `initial`. */
  predicate StartedFrom(f: ConfigFields, initial: Store, systemTimeZone: string, generatedUuid: string) {
    f.serverName == ValueString(initial, NameKey, DefaultServerName) &&
    f.timeZone == ValueString(initial, TimeZoneKey, systemTimeZone) &&
    f.locale == ValueString(initial, LanguageKey, DefaultLanguage) &&
    (ValueUuid(initial, UuidKey) != NullUuid ==> f.serverUuid == ValueUuid(initial, UuidKey)) &&
    (ValueUuid(initial, UuidKey) == NullUuid ==> f.serverUuid == generatedUuid) &&
    ("TcpServer" !in TopGroups(initial) ==> f.tcp == map["default" := DefaultServerConfig(2222)]) &&
    ("WebSocketServer" !in TopGroups(initial) ==> f.webSocket == map["default" := DefaultServerConfig(4444)]) &&
    ("WebServer" !in TopGroups(initial) ==>
       f.web == map["default" := WebServerConfiguration(DefaultServerConfig(3333),
                                                      ValueString(initial, RootPublicFolderKey, DefaultPublicFolder))]) &&
    f.bluetoothServerEnabled == ValueBool(initial, BluetoothEnabledKey, false) &&
    f.sslCertificate == ValueString(initial, SslCertificateKey, DefaultSslCertificate) &&
    f.sslCertificateKey == ValueString(initial, SslCertificateKeyKey, DefaultSslCertificateKey)
  }

  /** The uuid read at start-up, or the generated one written back when none is stored. */
  function UuidStartup(initial: Store, generatedUuid: string): (r: (string, Store))
    requires generatedUuid != NullUuid
    ensures r.0 != NullUuid
    ensures ValueUuid(r.1, UuidKey) == r.0
    ensures ValueUuid(initial, UuidKey) != NullUuid ==> r == (ValueUuid(initial, UuidKey), initial)
    ensures ValueUuid(initial, UuidKey) == NullUuid ==> r.0 == generatedUuid
  {
    if ValueUuid(initial, UuidKey) != NullUuid then (ValueUuid(initial, UuidKey), initial)
    else (generatedUuid, initial[UuidKey := VUuid(generatedUuid)])
  }

  /** The three server tables loaded in order, each missing group getting its persisted default. */
  method LoadServers(store: Store) returns (tcp: map<string, ServerConfiguration>, web: map<string, WebServerConfiguration>,
                                          webSocket: map<string, ServerConfiguration>, newStore: Store)
    ensures ServersInStep(newStore, tcp, web, webSocket)
    ensures SameScalarKeys(store, newStore)
    ensures "TcpServer" !in TopGroups(store) ==> tcp == map["default" := DefaultServerConfig(2222)]
    ensures "WebSocketServer" !in TopGroups(store) ==> webSocket == map["default" := DefaultServerConfig(4444)]
    ensures "WebServer" !in TopGroups(store) ==>
      web == map["default" := WebServerConfiguration(DefaultServerConfig(3333), ValueString(store, RootPublicFolderKey, DefaultPublicFolder))]
  {
    var s1, s2;
    tcp, s1 := LoadServerGroup(store, "TcpServer", 2222);
    web, s2 := LoadWebServerGroup(s1);
    webSocket, newStore := LoadServerGroup(s2, "WebSocketServer", 4444);
    OtherGroupUnchanged(store, s1, "TcpServer", DefaultServerConfig(2222), "WebServer");
    OtherGroupUnchanged(store, s1, "TcpServer", DefaultServerConfig(2222), "WebSocketServer");
    WebStartupKeepsOtherGroup(s1, s2, "WebSocketServer");
    TablesSurviveLaterLoads(s1, tcp, s2, web, newStore, webSocket);
  }

  /** A start-up step that stores a default entry adds no other group. */
  lemma OtherGroupUnchanged(store: Store, after: Store, group: string, config: ServerConfiguration, other: string)
    requires after == store || after == StoreServerConfig(store, group, config)
    requires other != group
    ensures other in TopGroups(after) <==> other in TopGroups(store)
  {
    StoreServerConfigGroups(store, group, config);
  }

  lemma WebStartupKeepsOtherGroup(store: Store, after: Store, other: string)
    requires after == store || after == DefaultWebStartup(store).1
    requires other != "WebServer"
    ensures other in TopGroups(after) <==> other in TopGroups(store)
  {
    var c := DefaultWebStartup(store).0;
    StoreServerConfigGroups(store, "WebServer", c.server);
    PutGroups(StoreServerConfig(store, "WebServer", c.server), EntryKey("WebServer", "default", "publicFolder"), VString(c.publicFolder));
  }

  /** The web and websocket start-up steps leave the tables loaded before them in step. */
  lemma TablesSurviveLaterLoads(s1: Store, tcp: map<string, ServerConfiguration>, s2: Store, web: map<string, WebServerConfiguration>,
                                s3: Store, webSocket: map<string, ServerConfiguration>)
    requires InStep(s1, "TcpServer", tcp)
    requires s2 == s1 || ("WebServer" !in TopGroups(s1) && s2 == DefaultWebStartup(s1).1)
    requires WebInStep(s2, web)
    requires s3 == s2 || s3 == StoreServerConfig(s2, "WebSocketServer", DefaultServerConfig(4444))
    requires InStep(s3, "WebSocketServer", webSocket)
    ensures ServersInStep(s3, tcp, web, webSocket)
  {
    if s2 != s1 {
      StoreWebKeepsOtherTable(s1, DefaultWebStartup(s1).0, "TcpServer", tcp);
    }
    if s3 != s2 {
      StoreKeepsOtherTable(s2, "WebSocketServer", DefaultServerConfig(4444), "TcpServer", tcp);
      StoreKeepsWebTable(s2, "WebSocketServer", DefaultServerConfig(4444), web);
    }
  }

  /** Writing the uuid back touches no other key the start-up reads and no server group. */
  lemma UuidStartupKeeps(initial: Store, generatedUuid: string)
    requires generatedUuid != NullUuid
    ensures SameAt(initial, UuidStartup(initial, generatedUuid).1, NameKey)
    ensures SameAt(initial, UuidStartup(initial, generatedUuid).1, TimeZoneKey)
    ensures SameAt(initial, UuidStartup(initial, generatedUuid).1, LanguageKey)
    ensures SameAt(initial, UuidStartup(initial, generatedUuid).1, BluetoothEnabledKey)
    ensures SameAt(initial, UuidStartup(initial, generatedUuid).1, SslCertificateKey)
    ensures SameAt(initial, UuidStartup(initial, generatedUuid).1, SslCertificateKeyKey)
    ensures SameAt(initial, UuidStartup(initial, generatedUuid).1, RootPublicFolderKey)
    ensures forall g :: g != "guhd" ==> (g in TopGroups(UuidStartup(initial, generatedUuid).1) <==> g in TopGroups(initial))
  {
    if ValueUuid(initial, UuidKey) == NullUuid {
      PutGroups(initial, UuidKey, VUuid(generatedUuid));
    }
  }

  /** The whole start-up: the `guhd` values, the uuid, the server tables, then Bluetooth and SSL written back. */
  method Startup(initial: Store, systemTimeZone: string, generatedUuid: string) returns (f: ConfigFields)
    requires generatedUuid != NullUuid
    ensures FieldsValid(f, systemTimeZone)
    ensures f.serverUuid != NullUuid
    ensures StartedFrom(f, initial, systemTimeZone, generatedUuid)
  {
    var (uuid, store) := UuidStartup(initial, generatedUuid);
    UuidStartupKeeps(initial, generatedUuid);
    var tcp, web, ws, s3 := LoadServers(store);
    var g := ConfigFields(ValueString(initial, NameKey, DefaultServerName), ValueString(initial, TimeZoneKey, systemTimeZone),
                          ValueString(initial, LanguageKey, DefaultLanguage), uuid, tcp, web, ws,
                          ValueBool(s3, BluetoothEnabledKey, false), ValueString(s3, SslCertificateKey, DefaultSslCertificate),
                          ValueString(s3, SslCertificateKeyKey, DefaultSslCertificateKey), s3);
    assert FieldsValid(g, systemTimeZone);
    var bluetooth := ValueBool(s3, BluetoothEnabledKey, false);
    SetBluetoothKeepsValid(g, systemTimeZone, bluetooth);
    var h := g.(bluetoothServerEnabled := bluetooth, settings := s3[BluetoothEnabledKey := VBool(bluetooth)]);
    var certificate := ValueString(h.settings, SslCertificateKey, DefaultSslCertificate);
    var certificateKey := ValueString(h.settings, SslCertificateKeyKey, DefaultSslCertificateKey);
    SetSslCertificateKeepsValid(h, systemTimeZone, certificate, certificateKey);
    f := h.(sslCertificate := certificate, sslCertificateKey := certificateKey,
            settings := h.settings[SslCertificateKey := VString(certificate)][SslCertificateKeyKey := VString(certificateKey)]);
  }

  class GuhConfiguration {
    /** The zone the system reports, the default for the time zone. */
    const systemTimeZoneId: string
    var settings: Store
    var serverName: string
    var timeZone: string
    /** The locale, by its name. */
    var locale: string
    var serverUuid: string
    var tcpServerConfigs: map<string, ServerConfiguration>
    var webServerConfigs: map<string, WebServerConfiguration>
    var webSocketServerConfigs: map<string, ServerConfiguration>
    var bluetoothServerEnabled: bool
    var sslCertificate: string
    var sslCertificateKey: string

    function Fields(): ConfigFields
      reads this
    {
      ConfigFields(serverName, timeZone, locale, serverUuid, tcpServerConfigs, webServerConfigs,
                   webSocketServerConfigs, bluetoothServerEnabled, sslCertificate, sslCertificateKey, settings)
    }

    predicate Valid()
      reads this
    {
      FieldsValid(Fields(), systemTimeZoneId)
    }

    /**
     * Loads the configuration from `initial`, writing back a generated uuid
     * when none is stored and a default entry for each missing server group.
     */
    constructor (initial: Store, systemTimeZone: string, generatedUuid: string)
      requires generatedUuid != NullUuid
      ensures Valid()
      ensures systemTimeZoneId == systemTimeZone
      ensures StartedFrom(Fields(), initial, systemTimeZone, generatedUuid)
    {
      var f := Startup(initial, systemTimeZone, generatedUuid);
      systemTimeZoneId := systemTimeZone;
      serverName := f.serverName;
      timeZone := f.timeZone;
      locale := f.locale;
      serverUuid := f.serverUuid;
      tcpServerConfigs := f.tcp;
      webServerConfigs := f.web;
      webSocketServerConfigs := f.webSocket;
      bluetoothServerEnabled := f.bluetoothServerEnabled;
      sslCertificate := f.sslCertificate;
      sslCertificateKey := f.sslCertificateKey;
      settings := f.settings;
    }

    method SetServerName(name: string)
      requires Valid()
      modifies this
      ensures Valid()
      ensures Fields() == old(Fields()).(serverName := name, settings := old(settings)[NameKey := VString(name)])
    {
      SetServerNameKeepsValid(Fields(), systemTimeZoneId, name);
      settings := settings[NameKey := VString(name)];
      serverName := name;
    }

    method SetTimeZone(zone: string)
      requires Valid()
      modifies this
      ensures Valid()
      ensures Fields() == old(Fields()).(timeZone := zone, settings := old(settings)[TimeZoneKey := VString(zone)])
    {
      SetTimeZoneKeepsValid(Fields(), systemTimeZoneId, zone);
      settings := settings[TimeZoneKey := VString(zone)];
      timeZone := zone;
    }

    method SetLocale(localeName: string)
      requires Valid()
      modifies this
      ensures Valid()
      ensures Fields() == old(Fields()).(locale := localeName, settings := old(settings)[LanguageKey := VString(localeName)])
    {
      SetLocaleKeepsValid(Fields(), systemTimeZoneId, localeName);
      settings := settings[LanguageKey := VString(localeName)];
      locale := localeName;
    }

    method SetTcpServerConfiguration(config: ServerConfiguration)
      requires Valid()
      modifies this
      ensures Valid()
      ensures Fields() == old(Fields()).(tcp := old(tcpServerConfigs)[config.id := config],
                                          settings := StoreServerConfig(old(settings), "TcpServer", config))
    {
      SetTcpKeepsValid(Fields(), systemTimeZoneId, config);
      tcpServerConfigs := tcpServerConfigs[config.id := config];
      settings := StoreServerConfig(settings, "TcpServer", config);
    }

    method SetWebServerConfiguration(config: WebServerConfiguration)
      requires Valid()
      modifies this
      ensures Valid()
      ensures Fields() == old(Fields()).(web := old(webServerConfigs)[config.server.id := config],
                                          settings := StoreWebServerConfig(old(settings), config))
    {
      SetWebKeepsValid(Fields(), systemTimeZoneId, config);
      webServerConfigs := webServerConfigs[config.server.id := config];
      settings := StoreServerConfig(settings, "WebServer", config.server);
      settings := settings[EntryKey("WebServer", config.server.id, "publicFolder") := VString(config.publicFolder)];
    }

    method SetWebSocketServerConfiguration(config: ServerConfiguration)
      requires Valid()
      modifies this
      ensures Valid()
      ensures Fields() == old(Fields()).(webSocket := old(webSocketServerConfigs)[config.id := config],
                                          settings := StoreServerConfig(old(settings), "WebSocketServer", config))
    {
      SetWebSocketKeepsValid(Fields(), systemTimeZoneId, config);
      webSocketServerConfigs := webSocketServerConfigs[config.id := config];
      settings := StoreServerConfig(settings, "WebSocketServer", config);
    }

    method SetBluetoothServerEnabled(enabled: bool)
      requires Valid()
      modifies this
      ensures Valid()
      ensures Fields() == old(Fields()).(bluetoothServerEnabled := enabled,
                                          settings := old(settings)[BluetoothEnabledKey := VBool(enabled)])
    {
      SetBluetoothKeepsValid(Fields(), systemTimeZoneId, enabled);
      settings := settings[BluetoothEnabledKey := VBool(enabled)];
      bluetoothServerEnabled := enabled;
    }

    method SetSslCertificate(certificate: string, certificateKey: string)
      requires Valid()
      modifies this
      ensures Valid()
      ensures Fields() == old(Fields()).(sslCertificate := certificate, sslCertificateKey := certificateKey,
                                          settings := old(settings)[SslCertificateKey := VString(certificate)]
                                                                   [SslCertificateKeyKey := VString(certificateKey)])
    {
      SetSslCertificateKeepsValid(Fields(), systemTimeZoneId, certificate, certificateKey);
      settings := settings[SslCertificateKey := VString(certificate)][SslCertificateKeyKey := VString(certificateKey)];
      sslCertificate := certificate;
      sslCertificateKey := certificateKey;
    }

    method SetServerUuid(uuid: string)
      requires Valid()
      modifies this
      ensures Valid()
      ensures Fields() == old(Fields()).(serverUuid := uuid, settings := old(settings)[UuidKey := VUuid(uuid)])
    {
      SetServerUuidKeepsValid(Fields(), systemTimeZoneId, uuid);
      settings := settings[UuidKey := VUuid(uuid)];
      serverUuid := uuid;
    }
  }
}
