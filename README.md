# nymea server core: debug handler, Zigbee manager, server configuration, device descriptors

This project models the core of the nymea home-automation server in Dafny and proves properties of the model.
It covers these parts:

- **Debug request handler** (`DebugRouting`, `DebugServer`):
  - The router tries path prefixes in a fixed order. It serves the log database, the syslog and the settings files with a NotFound / Forbidden / Ok outcome. It serves bundled resources with a content type chosen by extension. Anything else is redirected to `/debug`.
  - There are three single-flight probe slots: ping, dig and tracepath. Each holds a process and a pending asynchronous reply.
  - A report session holds at most one report generator. It supports poll, fetch and timeout.
  - The live-log client list installs the live-log message handler when its first client connects. It restores the previous handler when its last client leaves. The log-line formatter is part of it.
- **Zigbee manager** (`ZigbeeManagement`):
  - The adapter list, as the serial adapter monitor reports it.
  - The network table, keyed by uuid.
  - The ordered checks each network operation makes before it touches the table, with their error codes.
- **Server configuration** (`GuhConfig`):
  - The scalar settings of the `guhd` group, plus the Bluetooth and SSL settings.
  - The three server tables (TCP, web and websocket), each keyed by id.
  - The settings store they are kept in step with. In the model, reading the store back at any point yields the configuration object's fields, so a restart sees what was set. This holds because start-up uses the corrected web default (see Findings); the source as written loses the default web entry's folder on a restart.
  - Start-up: the defaults of the non-testing build, the generated uuid, and a default entry stored for each missing server group.
- **Device descriptor** (`DeviceDescriptors`): its three constructors, its validity predicate and its three setters.
- **Interface state types** (`InterfaceStates`): the optional flag, the list type, and the first-match search by name.

The handler, the manager, the configuration and the descriptor are classes, because the source updates their fields in place.

The outside world becomes values and events:

- A file is an entry in a map, holding whether it is readable and its bytes.
- A finished process is its exit code and its output.
- A websocket client is a number.
- A message handler is a token.
- The settings store is a map from keys to variant values.
- A uuid that the source would generate is a parameter.

Source behaviour modelled as written:

- `/debug/settings/devicestates` starts with `/debug/settings/devices`. It is therefore served from the Devices-role file, and the DeviceStates branch is never reached.
- A file that exists but cannot be opened gets a Forbidden reply whose error document carries the NotFound code.
- A comment near the report poll speaks of status 202. The code answers Ok (200), and so does the model.

## Model

| member | source | states |
|---|---|---|
| DebugRouting.DebugPageIffExact | libnymea-core/debugserverhandler.cpp:60-67 | A request is routed to the debug page exactly when its path is `/debug` or `/debug/`. |
| DebugRouting.FallThroughIffNoPrefix | libnymea-core/debugserverhandler.cpp:55-459 | A path falls through to the resource-or-redirect step exactly when it is neither the debug page nor starts with any handled prefix. |
| DebugRouting.DeviceStatesUnreachable | libnymea-core/debugserverhandler.cpp:132-248 | A `/debug/settings/devicestates` path is served from the Devices-role file, and no path is ever routed to the DeviceStates-role file. |
| DebugRouting.MqttPoliciesReachable | libnymea-core/debugserverhandler.cpp:308-335 | The MQTT-policies path, which sits outside the settings block, is still routed to its own file. |
| DebugRouting.FileResponse | libnymea-core/debugserverhandler.cpp:70-98 | A missing file gives NotFound and an unreadable one gives Forbidden, each with an HTML error document naming the file. A readable file gives Ok with exactly its bytes and the branch's content type. |
| DebugRouting.RemoveAllNoOccurrence | libnymea-core/debugserverhandler.cpp:501-504 | Removing a pattern that does not occur leaves the path unchanged. |
| DebugRouting.ResourceOfDebugAsset | libnymea-core/debugserverhandler.cpp:501-504 | The resource name of `/debug` followed by a name without `/debug` in it is that name. |
| DebugRouting.ResourceContentType | libnymea-core/debugserverhandler.cpp:512-534 | A resource gets a content type exactly when its name ends in `.css`, `.svg`, `.js` or `.png`, and each of these extensions gets its own type: CSS, SVG and JavaScript with a UTF-8 charset, and PNG. |
| DebugRouting.FallbackResponse | libnymea-core/debugserverhandler.cpp:450-534 | An unknown resource gives PermanentRedirect to `/debug`. A known one gives Ok with the extension-chosen type and no location. Its payload is exactly the resource's bytes when the resource can be opened, and empty when it cannot. |
| DebugRouting.FormatLogLine | libnymea-core/debugserverhandler.cpp:462-482 | The line is a space, the severity letter, ` \| `, the category, `: `, the message and a newline, at the stated positions. |
| DebugRouting.SeverityLetters | libnymea-core/debugserverhandler.cpp:466-482 | Debug and Info share the letter `I`. Two message types share a letter only if both are Debug or Info. |
| DebugServer.ProbeCommand | libnymea-core/debugserverhandler.cpp:337-380 | The ping probe runs `ping -c 4 nymea.io`, the dig probe `dig nymea.io` and the tracepath probe `tracepath nymea.io`. Each program belongs to one probe only, and every command targets `nymea.io`. |
| DebugServer.Poll | libnymea-core/debugserverhandler.cpp:410-446 | Without a generator a new one is created and the answer is NoContent. While generating the answer is NoContent. A valid report gives Ok with its name, data length and checksum and keeps the session. A failed one clears the session and gives InternalServerError. |
| DebugServer.Fetch | libnymea-core/debugserverhandler.cpp:388-409 | The archive is returned exactly when a generator exists and the requested name is its file name; otherwise NotFound. |
| DebugServer.PollIdempotentWhenReady | libnymea-core/debugserverhandler.cpp:424-440 | Once valid, polling again returns the same reply and keeps the session. The reported file size is the archive length. |
| DebugServer.ReportProtocol | libnymea-core/debugserverhandler.cpp:382-448 | Generate, poll and download end to end: polls before the build ends get NoContent. The poll after a valid build gets the summary. Downloading by the report's name gets the archive, and any other name gets NotFound. |
| DebugServer.DebugReportGenerator.Complete | libnymea-core/debugserverhandler.cpp:424-445 | A finished build becomes ready. It keeps its data and checksum only on success. |
| DebugServer.RemoveClient | libnymea-core/debugserverhandler.cpp:578-582 | Every copy of the leaving client is removed, and every other client keeps its number of copies. |
| DebugServer.RemoveClientAppend | libnymea-core/debugserverhandler.cpp:578-582 | Removal keeps the list order of the remaining clients: a client at the end stays at the end of the result unless it is the one removed. |
| DebugServer.ConnectPreserves | libnymea-core/debugserverhandler.cpp:559-576 | A connect appends the client and keeps the live-log invariant. Only the first client installs the handler and saves the previous one. |
| DebugServer.DisconnectPreserves | libnymea-core/debugserverhandler.cpp:578-590 | A disconnect keeps the invariant. When the last client leaves, the handler saved by the first connect is reinstalled. |
| DebugServer.TwoClientsRestore | libnymea-core/debugserverhandler.cpp:559-590 | With two clients connecting and leaving in turn, the handler is installed once, stays while one remains, and the original comes back at the end. |
| DebugServer.DebugServerHandler.constructor | libnymea-core/debugserverhandler.cpp:44-53 | All probe slots are idle, there is no report generator and no live-log client, and the invariant holds. |
| DebugServer.DebugServerHandler.ProcessDebugRequest | libnymea-core/debugserverhandler.cpp:55-460 | Each route gets its reply. File routes get the file result, probes and reports follow their protocols, and other paths get the resource or the redirect. The live-log state is untouched. |
| DebugServer.DebugServerHandler.StartProbe | libnymea-core/debugserverhandler.cpp:337-380 | A busy slot gives InternalServerError and stays unchanged. An idle slot gets the probe's process and a fresh pending async reply, which is returned. |
| DebugServer.DebugServerHandler.OnProbeProcessFinished | libnymea-core/debugserverhandler.cpp:598-641 | The pending reply is finished as Ok with the process output, whatever the exit code. The slot becomes idle and the other slots are unchanged. |
| DebugServer.DebugServerHandler.HandleReportRequest | libnymea-core/debugserverhandler.cpp:382-448 | A request with a file name is answered by Fetch and keeps the session. Without one it is answered by Poll, and the session becomes Poll's session. |
| DebugServer.DebugServerHandler.OnDebugReportGeneratorTimeout | libnymea-core/debugserverhandler.cpp:649-656 | The report session is cleared unconditionally, and nothing else changes. |
| DebugServer.DebugServerHandler.OnWebsocketClientConnected | libnymea-core/debugserverhandler.cpp:559-576 | The client list and handler change as ClientConnected says, and the invariant is kept. |
| DebugServer.DebugServerHandler.OnWebsocketClientDisconnected | libnymea-core/debugserverhandler.cpp:578-590 | The client list and handler change as ClientDisconnected says, and the invariant is kept. |
| DebugServer.DebugServerHandler.LogMessageHandler | libnymea-core/debugserverhandler.cpp:462-488 | The message goes first to the saved handler. Then one formatted line is delivered to each client, in list order. |
| DebugServer.SingleFlightRun | libnymea-core/debugserverhandler.cpp:337-611 | A second ping while one runs is refused with InternalServerError. The first reply is finished with the output. After that, a new ping is accepted. |
| DebugServer.ReportRun | libnymea-core/debugserverhandler.cpp:382-656 | Across a whole session, polls answer NoContent and then the summary, the download returns the data, and after a timeout a new generator is started. |
| ZigbeeManagement.ConvertUartAdapterToAdapter | libnymea-core/zigbee/zigbeemanager.cpp:363-383 | Name, location, description, recognition flag and baud rate are copied. The backend has no value exactly when the library's backend is unhandled. |
| ZigbeeManagement.ConvertAll | libnymea-core/zigbee/zigbeemanager.cpp:56-60 | Every monitor adapter is converted, in order. |
| ZigbeeManagement.CreateNetworkError | libnymea-core/zigbee/zigbeemanager.cpp:105-120 | AdapterAlreadyInUse exactly when a network uses the adapter's port. AdapterNotAvailable exactly when the port is free but the adapter is not listed. Otherwise NoError. |
| ZigbeeManagement.CreateKeepsPortsDistinct | libnymea-core/zigbee/zigbeemanager.cpp:105-132 | A successful create adds exactly one network and keeps every serial port used by at most one network. |
| ZigbeeManagement.RemovedAdapterNotAvailable | libnymea-core/zigbee/zigbeemanager.cpp:69-77 | Once an adapter's location has been removed, creating a network on that location is refused. |
| ZigbeeManagement.RemoveFreesPort | libnymea-core/zigbee/zigbeemanager.cpp:134-147 | Removing a network frees its port and keeps ports distinct. |
| ZigbeeManagement.PermitJoinError | libnymea-core/zigbee/zigbeemanager.cpp:161-186 | The checks run in order: the uuid is known, then the duration is at most 255, then the network is running. Each error holds exactly when the earlier checks pass and its own fails. |
| ZigbeeManagement.WithoutLocation | libnymea-core/zigbee/zigbeemanager.cpp:69-77 | An adapter stays exactly when it was listed and is at another location. The kept and the announced adapters together are the old list, copies counted. |
| ZigbeeManagement.WithoutLocationAppend | libnymea-core/zigbee/zigbeemanager.cpp:69-77 | Removal by location keeps the list order of the remaining adapters. |
| ZigbeeManagement.AtLocation | libnymea-core/zigbee/zigbeemanager.cpp:69-77 | The announced adapters are exactly the listed adapters at the removed location. |
| ZigbeeManagement.RemoveAll | libnymea-core/zigbee/zigbeemanager.cpp:73 | The list's removeAll drops every copy of the removed adapter, and every other adapter keeps its number of copies. |
| ZigbeeManagement.RemoveAllAppend | libnymea-core/zigbee/zigbeemanager.cpp:73 | removeAll keeps the list order of the remaining adapters. |
| ZigbeeManagement.ZigbeeManager.constructor | libnymea-core/zigbee/zigbeemanager.cpp:44-83 | The adapter list is the monitor's adapters, converted and in order, and the networks are the loaded ones. |
| ZigbeeManagement.ZigbeeManager.Available | libnymea-core/zigbee/zigbeemanager.cpp:85-88 | The manager is available exactly when some network exists. |
| ZigbeeManagement.ZigbeeManager.CreateZigbeeNetwork | libnymea-core/zigbee/zigbeemanager.cpp:105-132 | The result is CreateNetworkError. On error the table is unchanged. On success exactly one network is added under the new uuid, with the adapter's port and baud rate and the requested channel mask. |
| ZigbeeManagement.ZigbeeManager.RemoveZigbeeNetwork | libnymea-core/zigbee/zigbeemanager.cpp:134-159 | An unknown uuid gives NetworkUuidNotFound with the table unchanged. A known one removes only that entry. |
| ZigbeeManagement.ZigbeeManager.SetZigbeeNetworkPermitJoin | libnymea-core/zigbee/zigbeemanager.cpp:161-186 | The result is PermitJoinError. Permit joining is set on that network only when all checks pass. |
| ZigbeeManagement.ZigbeeManager.FactoryResetNetwork | libnymea-core/zigbee/zigbeemanager.cpp:188-199 | NoError exactly for a known uuid, NetworkUuidNotFound otherwise. |
| ZigbeeManagement.ZigbeeManager.OnNetworkStateChanged | libnymea-core/zigbee/zigbeemanager.cpp:298-304 | The network's new state is recorded, and nothing else changes. |
| ZigbeeManagement.ZigbeeManager.OnAdapterAdded | libnymea-core/zigbee/zigbeemanager.cpp:62-67 | The converted adapter is appended at the end and announced. |
| ZigbeeManagement.ZigbeeManager.OnAdapterRemoved | libnymea-core/zigbee/zigbeemanager.cpp:69-77 | Every adapter at the removed location leaves the list, order kept. Each one found there is announced, in list order. |
| GuhConfig.DecimalString | server/guhconfiguration.cpp:333 | A number stored as the port and read back as text is its decimal digits: a non-empty string of digits that denotes the number, with no leading zero unless the number is 0. |
| GuhConfig.PortTextReadsBack | server/guhconfiguration.cpp:333-348 | A 32-bit port written as a number and given back as its text reads back as the same port. |
| GuhConfig.BoolTextReadsBack | server/guhconfiguration.cpp:335-350 | A flag given back as the text `true` or `false` reads back as the same flag, and `false` is recognised in any case. |
| GuhConfig.StoreServerConfig | server/guhconfiguration.cpp:327-338 | The entry's address, port, SSL and authentication keys are written under group/id, and no other key changes. |
| GuhConfig.ReadServerConfig | server/guhconfiguration.cpp:340-354 | The id is the requested one. Absent SSL and authentication keys read as true, and an absent port reads as 0. |
| GuhConfig.StoreThenRead | server/guhconfiguration.cpp:327-354 | Reading back a stored server configuration gives it back exactly. |
| GuhConfig.StoreKeepsOtherReads | server/guhconfiguration.cpp:327-354 | Storing one entry leaves every other group/id read unchanged. |
| GuhConfig.ReadWebServerConfig | server/guhconfiguration.cpp:71-85 | A stored web entry reads as the server part plus its own publicFolder, which is empty when absent. |
| GuhConfig.StoreWebServerConfig | server/guhconfiguration.cpp:242-257 | The web entry's server keys and its publicFolder are written. |
| GuhConfig.StoreWebThenRead | server/guhconfiguration.cpp:242-257 | Reading back a web configuration stored by the setter gives it back exactly, publicFolder included. |
| GuhConfig.PutGroups | server/guhconfiguration.cpp:47-49 | Writing a key adds its group to the child groups and, for an entry key, its id to the group's children. |
| GuhConfig.StoreServerConfigGroups | server/guhconfiguration.cpp:47-66 | Storing an entry makes its group a child group and its id a child of that group. Other groups keep their children. |
| GuhConfig.AbsentGroupHasNoChildren | server/guhconfiguration.cpp:47-49 | A group that is not a child group has no children. |
| GuhConfig.StoreKeepsGroupKeys | server/guhconfiguration.cpp:327-338 | Storing a server entry leaves every group-level key as it was. |
| GuhConfig.StoreKeepsOwnTable | server/guhconfiguration.cpp:230-235 | Storing an entry and replacing it in its table keeps that table in step with the store. |
| GuhConfig.StoreKeepsOtherTable | server/guhconfiguration.cpp:230-235 | Storing in one group keeps every other group's table in step. |
| GuhConfig.StoreKeepsWebRead | server/guhconfiguration.cpp:327-354 | Storing any other entry leaves a web entry's read unchanged. |
| GuhConfig.PublicFolderKeepsReads | server/guhconfiguration.cpp:248-254 | Writing one publicFolder changes no server read and no other id's web read. |
| GuhConfig.StoreKeepsWebTable | server/guhconfiguration.cpp:230-235 | Storing in a non-web group keeps the web table in step. |
| GuhConfig.StoreWebKeepsWebTable | server/guhconfiguration.cpp:242-257 | The web setter keeps the web table in step with the store. |
| GuhConfig.StoreWebKeepsOtherTable | server/guhconfiguration.cpp:242-257 | The web setter keeps the other tables in step. |
| GuhConfig.ShortKeyKeepsReads | server/guhconfiguration.cpp:176-223 | Writing a group-level key (name, time zone, language, uuid, Bluetooth, SSL) changes no server-entry read. |
| GuhConfig.ShortKeyKeepsTables | server/guhconfiguration.cpp:176-223 | Writing a group-level key keeps all three tables in step. |
| GuhConfig.DefaultServerConfig | server/guhconfiguration.cpp:56-66 | A generated default entry has id `default`, address `0.0.0.0`, the given port, and no SSL or authentication. |
| GuhConfig.DefaultWebStartupAsWritten | server/guhconfiguration.cpp:86-102 | The web default as written: port 3333, folder read from the top-level key with the stock default, only the server keys stored. |
| GuhConfig.DefaultWebFolderLostOnRestart | server/guhconfiguration.cpp:70-102 | Starting from an empty store, the default web entry has the stock folder, but the store reads it back with an empty folder. |
| GuhConfig.DefaultWebStartup | server/guhconfiguration.cpp:86-102 | The corrected web default: the same entry, with its folder also stored, so the store reads back exactly the entry. |
| GuhConfig.StoreKeepsScalarKeys | server/guhconfiguration.cpp:327-338 | Storing a server entry leaves the eight scalar keys untouched. |
| GuhConfig.EntryPutKeepsScalarKeys | server/guhconfiguration.cpp:248-254 | Writing an entry-level key leaves the scalar keys untouched. |
| GuhConfig.LoadServerGroup | server/guhconfiguration.cpp:47-66 | A present group is read entry by entry from its children, with the store unchanged. An absent group gets the single stored default entry. Either way the table is in step with the store. |
| GuhConfig.LoadWebServerGroup | server/guhconfiguration.cpp:70-102 | The same for the web group, with each entry's publicFolder. The corrected default is used. |
| GuhConfig.SetServerNameKeepsValid | server/guhconfiguration.cpp:176-187 | Writing the name to the store and the field keeps every field equal to what the store reads back. |
| GuhConfig.SetTimeZoneKeepsValid | server/guhconfiguration.cpp:194-205 | The same for the time zone. |
| GuhConfig.SetLocaleKeepsValid | server/guhconfiguration.cpp:212-223 | The same for the locale's name. |
| GuhConfig.SetServerUuidKeepsValid | server/guhconfiguration.cpp:315-325 | The same for the uuid. |
| GuhConfig.SetBluetoothKeepsValid | server/guhconfiguration.cpp:276-287 | The same for the Bluetooth flag. |
| GuhConfig.SetSslCertificateKeepsValid | server/guhconfiguration.cpp:299-313 | The same for both SSL paths. |
| GuhConfig.ScalarsKept | server/guhconfiguration.cpp:327-338 | Storing a server entry does not change whether the scalar fields match the store. |
| GuhConfig.ScalarsKeptByEntry | server/guhconfiguration.cpp:248-254 | Writing an entry-level key does not change whether the scalar fields match the store. |
| GuhConfig.SetTcpKeepsValid | server/guhconfiguration.cpp:230-235 | Replacing the entry by id in the TCP table and storing it keeps the configuration valid. |
| GuhConfig.SetWebSocketKeepsValid | server/guhconfiguration.cpp:264-269 | The same for the websocket table. |
| GuhConfig.SetWebKeepsValid | server/guhconfiguration.cpp:242-257 | The same for the web table, publicFolder included. |
| GuhConfig.UuidStartup | server/guhconfiguration.cpp:39-43 | A stored non-null uuid is kept with the store unchanged. A null one is replaced by the generated uuid, which is written back. Either way the uuid is not null. |
| GuhConfig.LoadServers | server/guhconfiguration.cpp:46-125 | The TCP, web and websocket tables are loaded in order, and each missing group gets its default on 2222, 3333 or 4444. All three end in step with the store, and the scalar keys are untouched. |
| GuhConfig.OtherGroupUnchanged | server/guhconfiguration.cpp:47-66 | Loading one group does not change whether another group is present. |
| GuhConfig.WebStartupKeepsOtherGroup | server/guhconfiguration.cpp:86-102 | The web default does not change whether another group is present. |
| GuhConfig.TablesSurviveLaterLoads | server/guhconfiguration.cpp:46-125 | A table loaded earlier stays in step after the later groups are loaded. |
| GuhConfig.UuidStartupKeeps | server/guhconfiguration.cpp:33-44 | Writing the generated uuid touches no other scalar key and no group other than `guhd`. |
| GuhConfig.Startup | server/guhconfiguration.cpp:30-164 | Start-up yields valid fields. The scalars come from the store with their defaults, the uuid is not null, missing groups get their defaults, and the Bluetooth and SSL values are written back. Start-up uses the corrected web default (see Findings). |
| GuhConfig.GuhConfiguration.constructor | server/guhconfiguration.cpp:30-164 | The object is valid and holds what Startup promises. It starts with the corrected web default (see Findings). |
| GuhConfig.GuhConfiguration.SetServerName | server/guhconfiguration.cpp:176-187 | The name is written to the store and the field, nothing else changes, and the object stays valid. |
| GuhConfig.GuhConfiguration.SetTimeZone | server/guhconfiguration.cpp:194-205 | The same for the time zone. |
| GuhConfig.GuhConfiguration.SetLocale | server/guhconfiguration.cpp:212-223 | The same for the locale. |
| GuhConfig.GuhConfiguration.SetTcpServerConfiguration | server/guhconfiguration.cpp:230-235 | Only the entry keyed by the configuration's id is replaced and stored. |
| GuhConfig.GuhConfiguration.SetWebServerConfiguration | server/guhconfiguration.cpp:242-257 | The same for the web table, and publicFolder is stored too. |
| GuhConfig.GuhConfiguration.SetWebSocketServerConfiguration | server/guhconfiguration.cpp:264-269 | The same for the websocket table. |
| GuhConfig.GuhConfiguration.SetBluetoothServerEnabled | server/guhconfiguration.cpp:276-287 | The flag is written to the store and the field. |
| GuhConfig.GuhConfiguration.SetSslCertificate | server/guhconfiguration.cpp:299-313 | Both paths are written to the store and the fields. |
| GuhConfig.GuhConfiguration.SetServerUuid | server/guhconfiguration.cpp:315-325 | The uuid is written to the store and the field. |
| DeviceDescriptors.DeviceDescriptor.Empty | libguh/plugin/devicedescriptor.cpp:3-7 | The descriptor gets a generated id and null class, empty texts and no params, so it is not valid. |
| DeviceDescriptors.DeviceDescriptor.ForClass | libguh/plugin/devicedescriptor.cpp:9-16 | Class id, title and description are the arguments and the id is generated. The descriptor is valid exactly when the class id is not null. |
| DeviceDescriptors.DeviceDescriptor.constructor | libguh/plugin/devicedescriptor.cpp:18-54 | The getters return exactly the four arguments. The descriptor is valid exactly when neither id is null. |
| DeviceDescriptors.DeviceDescriptor.SetTitle | libguh/plugin/devicedescriptor.cpp:41-49 | Only the title changes, and validity is unchanged. |
| DeviceDescriptors.DeviceDescriptor.SetDescription | libguh/plugin/devicedescriptor.cpp:51-59 | Only the description changes, and validity is unchanged. |
| DeviceDescriptors.DeviceDescriptor.SetParams | libguh/plugin/devicedescriptor.cpp:61-69 | Only the params change, and validity is unchanged. |
| InterfaceStates.InterfaceStateType.SetOptional | libnymea/types/interfacestatetype.cpp:8-16 | The flag reads back as the value set, and the name is kept. |
| InterfaceStates.FromList | libnymea/types/interfacestatetype.cpp:18-22 | The list type holds the same elements in the same order. |
| InterfaceStates.FindByName | libnymea/types/interfacestatetype.cpp:24-32 | When some element has the name, the result is the first one, in list order, that has it. Otherwise it is the default-constructed state type. The list is a value and is not changed. |
| InterfaceStates.FindByNameFindsPresentName | libnymea/types/interfacestatetype.cpp:24-32 | Searching for a name present in the list returns a list element with that name. |
| InterfaceStates.FindByNameUniqueNames | libnymea/types/interfacestatetype.cpp:24-32 | When names are distinct, searching for an element's name returns that element. |

## Left out

- Page rendering: the debug page and the error page are abstract bodies. An error page is its status code plus its message with the file name.
- File, process, websocket and message-handler I/O: files, process output, clients and handlers are values. The websocket server's listen and close on the enable flag are not modelled, nor is the client error slot, which only logs.
- The report generator's archive build, checksum and expiry timer are not part of this model. The generator is its file name, its state, its data and its checksum. The generator-finished slot only logs and is not modelled.
- Signal and slot wiring and the event loop: each callback is a method called in sequence.
- The handler's list of websocket clients and saved message handler are static in the source. With one handler object, they are modelled as fields of that object.
- `DebugServer.DebugServerHandler.LogMessageHandler`: the line is delivered to every client in list order. Sending over the socket is not modelled.
- Zigbee network objects (start, destroy, factory reset inside the library) and network persistence in the settings (save, load, removal of the settings group) are not modelled. A network is the record of the fields the manager sets and reads.
- `ZigbeeManagement.ZigbeeManager.CreateZigbeeNetwork`: building the network object for an unhandled backend may return a null object, which the source would then dereference; this depends on the adapter's default backend, which is not part of this model. The model keeps the adapter's optional backend and does not model that crash. The new uuid is a parameter, required to name no existing network, as a freshly generated uuid does.
- Adapter equality is taken as equality of all fields.
- Server entry ids are assumed non-empty and free of `/`. The settings file would not list such an id among a group's children on a restart, so the model's persistence claims do not cover them.
- Configuration values: addresses are opaque strings, and locales and time zones are their names without normalisation. Variant conversions follow the settings library's rules in part. A number reads as itself, a flag as 1 or 0, text as the decimal number it spells (cut to 32 bits, and 0 when it is not a run of digits or does not fit in 64 bits), and a uuid as 0; surrounding spaces and a leading `+` in text are not accepted. A flag reads as itself, a number as true when non-zero, text as false exactly when, with its ASCII capitals lowered, it is empty, `0` or `false` (other characters are not case-folded), and a uuid as false. A uuid reads as itself and anything else, text included, as the null uuid. The settings file format is not modelled.
- `DebugRouting.FormatLogLine`: the category is inserted verbatim. The source fills the template with two chained substitutions, and the second one also replaces a `%N` marker (N from 0 to 99, optionally written `%LN`) that the category itself holds. The model's line matches the source only for categories without such markers.
- `GuhConfig.Startup`: uses the corrected web default (see Findings), so when the WebServer group is missing its store also holds the default entry's folder, which the source does not write.
- `GuhConfig.LoadServers`: uses the corrected web default (see Findings), with the same extra folder key as Startup.
- `GuhConfig.LoadWebServerGroup`: uses the corrected web default (see Findings), which stores the default entry's folder; the as-written default is DefaultWebStartupAsWritten.
- The testing-build and snap-build variants of the configuration's start-up are not modelled. The getters are the class's fields.
- `GuhConfig.GuhConfiguration.constructor`: the uuid the source generates is a parameter, required not to be null. The constructor starts with the corrected web default (see Findings), so after a first start its store also holds the default web entry's folder, which the source does not write.
- `DeviceDescriptors.DeviceDescriptor.Empty`: the generated descriptor id is a parameter, required not to be null.
- `DeviceDescriptors.DeviceDescriptor.ForClass`: the generated descriptor id is a parameter, required not to be null.
- Params are opaque pairs of a type id and a value.
- `InterfaceStates.InterfaceStateType.SetOptional`: lists hold state types by value, so a state type is a datatype and setting the flag yields the changed copy rather than updating an object in place.
- The base state type's other fields are not part of this model. A default-constructed state type is taken to have an empty name and the flag unset; the header that sets the flag's initial value is not part of this model.
- The Kodi plugin header only declares a plugin and is not modelled.

## Findings

| source | as written | input that shows it | evidently intended | confidence | as-written member | corrected member |
|---|---|---|---|---|---|---|
| server/guhconfiguration.cpp:86-102 | With no WebServer group, the default web entry takes its public folder from a top-level key, but only its server keys are stored. On the next start the group exists, and lines 70-85 read `WebServer/default/publicFolder`, which was never written, as an empty folder. | An empty settings store: the first start serves `/usr/share/guh-webinterface/public/`, the second an empty folder. | Store the folder with the entry, as the web setter does at lines 242-257, so that a restart reads back the same entry. | not executed | GuhConfig.DefaultWebFolderLostOnRestart (on GuhConfig.DefaultWebStartupAsWritten) | GuhConfig.DefaultWebStartup (used by GuhConfig.LoadWebServerGroup) |
