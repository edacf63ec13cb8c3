# DeadlockClient session core, in Dafny

This project models the session lifecycle and message handling of `DeadlockClient`, the
Steam client that connects to Deadlock's game coordinator (GC):

- the client's own state: the cached credential (`lastUsername`, `lastToken`), loaded at
  construction from `.username` and `.token` when those exist; the user-disconnect flag
  `disconnecting`; and the `clientVersion` the GC announces in its welcome;
- the SteamKit2 callbacks and public calls that change that state: `Connect`, `Disconnect`,
  `OnConnected` (cached or QR logon, credential caching and saving), `OnDisconnected`
  (reconnect unless the user disconnected), `OnLoggedOn` (games-played, then the GC hello),
  `OnGCMessage` with its two handlers;
- the GC requests: `SendAndReceiveWithJob` (job id stamped before the send, any exception
  gives null), `GetMatchMetaData` with its replay and metadata links, `SpectateLobby` with
  the recorded client version, and `GetMatchHistory`.

Everything the client does to the outside world (transport connect and disconnect, logon,
file writes, sends to Steam and to the GC, raised events) is one `Command` appended to an
append-only trace. Values SteamKit2 supplies (the QR poll result, job ids, logon results,
awaited replies) are parameters.

Layout:

- `wrappers.dfy`: `Option`, standing for C#'s nullable types.
- `messages.dfy`: credentials, GC packets and message-type tags, outbound request bodies,
  the `Command` trace entries, `APPID` = 1422450.
- `dispatch.dfy`: the handler table of `OnGCMessage` and the lookup in it.
- `decimal.dfy`: how `$"{n}"` writes an unsigned number, and reading it back.
- `match_urls.dfy`: the two download links of `GetMatchMetaData` and a parser that reads
  them back, with the round trip proved.
- `session.dfy`: a pure state machine. `Step` is the effect of one event on a snapshot of the
  four fields, and `Run` folds it over a sequence of events, as the callback loop delivers
  them. The lemmas about single events and about whole runs live here.
- `deadlock_client.dfy`: the class `DeadlockClient` with the four fields and the trace. Each
  method states its new state and trace outright. Each public call and SteamKit2 callback
  is also proved to take exactly one `Step`. `OnClientWelcome`, `OnDevPlaytestStatus` and
  `SendAndReceiveWithJob` are parts of a step and state only their own effect. Two scenario
  methods show that the contracts compose.

## Model

| member | source | states |
|---|---|---|
| `Client.DeadlockClient.constructor` | deadlock-steamworks/DeadlockAPI/DeadlockClient.cs:25-48 | the cached username and token are whatever `.username` and `.token` held (absent if missing); the flag is clear, the version 0, nothing issued |
| `Client.DeadlockClient.Connect` | deadlock-steamworks/DeadlockAPI/DeadlockClient.cs:52-56 | clears the flag and appends exactly one transport connect; nothing else changes |
| `Client.DeadlockClient.Disconnect` | deadlock-steamworks/DeadlockAPI/DeadlockClient.cs:58-61 | sets the flag and appends exactly one transport disconnect; nothing else changes |
| `Client.DeadlockClient.OnConnected` | deadlock-steamworks/DeadlockAPI/DeadlockClient.cs:73-103 | with both fields cached, appends only a logon with that pair; otherwise begins the QR session, replaces both fields by the poll result, writes `.username` then `.token`, then logs on with the new pair |
| `Client.DeadlockClient.OnDisconnected` | deadlock-steamworks/DeadlockAPI/DeadlockClient.cs:105-111 | after a user disconnect, changes and issues nothing; otherwise issues exactly one transport connect |
| `Client.DeadlockClient.OnLoggedOn` | deadlock-steamworks/DeadlockAPI/DeadlockClient.cs:113-133 | a result other than OK issues nothing; OK issues games-played for app 1422450, then the GC hello to app 1422450; no state changes |
| `Client.DeadlockClient.OnGCMessage` | deadlock-steamworks/DeadlockAPI/DeadlockClient.cs:135-148 | a welcome sets the version and raises one welcome event; a playtest status raises one playtest event and keeps the version; any other type changes and raises nothing |
| `Client.DeadlockClient.OnClientWelcome` | deadlock-steamworks/DeadlockAPI/DeadlockClient.cs:211-215 | the version becomes the welcome's version, and the welcome event is raised with the body |
| `Client.DeadlockClient.OnDevPlaytestStatus` | deadlock-steamworks/DeadlockAPI/DeadlockClient.cs:221-224 | raises the playtest event with the body and changes no state |
| `Client.DeadlockClient.SendAndReceiveWithJob` | deadlock-steamworks/DeadlockAPI/DeadlockClient.cs:150-164 | the one send carries the handed-out job id; the result is the reply, or null when awaiting or decoding threw |
| `Client.DeadlockClient.GetMatchMetaData` | deadlock-steamworks/DeadlockAPI/DeadlockClient.cs:172-183 | sends one metadata request for the match, stamped with the job id, and leaves the session fields unchanged; the result is `MatchMetaDataOf` of the reply |
| `Client.DeadlockClient.SpectateLobby` | deadlock-steamworks/DeadlockAPI/DeadlockClient.cs:185-190 | sends one spectate request for the lobby carrying the current `clientVersion` and the job id, leaves the session fields unchanged, and returns the reply or null |
| `Client.DeadlockClient.GetMatchHistory` | deadlock-steamworks/DeadlockAPI/DeadlockClient.cs:192-196 | sends one match-history request for the given account, stamped with the job id, and leaves the session fields unchanged; returns the reply or null |
| `Dispatch.Route` | deadlock-steamworks/DeadlockAPI/DeadlockClient.cs:136-145 | the welcome handler is found exactly for the welcome type, the playtest handler exactly for the playtest type, and nothing for every other type |
| `Decimal.Show` | deadlock-steamworks/DeadlockAPI/DeadlockClient.cs:180-181 | an interpolated unsigned number is a non-empty run of digits with a leading zero only for 0 |
| `Decimal.ValueShow` | deadlock-steamworks/DeadlockAPI/DeadlockClient.cs:180-181 | reading the digits back gives the number, so distinct numbers are written distinctly |
| `MatchUrls.DownloadURLRoundTrip` | deadlock-steamworks/DeadlockAPI/DeadlockClient.cs:180-181 | a link of the shared shape parses back to exactly its cluster, match, salt and file kind |
| `MatchUrls.ReplayURLNamesItsFields` | deadlock-steamworks/DeadlockAPI/DeadlockClient.cs:180 | the replay link names the cluster id, the match id and the replay salt, as a `.dem.bz2` file |
| `MatchUrls.MetadataURLNamesItsFields` | deadlock-steamworks/DeadlockAPI/DeadlockClient.cs:181 | the metadata link names the cluster id, the match id and the metadata salt, as a `.meta.bz2` file |
| `MatchUrls.LinksShareStem` | deadlock-steamworks/DeadlockAPI/DeadlockClient.cs:180-181 | the metadata link is the replay link with the metadata salt and `.meta.bz2` in place of the replay salt and `.dem.bz2` |
| `MatchUrls.ParseDownloadURLInverse` | deadlock-steamworks/DeadlockAPI/DeadlockClient.cs:180-181 | any string the parser accepts is exactly the link built from the fields it reads (no zero-padded or other spelling), so the parse-back facts of `MatchMetaDataOf` fix both link strings |
| `Decimal.ShowValue` | deadlock-steamworks/DeadlockAPI/DeadlockClient.cs:180-181 | a canonical digit string (no leading zero unless it is "0") is exactly how its number is interpolated |
| `MatchUrls.ReplayNeverMetadata` | deadlock-steamworks/DeadlockAPI/DeadlockClient.cs:180-181 | a replay link never equals a metadata link, whatever the salts |
| `MatchUrls.ReplayURLInjective` | deadlock-steamworks/DeadlockAPI/DeadlockClient.cs:180 | replay links of different cluster, match or salt are different |
| `MatchUrls.HostPathIsDeadlock` | deadlock-steamworks/DeadlockAPI/DeadlockClient.cs:180 | the application segment of the links is `/1422450/` |
| `MatchUrls.MatchMetaDataOf` | deadlock-steamworks/DeadlockAPI/DeadlockClient.cs:176-182 | a null reply gives null; otherwise the reply is kept and both links parse back to the reply's cluster id, the requested match id and the matching salt |
| `MatchUrls.MatchFortyTwoLinks` | deadlock-steamworks/DeadlockAPI/DeadlockClient.cs:176-182 | match 42, cluster 7, salts 99 and 100 give `http://replay7.valve.net/1422450/42_99.dem.bz2` and `http://replay7.valve.net/1422450/42_100.meta.bz2` |
| `Session.UserCallsToggleFlag` | deadlock-steamworks/DeadlockAPI/DeadlockClient.cs:52-61 | `Connect` clears the flag and issues exactly one command, a connect; `Disconnect` sets it and issues exactly one command, a disconnect; neither touches the credential or the version |
| `Session.ReconnectPolicy` | deadlock-steamworks/DeadlockAPI/DeadlockClient.cs:105-111 | a transport drop issues one connect when the flag is clear, and nothing, with no state change, when it is set |
| `Session.CachedLogOn` | deadlock-steamworks/DeadlockAPI/DeadlockClient.cs:76-102 | with both fields cached: no QR session, no file write, state unchanged, logon with exactly the cached pair |
| `Session.InteractiveLogOn` | deadlock-steamworks/DeadlockAPI/DeadlockClient.cs:76-102 | with either field absent: both are replaced by the poll result, each file is written once with it, and the logon that ends the step uses that pair |
| `Session.LogOnPolicy` | deadlock-steamworks/DeadlockAPI/DeadlockClient.cs:113-133 | no state change; nothing sent on failure; on OK exactly games-played then hello, both to app 1422450 |
| `Session.DispatchPolicy` | deadlock-steamworks/DeadlockAPI/DeadlockClient.cs:135-148 | welcome sets the version and raises one welcome event; playtest raises one playtest event; other types do nothing |
| `Session.RequestsCarryJobIds` | deadlock-steamworks/DeadlockAPI/DeadlockClient.cs:150-196 | each request is a single GC send to app 1422450 carrying its job id, changes no state, and a spectate request carries the current version |
| `Session.RunTracksLatestWelcome` | deadlock-steamworks/DeadlockAPI/DeadlockClient.cs:211-215 | after any run of events the client version is that of the most recent welcome, or the starting one |
| `Session.SpectateCarriesLatestVersion` | deadlock-steamworks/DeadlockAPI/DeadlockClient.cs:185-190 | after any run from construction, a spectate request carries the most recent welcome's version, or 0 if none arrived |
| `Session.StaysDisconnected` | deadlock-steamworks/DeadlockAPI/DeadlockClient.cs:105-111 | while the flag is set and the user does not call `Connect`, the flag stays set and no connect is issued |
| `Session.UserDisconnectIsFinal` | deadlock-steamworks/DeadlockAPI/DeadlockClient.cs:52-111 | after a user `Disconnect`, no transport connect follows until the user calls `Connect` |
| `Session.CredentialIsStable` | deadlock-steamworks/DeadlockAPI/DeadlockClient.cs:76-102 | once both fields are cached they never change, no QR session or file write follows, and every logon uses that pair |
| `Session.QRSessionOnlyWhenUncached` | deadlock-steamworks/DeadlockAPI/DeadlockClient.cs:76-94 | a QR session begins only on connecting without a complete credential, exactly once, and leaves both fields cached; one `OnConnected` is one atomic step here (see Left out on interleavings) |
| `Session.InteractiveLogOnAtMostOnce` | deadlock-steamworks/DeadlockAPI/DeadlockClient.cs:76-94 | over any run of events the QR session begins at most once; this holds because each `OnConnected` is one atomic step here, whereas in the source a drop during the awaited QR poll reconnects and starts a second session |

## Left out

- SteamKit2 itself (`SteamClient`, `CallbackManager`, `SteamUser`, `SteamGameCoordinator`, `AsyncJob`, `GetNextJobID`): its calls are trace entries and its results are parameters. Job-id uniqueness and matching a reply to its job are the library's work, so the model does not claim them.
- No pending-job table, job-id counter, timeout or mass cancellation on disconnect is modelled: the code has none.
- After a failed logon the client prints the result and returns; it does not change any state or disconnect, and the model does the same.
- Client.DeadlockClient.GetMatchHistory: the model assumes a logged-on client and always sends the request. The source reads `user.SteamID.AccountID` outside any exception handler, so before logon, when there is no SteamID, it throws before sending anything.
- `IsConnected` reads SteamKit2's transport state, which the model does not hold.
- `Wait` and `RunCallbacks` are the callback pump; `Session.Run` stands for the order in which it delivers events.
- `Thread.Sleep` before reconnecting and between games-played and the hello: time is not modelled, so each handler is one untimed atomic step.
- The asynchronous suspension of `OnConnected` and of the request methods is not modelled: each is one atomic step, so interleavings while a QR poll or a reply is awaited are not covered. An exception thrown while beginning or polling the QR session is not modelled either.
- `DrawQRCode` and the `ChallengeURLChanged` redraw hook are console output; the QR session appears only as `BeginAuthSessionViaQR`.
- `GetActiveMatches`: Snappy decompression and protobuf decoding of its reply are foreign codecs; its request differs from the others only in having no exception handler.
- File reading and writing: the constructor takes the two files' contents as optional inputs, and each write is a `WriteFile` trace entry.
- Protobuf bodies are not decoded. A GC packet carries the version its welcome decoding would read, and requests keep only the fields the client sets. The numeric values of the message-type tags come from SteamKit2's generated enums and are not part of this model, so the tags are symbolic. That an `OtherType` tag is never the numeric value of the welcome or playtest tag is a convention of the model: nothing in the datatype enforces it, and `Route` drops every `OtherType`.
- Raising an event is recorded whether or not anyone subscribed. The `?.Invoke` null check only decides whether subscribers run, and subscribers are outside the model.
- Debug logging setup and every `Console.WriteLine`.
