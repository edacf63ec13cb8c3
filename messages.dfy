/**
 * The values the Deadlock client exchanges with Steam and with its own observers:
 * credentials, game-coordinator (GC) packets, outbound GC requests, and the
 * commands that the client issues, recorded in an append-only trace.
 *
 * SteamKit2 (the transport, the user and game-coordinator handlers, the
 * callback manager) and the protobuf message bodies are not part of this model;
 * every call the client makes into them appears as one `Command`.
 */
module Messages {

  import opened Wrappers

  /** C#'s `uint`. */
  type uint32 = x: int | 0 <= x < 0x1_0000_0000

  /** C#'s `ulong`. */
  type uint64 = x: int | 0 <= x < 0x1_0000_0000_0000_0000

  /** Steam application id of Deadlock; every games-played entry and every GC send uses it. */
  const APPID: uint32 := 1422450

  /** The files the cached credential is read from and written to. */
  const UsernameFile: string := ".username"
  const TokenFile: string := ".token"

  /** What an approved QR authentication session yields (`AccountName`, `RefreshToken`). */
  datatype Credential = Credential(accountName: string, refreshToken: string)

  /** The result code of a logon: `OK`, or any other `EResult` value, kept by its code. */
  datatype EResult = OK | NotOK(code: int)

  /**
   * Message-type tags of inbound GC packets. The two tags the client registers a handler
   * for are named; `OtherType` is any other tag, identified by its raw value.
   */
  datatype GCMsgType = ClientWelcome | DevPlaytestStatus | OtherType(tag: uint32)

  /**
   * A GC packet body: its raw bytes, and `version`, the value that decoding those
   * bytes as a client-welcome message yields (the protobuf decoding itself is not modelled).
   */
  datatype GCBody = GCBody(version: uint32, data: seq<bv8>)

  /** An inbound GC packet, as `SteamGameCoordinator.MessageCallback` delivers it. */
  datatype GCPacket = GCPacket(emsg: GCMsgType, body: GCBody)

  /** The only region mode the client announces in its hello. */
  datatype RegionMode = RegionModeROW

  /** Bodies of the GC messages the client sends. */
  datatype RequestBody =
    | CitadelClientHello(regionMode: RegionMode)
    | ClientToGCGetMatchMetaData(matchId: uint32)
    | ClientToGCSpectateLobby(lobbyId: uint64, clientVersion: uint32)
    | ClientToGCGetMatchHistory(accountId: uint32)

  /**
   * An outbound GC message: its body and its source job id. `None` is SteamKit2's
   * invalid job id, which is what a message carries unless the client sets one.
   */
  datatype Envelope = Envelope(sourceJobId: Option<uint64>, body: RequestBody)

  /** One call the client makes into the outside world, in the order it makes them. */
  datatype Command =
    | TransportConnect                              // client.Connect()
    | TransportDisconnect                           // client.Disconnect()
    | BeginAuthSessionViaQR                         // start of interactive (QR) authentication
    | WriteFile(path: string, text: string)         // File.WriteAllText
    | LogOn(username: string, accessToken: string)  // user.LogOn
    | SendGamesPlayed(gameIds: seq<uint64>)         // client.Send(ClientGamesPlayed)
    | SendToGC(appId: uint32, msg: Envelope)        // gameCoordinator.Send
    | RaiseClientWelcome(welcome: GCBody)           // ClientWelcomeEvent
    | RaiseDevPlaytestStatus(status: GCBody)        // DevPlaytestStatusEvent

  /** The fields of a match-metadata reply that the client reads. */
  datatype MatchMetaDataResponse = MatchMetaDataResponse(clusterId: uint32, replaySalt: uint32, metadataSalt: uint32)

  /** A spectate-lobby reply and a match-history reply, kept as undecoded protobuf bytes. */
  datatype SpectateLobbyResponse = SpectateLobbyResponse(data: seq<bv8>)
  datatype MatchHistoryResponse = MatchHistoryResponse(data: seq<bv8>)
}
