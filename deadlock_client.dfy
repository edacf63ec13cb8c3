/**
 * `DeadlockClient`: the object that holds the cached credential, the user-disconnect flag
 * and the GC client version, and whose SteamKit2 callbacks and public calls update them.
 * Every call it makes into SteamKit2, the file system or its event subscribers is
 * appended to `trace`. Each public call and SteamKit2 callback is proved to take exactly
 * one `Session.Step`; `OnClientWelcome`, `OnDevPlaytestStatus` and `SendAndReceiveWithJob`
 * are parts of a step and state their own effect.
 */
module Client {

  import opened Wrappers
  import opened Messages
  import opened Dispatch
  import opened Session
  import opened MatchUrls

  class DeadlockClient {
    var lastUsername: Option<string>
    var lastToken: Option<string>
    var disconnecting: bool
    var clientVersion: uint32
    /** The commands issued so far, oldest first; methods only ever append to it. */
    var trace: seq<Command>

    function Snapshot(): Session
      reads this
    {
      Session(lastUsername, lastToken, disconnecting, clientVersion)
    }

    /** The object has taken event `e` from state `before`, with the trace then being `traceBefore`. */
    ghost predicate Took(before: Session, traceBefore: seq<Command>, e: Event)
      reads this
    {
      var o := Step(before, e);
      Snapshot() == o.next && trace == traceBefore + o.issued
    }

    /** Loads the cached credential from whichever of `.username` and `.token` exist. */
    constructor (storedUsername: Option<string>, storedToken: Option<string>)
      ensures lastUsername == storedUsername && lastToken == storedToken
      ensures !disconnecting && clientVersion == 0 && trace == []
      ensures Snapshot() == Initial(storedUsername, storedToken)
    {
      disconnecting := false;
      clientVersion := 0;
      trace := [];
      lastUsername := storedUsername;
      lastToken := storedToken;
    }

    method Connect()
      modifies this
      ensures !disconnecting
      ensures trace == old(trace) + [TransportConnect]
      ensures lastUsername == old(lastUsername) && lastToken == old(lastToken) && clientVersion == old(clientVersion)
      ensures Took(old(Snapshot()), old(trace), UserConnect)
    {
      disconnecting := false;
      trace := trace + [TransportConnect];
    }

    method Disconnect()
      modifies this
      ensures disconnecting
      ensures trace == old(trace) + [TransportDisconnect]
      ensures lastUsername == old(lastUsername) && lastToken == old(lastToken) && clientVersion == old(clientVersion)
      ensures Took(old(Snapshot()), old(trace), UserDisconnect)
    {
      disconnecting := true;
      trace := trace + [TransportDisconnect];
    }

    /**
     * The transport is up. Without both cached fields, run the QR session: `poll` is what
     * polling it yields; cache it and write it to the two files. Then log on with the cache.
     */
    method OnConnected(poll: Credential)
      modifies this
      ensures old(lastToken).None? || old(lastUsername).None? ==>
        && lastUsername == Some(poll.accountName) && lastToken == Some(poll.refreshToken)
        && trace == old(trace) + [BeginAuthSessionViaQR,
                                  WriteFile(UsernameFile, poll.accountName), WriteFile(TokenFile, poll.refreshToken),
                                  LogOn(poll.accountName, poll.refreshToken)]
      ensures old(lastToken).Some? && old(lastUsername).Some? ==>
        && lastUsername == old(lastUsername) && lastToken == old(lastToken)
        && trace == old(trace) + [LogOn(old(lastUsername).value, old(lastToken).value)]
      ensures disconnecting == old(disconnecting) && clientVersion == old(clientVersion)
      ensures Took(old(Snapshot()), old(trace), TransportConnected(poll))
    {
      if lastToken.None? || lastUsername.None? {
        trace := trace + [BeginAuthSessionViaQR];
        lastUsername := Some(poll.accountName);
        lastToken := Some(poll.refreshToken);
        trace := trace + [WriteFile(UsernameFile, lastUsername.value)];
        trace := trace + [WriteFile(TokenFile, lastToken.value)];
      }
      trace := trace + [LogOn(lastUsername.value, lastToken.value)];
    }

    /** The transport dropped: reconnect unless the user asked for the disconnect. */
    method OnDisconnected()
      modifies this
      ensures old(disconnecting) ==> Snapshot() == old(Snapshot()) && trace == old(trace)
      ensures !old(disconnecting) ==> Snapshot() == old(Snapshot()) && trace == old(trace) + [TransportConnect]
      ensures Took(old(Snapshot()), old(trace), TransportDisconnected)
    {
      if !disconnecting {
        Connect();
      }
    }

    /** Logon finished: on `OK`, announce Deadlock as the game played, then greet its GC. */
    method OnLoggedOn(result: EResult)
      modifies this
      ensures Snapshot() == old(Snapshot())
      ensures result != OK ==> trace == old(trace)
      ensures result == OK ==> trace == old(trace) + [SendGamesPlayed([APPID]),
                                                      SendToGC(APPID, Envelope(None, CitadelClientHello(RegionModeROW)))]
      ensures Took(old(Snapshot()), old(trace), LoggedOn(result))
    {
      if result != OK {
        return;
      }
      trace := trace + [SendGamesPlayed([APPID])];
      var clientHello := Envelope(None, CitadelClientHello(RegionModeROW));
      trace := trace + [SendToGC(APPID, clientHello)];
    }

    /** Routes an inbound GC packet to its handler; packets of any other type are dropped. */
    method OnGCMessage(packet: GCPacket)
      modifies this
      ensures packet.emsg == ClientWelcome ==>
        clientVersion == packet.body.version && trace == old(trace) + [RaiseClientWelcome(packet.body)]
      ensures packet.emsg == DevPlaytestStatus ==>
        clientVersion == old(clientVersion) && trace == old(trace) + [RaiseDevPlaytestStatus(packet.body)]
      ensures packet.emsg.OtherType? ==> clientVersion == old(clientVersion) && trace == old(trace)
      ensures lastUsername == old(lastUsername) && lastToken == old(lastToken) && disconnecting == old(disconnecting)
      ensures Took(old(Snapshot()), old(trace), GCMessageReceived(packet))
    {
      var handler := Route(packet.emsg);
      if handler.None? {
        return;
      }
      match handler.value
      case HandleClientWelcome => OnClientWelcome(packet.body);
      case HandleDevPlaytestStatus => OnDevPlaytestStatus(packet.body);
    }

    method OnClientWelcome(welcome: GCBody)
      modifies this
      ensures clientVersion == welcome.version
      ensures trace == old(trace) + [RaiseClientWelcome(welcome)]
      ensures lastUsername == old(lastUsername) && lastToken == old(lastToken) && disconnecting == old(disconnecting)
    {
      clientVersion := welcome.version;
      trace := trace + [RaiseClientWelcome(welcome)];
    }

    method OnDevPlaytestStatus(status: GCBody)
      modifies this
      ensures Snapshot() == old(Snapshot())
      ensures trace == old(trace) + [RaiseDevPlaytestStatus(status)]
    {
      trace := trace + [RaiseDevPlaytestStatus(status)];
    }

    /**
     * Stamps `body` with the job id SteamKit2 hands out, sends it to Deadlock's GC, and
     * returns the awaited reply. `reply` is the outcome of awaiting and decoding: `None`
     * when either threw, which the method turns into a null result.
     */
    method SendAndReceiveWithJob<U>(body: RequestBody, jobId: uint64, reply: Option<U>) returns (r: Option<U>)
      modifies this
      ensures Snapshot() == old(Snapshot())
      ensures trace == old(trace) + [SendToGC(APPID, Envelope(Some(jobId), body))]
      ensures r == reply
    {
      var msg := Envelope(None, body);
      msg := msg.(sourceJobId := Some(jobId));
      trace := trace + [SendToGC(APPID, msg)];
      r := reply;
    }

    /** Requests a match's metadata and derives its replay and metadata links. */
    method GetMatchMetaData(matchId: uint32, jobId: uint64, reply: Option<MatchMetaDataResponse>)
      returns (md: Option<MatchMetaData>)
      modifies this
      ensures trace == old(trace) + [SendToGC(APPID, Envelope(Some(jobId), ClientToGCGetMatchMetaData(matchId)))]
      ensures md == MatchMetaDataOf(matchId, reply)
      ensures Snapshot() == old(Snapshot())
      ensures Took(old(Snapshot()), old(trace), MatchMetaDataRequested(matchId, jobId))
    {
      var r := SendAndReceiveWithJob(ClientToGCGetMatchMetaData(matchId), jobId, reply);
      if r.None? {
        return None;
      }
      md := Some(MatchMetaData(r.value,
        ReplayURL(r.value.clusterId, matchId, r.value.replaySalt),
        MetadataURL(r.value.clusterId, matchId, r.value.metadataSalt)));
    }

    /** Asks to spectate a lobby, stating the client version the GC last welcomed us with. */
    method SpectateLobby(lobbyId: uint64, jobId: uint64, reply: Option<SpectateLobbyResponse>)
      returns (r: Option<SpectateLobbyResponse>)
      modifies this
      ensures trace == old(trace) + [SendToGC(APPID, Envelope(Some(jobId), ClientToGCSpectateLobby(lobbyId, clientVersion)))]
      ensures r == reply
      ensures Snapshot() == old(Snapshot())
      ensures Took(old(Snapshot()), old(trace), SpectateLobbyRequested(lobbyId, jobId))
    {
      r := SendAndReceiveWithJob(ClientToGCSpectateLobby(lobbyId, clientVersion), jobId, reply);
    }

    /** Asks for the match history of `accountId`, the logged-on user's account id. */
    method GetMatchHistory(accountId: uint32, jobId: uint64, reply: Option<MatchHistoryResponse>)
      returns (r: Option<MatchHistoryResponse>)
      modifies this
      ensures trace == old(trace) + [SendToGC(APPID, Envelope(Some(jobId), ClientToGCGetMatchHistory(accountId)))]
      ensures r == reply
      ensures Snapshot() == old(Snapshot())
      ensures Took(old(Snapshot()), old(trace), MatchHistoryRequested(accountId, jobId))
    {
      r := SendAndReceiveWithJob(ClientToGCGetMatchHistory(accountId), jobId, reply);
    }
  }

  /** A client with no stored credential connects; the QR session yields ("alice", "T1"). */
  method ScenarioFirstLogOn() {
    var client := new DeadlockClient(None, None);
    client.Connect();
    client.OnConnected(Credential("alice", "T1"));
    client.OnLoggedOn(OK);
    assert client.trace == [TransportConnect, BeginAuthSessionViaQR,
                            WriteFile(UsernameFile, "alice"), WriteFile(TokenFile, "T1"), LogOn("alice", "T1"),
                            SendGamesPlayed([APPID]), SendToGC(APPID, Envelope(None, CitadelClientHello(RegionModeROW)))];
  }

  /** A client with stored ("bob", "T2") logs on with it, is welcomed, spectates, and is disconnected by its user. */
  method ScenarioCachedLogOn(poll: Credential, welcome: GCBody) {
    var client := new DeadlockClient(Some("bob"), Some("T2"));
    client.Connect();
    client.OnConnected(poll);
    assert client.trace == [TransportConnect, LogOn("bob", "T2")];
    client.OnGCMessage(GCPacket(ClientWelcome, welcome));
    var _ := client.SpectateLobby(7, 1, None);
    assert client.trace[|client.trace| - 1] == SendToGC(APPID, Envelope(Some(1), ClientToGCSpectateLobby(7, welcome.version)));
    client.Disconnect();
    client.OnDisconnected();
    assert TransportConnect !in client.trace[5..];
  }
}
