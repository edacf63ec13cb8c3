/**
 * The session lifecycle of `DeadlockClient` as a pure state machine: a snapshot of the
 * client's four fields, the events SteamKit2's callback loop and the client's callers
 * deliver, and `Step`, which gives the next snapshot and the commands one event issues.
 * `Run` folds `Step` over a sequence of events, as the callback loop delivers them one at
 * a time. The class in module `Client` is proved to follow `Step` call by call.
 */
module Session {

  import opened Wrappers
  import opened Messages
  import opened Dispatch

  /** The client's own state: the cached credential, the user-disconnect flag, the GC version. */
  datatype Session = Session(lastUsername: Option<string>, lastToken: Option<string>, disconnecting: bool, clientVersion: uint32)

  /** The state right after construction, given what `.username` and `.token` held (if they existed). */
  function Initial(storedUsername: Option<string>, storedToken: Option<string>): Session {
    Session(storedUsername, storedToken, false, 0)
  }

  predicate HasCredential(s: Session) {
    s.lastUsername.Some? && s.lastToken.Some?
  }

  /**
   * What reaches the client: its public calls (`Connect`, `Disconnect` and the three GC
   * requests, with the job id SteamKit2 hands out) and the SteamKit2 callbacks. A
   * `TransportConnected` event carries what polling the QR session would yield, which is
   * used only when there is no cached credential.
   */
  datatype Event =
    | UserConnect
    | UserDisconnect
    | TransportConnected(poll: Credential)
    | TransportDisconnected
    | LoggedOn(result: EResult)
    | GCMessageReceived(packet: GCPacket)
    | MatchMetaDataRequested(matchId: uint32, jobId: uint64)
    | SpectateLobbyRequested(lobbyId: uint64, jobId: uint64)
    | MatchHistoryRequested(accountId: uint32, jobId: uint64)

  datatype Outcome = Outcome(next: Session, issued: seq<Command>)

  /** A send to Deadlock's game coordinator. */
  function GCSend(jobId: Option<uint64>, body: RequestBody): Command {
    SendToGC(APPID, Envelope(jobId, body))
  }

  /** The hello the client sends once logged on. */
  function Hello(): Command {
    GCSend(None, CitadelClientHello(RegionModeROW))
  }

  function ConnectStep(s: Session): Outcome {
    Outcome(s.(disconnecting := false), [TransportConnect])
  }

  /** `OnGCMessage`: the routed handler's effect, or nothing for an unrouted type. */
  function DispatchStep(s: Session, packet: GCPacket): Outcome {
    match Route(packet.emsg)
    case None => Outcome(s, [])
    case Some(HandleClientWelcome) => Outcome(s.(clientVersion := packet.body.version), [RaiseClientWelcome(packet.body)])
    case Some(HandleDevPlaytestStatus) => Outcome(s, [RaiseDevPlaytestStatus(packet.body)])
  }

  /** One event, handled atomically. */
  function Step(s: Session, e: Event): Outcome {
    match e
    case UserConnect => ConnectStep(s)
    case UserDisconnect => Outcome(s.(disconnecting := true), [TransportDisconnect])
    case TransportConnected(poll) =>
      if s.lastToken.None? || s.lastUsername.None? then
        var u, t := poll.accountName, poll.refreshToken;
        Outcome(s.(lastUsername := Some(u), lastToken := Some(t)),
                [BeginAuthSessionViaQR, WriteFile(UsernameFile, u), WriteFile(TokenFile, t), LogOn(u, t)])
      else
        Outcome(s, [LogOn(s.lastUsername.value, s.lastToken.value)])
    case TransportDisconnected =>
      if !s.disconnecting then ConnectStep(s) else Outcome(s, [])
    case LoggedOn(result) =>
      if result != OK then Outcome(s, [])
      else Outcome(s, [SendGamesPlayed([APPID]), Hello()])
    case GCMessageReceived(packet) => DispatchStep(s, packet)
    case MatchMetaDataRequested(matchId, jobId) =>
      Outcome(s, [GCSend(Some(jobId), ClientToGCGetMatchMetaData(matchId))])
    case SpectateLobbyRequested(lobbyId, jobId) =>
      Outcome(s, [GCSend(Some(jobId), ClientToGCSpectateLobby(lobbyId, s.clientVersion))])
    case MatchHistoryRequested(accountId, jobId) =>
      Outcome(s, [GCSend(Some(jobId), ClientToGCGetMatchHistory(accountId))])
  }

  /** Events delivered one after another; the commands are those of each step, in order. */
  function Run(s: Session, events: seq<Event>): Outcome
    decreases |events|
  {
    if events == [] then Outcome(s, [])
    else
      var first := Step(s, events[0]);
      var rest := Run(first.next, events[1..]);
      Outcome(rest.next, first.issued + rest.issued)
  }

  // ---------------------------------------------------------------------------
  // One event at a time
  // ---------------------------------------------------------------------------

  /** `a` and `b` hold the same cached credential and the same client version. */
  predicate SameCredentialAndVersion(a: Session, b: Session) {
    a.lastUsername == b.lastUsername && a.lastToken == b.lastToken && a.clientVersion == b.clientVersion
  }

  /**
   * `Connect` clears the user-disconnect flag and issues exactly one transport connect;
   * `Disconnect` sets it and issues exactly one transport disconnect and no connect.
   * Neither touches the credential or the client version.
   */
  lemma UserCallsToggleFlag(s: Session)
    ensures var c := Step(s, UserConnect);
            && !c.next.disconnecting && SameCredentialAndVersion(c.next, s)
            && |c.issued| == 1 && multiset(c.issued)[TransportConnect] == 1
    ensures var d := Step(s, UserDisconnect);
            && d.next.disconnecting && SameCredentialAndVersion(d.next, s)
            && |d.issued| == 1 && multiset(d.issued)[TransportDisconnect] == 1
            && TransportConnect !in d.issued
  {
  }

  /**
   * A transport disconnect reconnects exactly once when the flag is clear, and issues
   * nothing and changes nothing when the user asked for the disconnect.
   */
  lemma ReconnectPolicy(s: Session)
    ensures var o := Step(s, TransportDisconnected);
            && multiset(o.issued)[TransportConnect] == (if s.disconnecting then 0 else 1)
            && (s.disconnecting ==> o == Outcome(s, []))
            && (!s.disconnecting ==> o == Outcome(s, [TransportConnect]))
  {
  }

  /**
   * With a cached username and token, connecting logs on with exactly that pair: no QR
   * session is begun, nothing is saved, the state is unchanged.
   */
  lemma CachedLogOn(s: Session, poll: Credential)
    requires HasCredential(s)
    ensures var o := Step(s, TransportConnected(poll));
            && o.next == s
            && BeginAuthSessionViaQR !in o.issued
            && (forall c :: c in o.issued ==> !c.WriteFile?)
            && multiset(o.issued)[LogOn(s.lastUsername.value, s.lastToken.value)] == 1
            && (forall c :: c in o.issued && c.LogOn? ==> c == LogOn(s.lastUsername.value, s.lastToken.value))
  {
  }

  /**
   * Without a complete cached credential, connecting runs the QR session, replaces both
   * cached fields by the poll result, writes each of them once to its file, and then logs
   * on with that same pair.
   */
  lemma InteractiveLogOn(s: Session, poll: Credential)
    requires !HasCredential(s)
    ensures var o := Step(s, TransportConnected(poll));
            var u, t := poll.accountName, poll.refreshToken;
            && o.next == s.(lastUsername := Some(u), lastToken := Some(t))
            && HasCredential(o.next)
            && multiset(o.issued)[BeginAuthSessionViaQR] == 1
            && multiset(o.issued)[WriteFile(UsernameFile, u)] == 1
            && multiset(o.issued)[WriteFile(TokenFile, t)] == 1
            && (forall c :: c in o.issued && c.WriteFile? ==> c == WriteFile(UsernameFile, u) || c == WriteFile(TokenFile, t))
            && o.issued[|o.issued| - 1] == LogOn(u, t)
            && (forall c :: c in o.issued && c.LogOn? ==> c == LogOn(u, t))
  {
    var o := Step(s, TransportConnected(poll));
    assert o.issued == [BeginAuthSessionViaQR] + [WriteFile(UsernameFile, poll.accountName)] + [WriteFile(TokenFile, poll.refreshToken)] + [LogOn(poll.accountName, poll.refreshToken)];
    assert UsernameFile != TokenFile by { assert UsernameFile[1] != TokenFile[1]; }
  }

  /**
   * A failed logon issues nothing and changes nothing; a successful one sends, in this
   * order, games-played for Deadlock and then the GC hello to Deadlock, and nothing else.
   */
  lemma LogOnPolicy(s: Session, result: EResult)
    ensures var o := Step(s, LoggedOn(result));
            && o.next == s
            && (result != OK ==> o.issued == [])
            && (result == OK ==> o.issued == [SendGamesPlayed([APPID]), SendToGC(APPID, Envelope(None, CitadelClientHello(RegionModeROW)))])
  {
  }

  /**
   * A welcome sets the client version to the one it carries and raises one welcome event;
   * a playtest status raises one playtest event and leaves the version alone; any other
   * type changes nothing and raises nothing.
   */
  lemma DispatchPolicy(s: Session, packet: GCPacket)
    ensures var o := Step(s, GCMessageReceived(packet));
            && o.next.lastUsername == s.lastUsername && o.next.lastToken == s.lastToken
            && o.next.disconnecting == s.disconnecting
            && (packet.emsg == ClientWelcome ==>
                  o.next.clientVersion == packet.body.version && o.issued == [RaiseClientWelcome(packet.body)])
            && (packet.emsg == DevPlaytestStatus ==>
                  o.next.clientVersion == s.clientVersion && o.issued == [RaiseDevPlaytestStatus(packet.body)])
            && (packet.emsg.OtherType? ==> o.next == s && o.issued == [])
  {
  }

  /**
   * Each request is one GC send to Deadlock whose source job id is set, and it changes no
   * state; the spectate request carries the client version the session holds.
   */
  lemma RequestsCarryJobIds(s: Session, e: Event)
    requires e.MatchMetaDataRequested? || e.SpectateLobbyRequested? || e.MatchHistoryRequested?
    ensures var o := Step(s, e);
            && o.next == s
            && |o.issued| == 1
            && o.issued[0].SendToGC? && o.issued[0].appId == APPID
            && o.issued[0].msg.sourceJobId == Some(e.jobId)
            && (e.SpectateLobbyRequested? ==> o.issued[0].msg.body == ClientToGCSpectateLobby(e.lobbyId, s.clientVersion))
  {
  }

  // ---------------------------------------------------------------------------
  // Runs of events
  // ---------------------------------------------------------------------------

  /** Running two batches of events one after the other is running them together. */
  lemma {:induction false} RunAppend(s: Session, a: seq<Event>, b: seq<Event>)
    ensures var ra := Run(s, a);
            var rb := Run(ra.next, b);
            Run(s, a + b) == Outcome(rb.next, ra.issued + rb.issued)
    decreases |a|
  {
    if a != [] {
      assert (a + b)[1..] == a[1..] + b;
      RunAppend(Step(s, a[0]).next, a[1..], b);
    } else {
      assert a + b == b;
    }
  }

  predicate IsWelcome(e: Event) {
    e.GCMessageReceived? && e.packet.emsg == ClientWelcome
  }

  /** The version of the most recent welcome among `events`, or `initial` if there is none. */
  function LatestWelcome(events: seq<Event>, initial: uint32): uint32
    decreases |events|
  {
    if events == [] then initial
    else if IsWelcome(events[|events| - 1]) then events[|events| - 1].packet.body.version
    else LatestWelcome(events[..|events| - 1], initial)
  }

  /** After any run, the client version is the one of the most recent welcome, or the starting one. */
  lemma {:induction false} RunTracksLatestWelcome(s: Session, events: seq<Event>)
    ensures Run(s, events).next.clientVersion == LatestWelcome(events, s.clientVersion)
    decreases |events|
  {
    if events != [] {
      var init, last := events[..|events| - 1], events[|events| - 1];
      assert init + [last] == events;
      RunAppend(s, init, [last]);
      RunTracksLatestWelcome(s, init);
    }
  }

  /**
   * On a client constructed in any state, a spectate request made after any run of events
   * carries the version of the most recent welcome, or 0 if no welcome has arrived.
   */
  lemma {:induction false} SpectateCarriesLatestVersion(storedUsername: Option<string>, storedToken: Option<string>,
                                                       events: seq<Event>, lobbyId: uint64, jobId: uint64)
    ensures var s0 := Initial(storedUsername, storedToken);
            Run(s0, events + [SpectateLobbyRequested(lobbyId, jobId)]).issued
              == Run(s0, events).issued + [SendToGC(APPID, Envelope(Some(jobId), ClientToGCSpectateLobby(lobbyId, LatestWelcome(events, 0))))]
  {
    var s0 := Initial(storedUsername, storedToken);
    RunAppend(s0, events, [SpectateLobbyRequested(lobbyId, jobId)]);
    RunTracksLatestWelcome(s0, events);
  }

  /** While the flag is set and the user does not call `Connect`, no connect is issued and the flag stays set. */
  lemma {:induction false} StaysDisconnected(s: Session, events: seq<Event>)
    requires s.disconnecting
    requires UserConnect !in events
    ensures Run(s, events).next.disconnecting
    ensures TransportConnect !in Run(s, events).issued
    decreases |events|
  {
    if events != [] {
      assert events[0] != UserConnect;
      assert forall e :: e in events[1..] ==> e in events;
      StaysDisconnected(Step(s, events[0]).next, events[1..]);
    }
  }

  /** After the user calls `Disconnect`, nothing reconnects until the user calls `Connect` again. */
  lemma UserDisconnectIsFinal(s: Session, events: seq<Event>)
    requires UserConnect !in events
    ensures TransportConnect !in Run(s, [UserDisconnect] + events).issued
  {
    assert ([UserDisconnect] + events)[1..] == events;
    StaysDisconnected(Step(s, UserDisconnect).next, events);
  }

  /**
   * Once both username and token are cached they never change: no later QR session, no
   * later file write, and every logon uses exactly that pair.
   */
  lemma {:induction false} CredentialIsStable(s: Session, events: seq<Event>)
    requires HasCredential(s)
    ensures var r := Run(s, events);
            && r.next.lastUsername == s.lastUsername
            && r.next.lastToken == s.lastToken
            && BeginAuthSessionViaQR !in r.issued
            && (forall c :: c in r.issued ==> !c.WriteFile?)
            && (forall c :: c in r.issued && c.LogOn? ==> c == LogOn(s.lastUsername.value, s.lastToken.value))
    decreases |events|
  {
    if events != [] {
      var first := Step(s, events[0]);
      assert first.next.lastUsername == s.lastUsername && first.next.lastToken == s.lastToken;
      assert forall c :: c in first.issued ==>
        && c != BeginAuthSessionViaQR
        && !c.WriteFile?
        && (c.LogOn? ==> c == LogOn(s.lastUsername.value, s.lastToken.value));
      CredentialIsStable(first.next, events[1..]);
    }
  }

  /**
   * Only connecting without a complete cached credential begins a QR session, and it begins
   * one; the step also caches both fields, since it is atomic here (see below).
   */
  lemma QRSessionOnlyWhenUncached(s: Session, e: Event)
    requires BeginAuthSessionViaQR in Step(s, e).issued
    ensures e.TransportConnected? && !HasCredential(s)
    ensures HasCredential(Step(s, e).next)
    ensures multiset(Step(s, e).issued)[BeginAuthSessionViaQR] == 1
  {
    if e.TransportConnected? && !HasCredential(s) {
      InteractiveLogOn(s, e.poll);
    }
  }

  /**
   * Over the whole life of a client, the QR session runs at most once. This rests on
   * `OnConnected` being one atomic step: in the source it awaits while beginning and polling
   * the QR session, and a transport drop in between reconnects and starts a second session
   * while the token is still absent. Those interleavings are outside this model.
   */
  lemma {:induction false} InteractiveLogOnAtMostOnce(s: Session, events: seq<Event>)
    ensures multiset(Run(s, events).issued)[BeginAuthSessionViaQR] <= 1
    decreases |events|
  {
    if events != [] {
      var first := Step(s, events[0]);
      var rest := Run(first.next, events[1..]);
      if BeginAuthSessionViaQR in first.issued {
        QRSessionOnlyWhenUncached(s, events[0]);
        CredentialIsStable(first.next, events[1..]);
        assert multiset(rest.issued)[BeginAuthSessionViaQR] == 0;
      } else {
        InteractiveLogOnAtMostOnce(first.next, events[1..]);
      }
      assert multiset(first.issued + rest.issued) == multiset(first.issued) + multiset(rest.issued);
    }
  }
}
