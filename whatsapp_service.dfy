/**
 * The connection-status state machine of `WhatsappService`.
 *
 * The service keeps two fields that every `connection.update` event of the
 * socket rewrites: the connection status (`'open' | 'close' | 'unknown'`) and
 * the latest QR code (`string | null`). A `'close'` event whose disconnect
 * status code is not the library's "logged out" code re-runs `onModuleInit`,
 * which builds a new socket; here that call is recorded in an effect log.
 * Sending a text and logging out go through the socket, whose results are
 * parameters of the model.
 */
module Service {
  import opened Wrappers

  /** The value of the `connectionStatus` field. */
  datatype ConnectionStatus = Open | Close | Unknown

  /** The `output` part of a Boom error, carrying the HTTP-like status code. */
  datatype BoomOutput = BoomOutput(statusCode: Option<int>)

  /** The error of a disconnect. A plain error has no `output`. */
  datatype DisconnectError = DisconnectError(output: Option<BoomOutput>)

  /** The `lastDisconnect` record of an update. */
  datatype LastDisconnect = LastDisconnect(error: Option<DisconnectError>)

  /** One `connection.update` event; each of its three fields may be absent. */
  datatype ConnectionUpdate = ConnectionUpdate(
    connection: Option<string>,
    lastDisconnect: Option<LastDisconnect>,
    qr: Option<string>)

  /** The message content the service hands to the socket: always `{ text: message }`. */
  datatype Content = Text(text: string)

  /** What the service has asked of the outside world, in order. */
  datatype Effect =
    | ModuleInit                        // a run of onModuleInit: a fresh socket is built
    | Send(jid: string, content: Content) // sock.sendMessage(jid, content)
    | Logout                            // sock.logout()

  /** The two fields the connection handler rewrites. */
  datatype ServiceState = ServiceState(connectionStatus: ConnectionStatus, latestQRCode: Option<string>)

  /** `DisconnectReason.loggedOut` of the socket library (HTTP 401). */
  const LoggedOut: int := 401

  /** The message of the error `sendMessage` throws when there is no socket. */
  const NotInitialized: string := "WhatsApp socket not initialized"

  /** The state of a freshly constructed service. */
  function Initial(): ServiceState {
    ServiceState(Unknown, None)
  }

  /** JavaScript truthiness of an optional string: present and not empty. */
  predicate Truthy(s: Option<string>) {
    s.Some? && s.value != ""
  }

  /** `latestQRCode` after an update carrying `qr`. */
  function QrAfter(qr: Option<string>): (r: Option<string>)
    ensures r.Some? <==> Truthy(qr)
    ensures r.Some? ==> r == qr
  {
    if Truthy(qr) then qr else None
  }

  /** `connectionStatus` after an update carrying `connection`: total over every value. */
  function StatusAfter(connection: Option<string>): (r: ConnectionStatus)
    ensures r == Open <==> connection == Some("open")
    ensures r == Close <==> connection == Some("close")
    ensures r == Unknown <==> connection != Some("open") && connection != Some("close")
  {
    if connection == Some("close") then Close
    else if connection == Some("open") then Open
    else Unknown
  }

  /** `lastDisconnect?.error?.output?.statusCode`: absent as soon as one link of the chain is. */
  function DisconnectCode(ld: Option<LastDisconnect>): (r: Option<int>)
    ensures r.Some? ==> ld == Some(LastDisconnect(Some(DisconnectError(Some(BoomOutput(r))))))
    ensures ld.Some? && ld.value.error.Some? && ld.value.error.value.output.Some? ==>
              r == ld.value.error.value.output.value.statusCode
  {
    match ld
    case None => None
    case Some(d) =>
      match d.error
      case None => None
      case Some(e) =>
        match e.output
        case None => None
        case Some(o) => o.statusCode
  }

  /** Whether the handler re-runs onModuleInit for this update. */
  predicate ShouldReconnect(u: ConnectionUpdate)
    ensures ShouldReconnect(u) <==>
              u.connection == Some("close")
              && u.lastDisconnect != Some(LastDisconnect(Some(DisconnectError(Some(BoomOutput(Some(LoggedOut)))))))
  {
    u.connection == Some("close") && DisconnectCode(u.lastDisconnect) != Some(LoggedOut)
  }

  /** The two fields after the handler has run on `u`; nothing of the previous state survives. */
  function Apply(u: ConnectionUpdate): (r: ServiceState)
    ensures r.connectionStatus == Open <==> u.connection == Some("open")
    ensures r.connectionStatus == Close <==> u.connection == Some("close")
    ensures r.latestQRCode.Some? <==> Truthy(u.qr)
    ensures r.latestQRCode.Some? ==> r.latestQRCode == u.qr
  {
    ServiceState(StatusAfter(u.connection), QrAfter(u.qr))
  }

  /** The two fields after the handler has run on every update of `us` in turn, starting from `s`. */
  function Replay(s: ServiceState, us: seq<ConnectionUpdate>): ServiceState
    decreases |us|
  {
    if us == [] then s else Replay(Apply(us[0]), us[1..])
  }

  /** The number of onModuleInit re-runs the handler requests over the updates `us`. */
  function Reconnects(us: seq<ConnectionUpdate>): nat
    decreases |us|
  {
    if us == [] then 0
    else (if ShouldReconnect(us[0]) then 1 else 0) + Reconnects(us[1..])
  }

  class WhatsappService {
    var connectionStatus: ConnectionStatus
    var latestQRCode: Option<string>
    /** Whether `this.sock` holds a socket. */
    var socketPresent: bool
    /** Every request made to the socket library, oldest first. */
    var effects: seq<Effect>

    /** The service before onModuleInit: no socket, status unknown, no QR code. */
    constructor ()
      ensures connectionStatus == Unknown && latestQRCode == None
      ensures !socketPresent && effects == []
      ensures State() == Initial()
    {
      connectionStatus := Unknown;
      latestQRCode := None;
      socketPresent := false;
      effects := [];
    }

    /** The two fields the connection handler rewrites and the controller reads. */
    function State(): ServiceState
      reads this
    {
      ServiceState(connectionStatus, latestQRCode)
    }

    method GetConnectionStatus() returns (s: ConnectionStatus)
      ensures s == connectionStatus
    {
      s := connectionStatus;
    }

    method GetLatestQRCode() returns (qr: Option<string>)
      ensures qr == latestQRCode
    {
      qr := latestQRCode;
    }

    /** Builds a socket and subscribes the handlers; the status and QR fields are untouched. */
    method OnModuleInit()
      modifies this
      ensures socketPresent
      ensures State() == old(State())
      ensures effects == old(effects) + [ModuleInit]
    {
      socketPresent := true;
      effects := effects + [ModuleInit];
    }

    /** The `connection.update` handler; it is subscribed to a socket, so one exists. */
    method OnConnectionUpdate(u: ConnectionUpdate)
      requires socketPresent
      modifies this
      ensures State() == Apply(u)
      ensures socketPresent
      ensures effects == old(effects) + (if ShouldReconnect(u) then [ModuleInit] else [])
    {
      if Truthy(u.qr) {
        latestQRCode := u.qr;
      } else {
        latestQRCode := None;
      }
      if u.connection == Some("close") {
        connectionStatus := Close;
        var shouldReconnect := DisconnectCode(u.lastDisconnect) != Some(LoggedOut);
        if shouldReconnect {
          OnModuleInit();
        }
      } else if u.connection == Some("open") {
        connectionStatus := Open;
      } else {
        connectionStatus := Unknown;
      }
    }

    /**
     * Sends `{ text: message }` to `jid` through the socket. `delivery` is how
     * the socket's own send settles; its rejection propagates.
     */
    method SendMessage(jid: string, message: string, delivery: Outcome<string>) returns (r: Outcome<string>)
      modifies this`effects
      ensures !socketPresent ==> r == Fail(NotInitialized) && effects == old(effects)
      ensures socketPresent ==> r == delivery && effects == old(effects) + [Send(jid, Text(message))]
    {
      if !socketPresent {
        return Fail(NotInitialized);
      }
      effects := effects + [Send(jid, Text(message))];
      r := delivery;
    }

    /** Logs out when a socket exists; `logout` is how the socket's logout settles. */
    method OnModuleDestroy(logout: Outcome<string>) returns (r: Outcome<string>)
      modifies this`effects
      ensures !socketPresent ==> r == Pass && effects == old(effects)
      ensures socketPresent ==> r == logout && effects == old(effects) + [Logout]
    {
      r := Pass;
      if socketPresent {
        effects := effects + [Logout];
        r := logout;
      }
    }
  }

  /** The reconnect decision for a `'close'` update depends only on the disconnect code. */
  lemma ReconnectDecision(u: ConnectionUpdate)
    ensures u.connection != Some("close") ==> !ShouldReconnect(u)
    ensures u.connection == Some("close") && u.lastDisconnect == None ==> ShouldReconnect(u)
    ensures u.connection == Some("close") ==>
              (ShouldReconnect(u) <==> DisconnectCode(u.lastDisconnect) != Some(LoggedOut))
    ensures DisconnectCode(u.lastDisconnect) == Some(LoggedOut) ==> !ShouldReconnect(u)
  {
  }

  /** On a `'close'` whose error carries a status code, the handler reconnects exactly when that code is not the logged-out one. */
  lemma ReconnectOnStatusCode(c: int, q: Option<string>)
    ensures ShouldReconnect(ConnectionUpdate(Some("close"), Some(LastDisconnect(Some(DisconnectError(Some(BoomOutput(Some(c))))))), q))
            <==> c != LoggedOut
  {
  }

  /** An error that is not a Boom error (no `output`) also leads to a reconnect. */
  lemma PlainErrorReconnects(u: ConnectionUpdate)
    requires u.connection == Some("close")
    requires u.lastDisconnect == Some(LastDisconnect(Some(DisconnectError(None))))
             || u.lastDisconnect == Some(LastDisconnect(None))
    ensures ShouldReconnect(u)
  {
  }

  /** The QR code after an update does not depend on the update's `connection` or `lastDisconnect`. */
  lemma QrIndependentOfConnection(u: ConnectionUpdate, v: ConnectionUpdate)
    requires u.qr == v.qr
    ensures Apply(u).latestQRCode == Apply(v).latestQRCode
  {
  }

  /**
   * A QR code and an open connection can hold at once: the handler does not
   * clear the QR code when the connection opens.
   */
  lemma QrAndOpenCoexist(q: string)
    requires q != ""
    ensures Apply(ConnectionUpdate(Some("open"), None, Some(q))) == ServiceState(Open, Some(q))
  {
  }

  /** After a non-empty stream of updates the two fields are those the last update alone sets. */
  lemma {:induction false} ReplayLastWins(s: ServiceState, us: seq<ConnectionUpdate>)
    requires |us| > 0
    ensures Replay(s, us) == Apply(us[|us| - 1])
    decreases |us|
  {
    if |us| > 1 {
      ReplayLastWins(Apply(us[0]), us[1..]);
    }
  }

  /** At most one reconnect per update, and none from an update that is not a `'close'`. */
  lemma {:induction false} ReconnectsOnlyFromCloses(us: seq<ConnectionUpdate>)
    ensures Reconnects(us) <= |us|
    ensures (forall i :: 0 <= i < |us| ==> us[i].connection != Some("close")) ==> Reconnects(us) == 0
    decreases |us|
  {
    if us != [] {
      ReconnectsOnlyFromCloses(us[1..]);
      assert forall i :: 0 <= i < |us| - 1 ==> us[1..][i] == us[i + 1];
    }
  }

  /** A stream whose every `'close'` carries the logged-out code requests no reconnect. */
  lemma {:induction false} LoggedOutNeverReconnects(us: seq<ConnectionUpdate>)
    requires forall i :: 0 <= i < |us| && us[i].connection == Some("close") ==>
               DisconnectCode(us[i].lastDisconnect) == Some(LoggedOut)
    ensures Reconnects(us) == 0
    decreases |us|
  {
    if us != [] {
      assert forall i :: 0 <= i < |us| - 1 ==> us[1..][i] == us[i + 1];
      LoggedOutNeverReconnects(us[1..]);
    }
  }

  /** A stream of transient disconnects requests exactly one reconnect per update. */
  lemma {:induction false} TransientClosesReconnectEach(us: seq<ConnectionUpdate>)
    requires forall i :: 0 <= i < |us| ==>
               us[i].connection == Some("close") && DisconnectCode(us[i].lastDisconnect) != Some(LoggedOut)
    ensures Reconnects(us) == |us|
    decreases |us|
  {
    if us != [] {
      assert forall i :: 0 <= i < |us| - 1 ==> us[1..][i] == us[i + 1];
      TransientClosesReconnectEach(us[1..]);
    }
  }
}
