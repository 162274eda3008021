/**
 * The HTTP controller in front of `WhatsappService`: `GET whatsapp/status`
 * projects the service's connection fields onto a response body, and
 * `POST whatsapp/send` qualifies a bare phone number as a person JID before
 * delegating the send to the service.
 */
module Controller {
  import opened Wrappers
  import opened Service

  /** The body of `GET whatsapp/status`: `{ status }` or `{ qrCode }`. */
  datatype StatusBody = StatusBody(status: string) | QrBody(qrCode: Option<string>)

  /** The body of a successful `POST whatsapp/send`. */
  datatype SendReply = SendReply(success: bool, message: string)

  /** The domain appended to a recipient that has none. */
  const PersonDomain: string := "@s.whatsapp.net"

  /** The response of `getStatus`, read from the service's two connection fields. */
  function GetStatus(s: ServiceState): (r: StatusBody)
    ensures r == StatusBody("ready") <==> s.connectionStatus == Open
    ensures r.QrBody? <==> s.connectionStatus == Close
    ensures r.QrBody? ==> r.qrCode == s.latestQRCode
    ensures r == StatusBody("unknown") <==> s.connectionStatus == Unknown
  {
    match s.connectionStatus
    case Open => StatusBody("ready")
    case Close => QrBody(s.latestQRCode)
    case Unknown => assert "ready"[0] != "unknown"[0]; StatusBody("unknown")
  }

  /** The recipient `sendMessage` hands to the service. */
  function NormalizeJid(jid: string): (r: string)
    ensures |r| >= |jid| && r[..|jid|] == jid
    ensures '@' in r
    ensures '@' in jid ==> r == jid
    ensures '@' !in jid ==> r[|jid|..] == PersonDomain
    ensures '@' !in jid ==> forall i :: 0 <= i < |r| && r[i] == '@' ==> i == |jid|
  {
    if '@' !in jid then
      var r := jid + PersonDomain;
      assert r[|jid|] == '@';
      assert forall i :: |jid| < i < |r| ==> r[i] == PersonDomain[i - |jid|];
      r
    else jid
  }

  /** Qualifying a recipient twice is the same as qualifying it once. */
  lemma NormalizeIdempotent(jid: string)
    ensures NormalizeJid(NormalizeJid(jid)) == NormalizeJid(jid)
  {
  }

  /**
   * `sendMessage`: qualifies the recipient, delegates to the service with the
   * message unchanged, and answers success only once the service's send has
   * resolved; a rejection of the service propagates as the response's error.
   */
  method SendMessage(svc: WhatsappService, jid: string, message: string, delivery: Outcome<string>)
    returns (r: Result<SendReply, string>)
    modifies svc`effects
    ensures !svc.socketPresent ==> r == Failure(NotInitialized) && svc.effects == old(svc.effects)
    ensures svc.socketPresent ==>
              svc.effects == old(svc.effects) + [Send(NormalizeJid(jid), Text(message))]
    ensures svc.socketPresent ==>
              (delivery.Pass? ==> r == Success(SendReply(true, "Message sent")))
              && (delivery.Fail? ==> r == Failure(delivery.error))
  {
    var to := NormalizeJid(jid);
    var sent := svc.SendMessage(to, message, delivery);
    if sent.Fail? {
      return Failure(sent.error);
    }
    r := Success(SendReply(true, "Message sent"));
  }

  /** After a non-empty stream of updates the status response is the one the last update alone gives. */
  lemma StatusAfterStream(us: seq<ConnectionUpdate>)
    requires |us| > 0
    ensures GetStatus(Replay(Initial(), us)) == GetStatus(Apply(us[|us| - 1]))
  {
    ReplayLastWins(Initial(), us);
  }

  /** A `'close'` update exposes exactly the QR code it carries, or `null` when it carries none. */
  lemma CloseUpdateExposesItsQr(u: ConnectionUpdate)
    requires u.connection == Some("close")
    ensures GetStatus(Apply(u)) == QrBody(if Truthy(u.qr) then u.qr else None)
  {
  }

  /** An update carrying only a QR code makes the status response `unknown`, without the code. */
  lemma QrOnlyUpdateReportsUnknown(q: string)
    ensures GetStatus(Apply(ConnectionUpdate(None, None, Some(q)))) == StatusBody("unknown")
  {
  }
}
