/** The `send-document-email` edge function: after the common gate it mints
    a signing token, mails the signing link and logs the e-mail. */
module EsignEmail {
  import opened Js
  import opened EdgeCommon
  import HtmlEscape

  /** Outcomes of the calls made after the gate: the minted token (None when
      the insert fails), the `APP_URL` setting, and the mail service's reply
      (None when sending throws; otherwise the optional message id). */
  datatype Outcomes = Outcomes(
    gate: GateOutcomes,
    accessToken: Option<string>,
    appUrlSetting: Option<string>,
    sent: Option<Option<string>>)

  const LocalAppUrl := "http://localhost:8080"
  const SentMessage := "Email sent successfully"

  /** `APP_URL || origin || "http://localhost:8080"`. */
  function AppUrl(setting: Option<string>, origin: Option<string>): (url: string)
    ensures url != ""
    ensures Truthy(setting) ==> url == setting.value
    ensures !Truthy(setting) && Truthy(origin) ==> url == origin.value
    ensures !Truthy(setting) && !Truthy(origin) ==> url == LocalAppUrl
  {
    Or(setting, Or(origin, LocalAppUrl))
  }

  /** The link mailed to the signer. */
  function SigningLink(appUrl: string, documentId: string, token: string): string
  {
    appUrl + "/sign-document/" + documentId + "?token=" + token
  }

  /** The link splits at `?` into the signing page of the document and the
      token query, so the page path and the token can be read back. */
  lemma SigningLinkParts(appUrl: string, documentId: string, token: string)
    requires '?' !in appUrl && '?' !in documentId && '?' !in token
    ensures Split(SigningLink(appUrl, documentId, token), '?')
         == [appUrl + "/sign-document/" + documentId, "token=" + token]
  {
    var page := appUrl + "/sign-document/" + documentId;
    var query := "token=" + token;
    assert '?' !in "/sign-document/";
    assert '?' !in page;
    assert '?' !in query;
    assert SigningLink(appUrl, documentId, token) == page + ['?'] + query;
    SplitAfter(page, query, '?');
    SplitNone(query, '?');
  }

  /** The invitation: the subject and the interpolated values of the body in
      order (recipient name, company name, document type, link, company
      name); every value except the link is escaped. */
  function InvitationMail(f: Required, link: string): (m: Mail)
    ensures m.to == f.recipientEmail
    ensures |m.parts| == 5 && m.parts[3] == link
    ensures forall i | 0 <= i < 5 && i != 3 :: '<' !in m.parts[i] && '"' !in m.parts[i]
  {
    Mail(f.recipientEmail,
         "Document Ready for Signature - " + HtmlEscape.EscapeHtml(f.documentType),
         [HtmlEscape.EscapeHtml(f.recipientName), HtmlEscape.EscapeHtml(f.companyName),
          HtmlEscape.EscapeHtml(f.documentType), link, HtmlEscape.EscapeHtml(f.companyName)])
  }

  /** The handler: the response and the calls it made. */
  function Handle(req: Request, o: Outcomes): (Response, seq<Effect>)
  {
    match RunGate(req, o.gate)
    case Stop(resp, t) => (resp, t)
    case Through(f, _, _, t) =>
      var t4 := t + [InsertAccessToken(f.documentId, f.recipientEmail)];
      if o.accessToken.None? then (Response(500, Failure(Unprocessable)), t4)
      else
        var link := SigningLink(AppUrl(o.appUrlSetting, req.origin), f.documentId, o.accessToken.value);
        var t5 := t4 + [SendMail(InvitationMail(f, link))];
        if o.sent.None? then (Response(500, Failure(InternalError)), t5)
        else
          var t6 := t5 + [LogMail(f.documentId, f.recipientEmail, "esign_request")];
          (Response(200, Delivered(o.sent.value, SentMessage, Some(link))), t6)
  }

  /** Past the gate, a failed token insert is the next rejection (500), and
      a success response carries the signing link built from the minted
      token. */
  lemma HandleOutcomes(req: Request, o: Outcomes)
    requires req.verb != "OPTIONS" && Authorised(req, o.gate)
    ensures var (resp, _) := Handle(req, o);
      && (o.accessToken.None? ==> resp == Response(500, Failure(Unprocessable)))
      && (resp.status == 200 <==> o.accessToken.Some? && o.sent.Some?)
      && (resp.status == 200 ==>
            resp.body.signatureLink
              == Some(SigningLink(AppUrl(o.appUrlSetting, req.origin),
                                  o.gate.body.value.documentId.value, o.accessToken.value)))
  {
  }

  /** A request stopped by the gate gets the gate's answer and nothing past
      the lookup is called. */
  lemma HandleStopped(req: Request, o: Outcomes)
    requires !(req.verb != "OPTIONS" && Authorised(req, o.gate))
    ensures Handle(req, o) == (RunGate(req, o.gate).response, RunGate(req, o.gate).trace)
    ensures forall e | e in Handle(req, o).1 :: !e.InsertAccessToken? && !e.SendMail? && !e.LogMail?
  {
    GateTrace(req, o.gate);
  }

  /** A token is minted, and mail sent, only for the authenticated owner of
      the document; the e-mail log row is written only right after the send,
      and the send's own reply is never inspected for an error. */
  lemma SendGuarded(req: Request, o: Outcomes)
    ensures var (resp, t) := Handle(req, o);
      && ((exists e | e in t :: e.InsertAccessToken? || e.SendMail?) ==>
            req.verb != "OPTIONS" && Authorised(req, o.gate))
      && ((exists e | e in t :: e.SendMail?) ==> o.accessToken.Some?)
      && ((exists e | e in t :: e.LogMail?) <==> resp.status == 200 && req.verb != "OPTIONS")
      && (forall j | 0 <= j < |t| && t[j].LogMail? ::
            j == |t| - 1 && j >= 1 && t[j - 1].SendMail? && t[j].kind == "esign_request")
  {
    var (resp, t) := Handle(req, o);
    if !(req.verb != "OPTIONS" && Authorised(req, o.gate)) {
      HandleStopped(req, o);
      GateOrder(req, o.gate);
      assert resp.status == 200 ==> req.verb == "OPTIONS";
    } else {
      var g := RunGate(req, o.gate);
      GateTrace(req, o.gate);
      var f := g.fields;
      var t4 := g.trace + [InsertAccessToken(f.documentId, f.recipientEmail)];
      if o.accessToken.None? {
        assert t == t4;
        LogFree(g.trace, [InsertAccessToken(f.documentId, f.recipientEmail)]);
      } else {
        var link := SigningLink(AppUrl(o.appUrlSetting, req.origin), f.documentId, o.accessToken.value);
        var t5 := t4 + [SendMail(InvitationMail(f, link))];
        LogFree(g.trace, [InsertAccessToken(f.documentId, f.recipientEmail)]);
        LogFree(t4, [SendMail(InvitationMail(f, link))]);
        if o.sent.Some? {
          assert t == t5 + [LogMail(f.documentId, f.recipientEmail, "esign_request")];
          assert t[|t| - 1].LogMail?;
        }
      }
    }
  }

  /** Appending calls that are not log writes to a trace without one leaves
      it without one. */
  lemma LogFree(a: seq<Effect>, b: seq<Effect>)
    requires forall e | e in a :: !e.LogMail?
    requires forall e | e in b :: !e.LogMail?
    ensures forall e | e in a + b :: !e.LogMail?
  {
  }
}
