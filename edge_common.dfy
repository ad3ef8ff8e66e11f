/** What the two e-mail edge functions share: the request as the handler
    sees it, the outcomes of the remote calls it awaits, the calls it makes
    (as a trace), its JSON responses, and the common gate of early returns
    (preflight, caller authentication, required fields, document lookup,
    ownership).  Remote calls are not executed here: their outcomes are
    inputs. */
module EdgeCommon {
  import opened Js

  /** The parts of the HTTP request the handlers read. */
  datatype Request = Request(
    verb: string,
    authorization: Option<string>,
    origin: Option<string>)

  /** The JSON body fields; each may be absent or empty. */
  datatype Fields = Fields(
    documentId: Option<string>,
    recipientEmail: Option<string>,
    recipientName: Option<string>,
    companyName: Option<string>,
    documentType: Option<string>)

  /** A row of the `documents` table, as far as the handlers read it.
      `formData` holds the `form_data` entries in object order with their
      values already converted by `String(value)`. */
  datatype DocumentRow = DocumentRow(
    id: string,
    userId: string,
    templateName: Option<string>,
    status: string,
    formData: Option<seq<(string, string)>>,
    companySignature: Option<string>,
    clientSignature: Option<string>)

  /** Outcomes of the awaited calls of the gate: the `sub` claim of the
      caller (None when `getClaims` fails or yields no claims), the parsed
      body (None when `req.json()` throws) and the looked-up row (None when
      the lookup fails or finds nothing). */
  datatype GateOutcomes = GateOutcomes(
    claimsSub: Option<string>,
    body: Option<Fields>,
    row: Option<DocumentRow>)

  /** The rendered parts of a message handed to the mail service. */
  datatype Mail = Mail(to: string, subject: string, parts: seq<string>)

  /** The remote calls a handler makes, in order. */
  datatype Effect =
    | CheckClaims(jwt: string)
    | ReadBody
    | LookupDocument(id: string)
    | InsertAccessToken(documentId: string, recipientEmail: string)
    | SendMail(mail: Mail)
    | LogMail(documentId: string, recipientEmail: string, kind: string)

  /** JSON response bodies. */
  datatype Body =
    | NoContent
    | Failure(error: string)
    | Delivered(emailId: Option<string>, message: string, signatureLink: Option<string>)

  datatype Response = Response(status: nat, body: Body)

  /** The five required fields after the presence check. */
  datatype Required = Required(
    documentId: string,
    recipientEmail: string,
    recipientName: string,
    companyName: string,
    documentType: string)

  /** Result of the gate: an early response, or the checked request. */
  datatype Gate =
    | Stop(response: Response, trace: seq<Effect>)
    | Through(fields: Required, userId: string, row: DocumentRow, trace: seq<Effect>)

  const Unauthorized := "Unauthorized"
  const InvalidToken := "Invalid token"
  const MissingFields := "Missing required fields"
  const Unprocessable := "Unable to process request"
  const InternalError := "Internal server error"

  /** `!documentId || !recipientEmail || …` is false. */
  predicate FieldsPresent(f: Fields)
  {
    Truthy(f.documentId) && Truthy(f.recipientEmail) && Truthy(f.recipientName)
    && Truthy(f.companyName) && Truthy(f.documentType)
  }

  /** The caller passes authentication: an authorization header is present
      and its claims are valid. */
  predicate Authenticated(req: Request, o: GateOutcomes)
  {
    Truthy(req.authorization) && o.claimsSub.Some?
  }

  /** The caller is authenticated, sent all fields, and owns the document. */
  predicate Authorised(req: Request, o: GateOutcomes)
  {
    Authenticated(req, o) && o.body.Some? && FieldsPresent(o.body.value)
    && o.row.Some? && o.row.value.userId == o.claimsSub.value
  }

  /** The early returns shared by both handlers, in source order. */
  function RunGate(req: Request, o: GateOutcomes): (g: Gate)
    ensures g.Through? <==> req.verb != "OPTIONS" && Authorised(req, o)
    ensures g.Through? ==>
      && g.userId == o.claimsSub.value && g.row == o.row.value
      && g.fields.documentId == o.body.value.documentId.value
      && g.fields.recipientEmail == o.body.value.recipientEmail.value
      && g.fields.recipientName == o.body.value.recipientName.value
      && g.fields.companyName == o.body.value.companyName.value
      && g.fields.documentType == o.body.value.documentType.value
  {
    if req.verb == "OPTIONS" then Stop(Response(200, NoContent), [])
    else if !Truthy(req.authorization) then Stop(Response(401, Failure(Unauthorized)), [])
    else
      var t1 := [CheckClaims(RemoveFirst(req.authorization.value, "Bearer "))];
      if o.claimsSub.None? then Stop(Response(401, Failure(InvalidToken)), t1)
      else
        var t2 := t1 + [ReadBody];
        if o.body.None? then Stop(Response(500, Failure(InternalError)), t2)
        else if !FieldsPresent(o.body.value) then Stop(Response(400, Failure(MissingFields)), t2)
        else
          var f := o.body.value;
          var t3 := t2 + [LookupDocument(f.documentId.value)];
          if o.row.None? then Stop(Response(404, Failure(Unprocessable)), t3)
          else if o.row.value.userId != o.claimsSub.value then
            Stop(Response(403, Failure(Unprocessable)), t3)
          else
            Through(Required(f.documentId.value, f.recipientEmail.value, f.recipientName.value,
                             f.companyName.value, f.documentType.value),
                    o.claimsSub.value, o.row.value, t3)
  }

  /** The rejection order: each status code is returned exactly when every
      earlier check passed and its own check failed. */
  lemma GateOrder(req: Request, o: GateOutcomes)
    ensures var g := RunGate(req, o);
      && (g.Stop? && g.response.status == 200 <==> req.verb == "OPTIONS")
      && (g.Stop? && g.response.status == 401 <==>
            req.verb != "OPTIONS" && !Authenticated(req, o))
      && (g.Stop? && g.response.status == 500 <==>
            req.verb != "OPTIONS" && Authenticated(req, o) && o.body.None?)
      && (g.Stop? && g.response.status == 400 <==>
            req.verb != "OPTIONS" && Authenticated(req, o) && o.body.Some?
            && !FieldsPresent(o.body.value))
      && (g.Stop? && g.response.status == 404 <==>
            req.verb != "OPTIONS" && Authenticated(req, o) && o.body.Some?
            && FieldsPresent(o.body.value) && o.row.None?)
      && (g.Stop? && g.response.status == 403 <==>
            req.verb != "OPTIONS" && Authenticated(req, o) && o.body.Some?
            && FieldsPresent(o.body.value) && o.row.Some?
            && o.row.value.userId != o.claimsSub.value)
  {
  }

  /** The gate looks the document up only for an authenticated caller with
      all fields, and never sends or writes anything. */
  lemma GateTrace(req: Request, o: GateOutcomes)
    ensures var t := RunGate(req, o).trace;
      && |t| <= 3
      && (forall e | e in t :: e.CheckClaims? || e.ReadBody? || e.LookupDocument?)
      && (|t| == 3 <==> req.verb != "OPTIONS" && Authenticated(req, o)
                         && o.body.Some? && FieldsPresent(o.body.value))
  {
  }

  /** A "Bearer " prefix is stripped from the header before the claims are
      checked. */
  lemma BearerStripped(req: Request, o: GateOutcomes, jwt: string)
    requires req.verb != "OPTIONS"
    requires req.authorization == Some("Bearer " + jwt)
    ensures RunGate(req, o).trace[0] == CheckClaims(jwt)
  {
    RemoveFirstPrefix("Bearer ", jwt);
  }
}
