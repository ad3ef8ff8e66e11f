/** The documents hook: the status write with its signature-field choice,
    the send-for-signature call with its testing-mode gate, and the two
    token helpers.  The backend's `documents` table is modelled as a map
    from id to row that the hook's writes change; remote outcomes (errors,
    the e-mail function's reply) are inputs, and the remote calls made are
    recorded in order. */
module DocumentsHook {
  import opened Js
  import opened DocumentStatus
  import EnvConfig

  /** A stored document, as far as status writes touch it. */
  datatype Row = Row(
    templateName: string,
    status: string,
    companySignature: Option<string>,
    clientSignature: Option<string>,
    updatedAt: Option<string>)

  /** The object handed to `.update(…)`: status and time always, at most one
      signature field. */
  datatype Payload = Payload(
    status: string,
    updatedAt: string,
    companySignature: Option<string>,
    clientSignature: Option<string>)

  /** What the e-mail function answered: an invocation error, or a reply
      whose `success` flag is true or not. */
  datatype InvokeOutcome = InvokeError | Replied(success: bool)

  /** The remote calls the hook makes. */
  datatype RemoteCall =
    | UpdateRow(documentId: string, payload: Payload)
    | InvokeSendEmail(documentId: string, recipientEmail: string, recipientName: string,
                      companyName: string, documentType: string, isTesting: bool)

  /** The payload of `updateDocumentStatus(id, status, signature)`. */
  function PayloadFor(status: Status, now: string, signature: Option<string>): Payload
  {
    Payload(
      Name(status), now,
      if Truthy(signature) && status == CompanySigned then signature else None,
      if Truthy(signature) && status == FullySigned then signature else None)
  }

  /** The write always sets the requested status and the time; a non-empty
      signature goes to `company_signature` exactly for company_signed and
      to `client_signature` exactly for fully_signed; an empty or absent
      signature, or any other status, writes neither, and never both. */
  lemma PayloadFields(status: Status, now: string, signature: Option<string>)
    ensures var p := PayloadFor(status, now, signature);
      && p.status == Name(status) && p.updatedAt == now
      && (p.companySignature.Some? <==> Truthy(signature) && status == CompanySigned)
      && (p.clientSignature.Some? <==> Truthy(signature) && status == FullySigned)
      && (p.companySignature.Some? ==> p.companySignature == signature)
      && (p.clientSignature.Some? ==> p.clientSignature == signature)
      && !(p.companySignature.Some? && p.clientSignature.Some?)
  {
  }

  /** A row after the update: the payload's fields overwrite, the others
      stay. */
  function Apply(r: Row, p: Payload): Row
  {
    Row(r.templateName, p.status,
        if p.companySignature.Some? then p.companySignature else r.companySignature,
        if p.clientSignature.Some? then p.clientSignature else r.clientSignature,
        Some(p.updatedAt))
  }

  /** `.update(payload).eq('id', documentId)`: only the row with that id, if
      any, changes. */
  function UpdateTable(t: map<string, Row>, id: string, p: Payload): (t': map<string, Row>)
    ensures t'.Keys == t.Keys
    ensures forall k | k in t && k != id :: t'[k] == t[k]
  {
    if id in t then t[id := Apply(t[id], p)] else t
  }

  /** The write does not look at the stored status: whatever it was, the
      row afterwards has the requested one, keeps its template, and keeps
      each signature the payload does not carry. */
  lemma NoStatusGuard(t: map<string, Row>, id: string, status: Status, now: string, signature: Option<string>)
    requires id in t
    ensures var r := UpdateTable(t, id, PayloadFor(status, now, signature))[id];
      && r.status == Name(status)
      && r.templateName == t[id].templateName
      && r.updatedAt == Some(now)
      && (status != CompanySigned || !Truthy(signature) ==> r.companySignature == t[id].companySignature)
      && (status != FullySigned || !Truthy(signature) ==> r.clientSignature == t[id].clientSignature)
  {
  }

  /** A concrete regression the write allows: a fully signed row is moved
      back to draft, keeping its client signature. */
  lemma FullySignedBackToDraft(t: map<string, Row>, id: string, now: string)
    requires id in t && t[id].status == Name(FullySigned)
    ensures UpdateTable(t, id, PayloadFor(Draft, now, None))[id].status == Name(Draft)
    ensures UpdateTable(t, id, PayloadFor(Draft, now, None))[id].clientSignature == t[id].clientSignature
  {
    NoStatusGuard(t, id, Draft, now, None);
  }

  /** `IS_TESTING && !validateTestingEmail(recipientEmail)`. */
  predicate Blocked(testing: bool, recipientEmail: string)
  {
    testing && !EnvConfig.ValidateTestingEmail(testing, recipientEmail)
  }

  /** A row returned by `get_document_by_token`. */
  datatype TokenRow = TokenRow(
    documentId: string,
    templateName: string,
    status: string,
    companySignature: Option<string>,
    clientSignature: Option<string>,
    canSign: Option<bool>)

  /** The document the signing page receives. */
  datatype SharedDocument = SharedDocument(
    id: string,
    templateName: string,
    status: string,
    companySignature: Option<string>,
    clientSignature: Option<string>,
    canSign: Option<bool>)

  /** Outcome of the `get_document_by_token` call: an error, or the rows. */
  datatype RowsOutcome = RowsError | Rows(rows: seq<TokenRow>)

  /** `getDocumentByToken`: null on an error or an empty result, otherwise
      the first row renamed to the document's fields. */
  function DocumentByToken(o: RowsOutcome): (d: Option<SharedDocument>)
    ensures d.None? <==> o.RowsError? || o.rows == []
    ensures d.Some? ==>
      && d.value.id == o.rows[0].documentId
      && d.value.status == o.rows[0].status
      && d.value.canSign == o.rows[0].canSign
      && d.value.clientSignature == o.rows[0].clientSignature
  {
    if o.RowsError? || o.rows == [] then None
    else
      var r := o.rows[0];
      Some(SharedDocument(r.documentId, r.templateName, r.status, r.companySignature,
                          r.clientSignature, r.canSign))
  }

  /** A JSON value returned by an RPC. */
  datatype JsonValue = JsonBool(b: bool) | JsonNull | JsonNumber(n: int) | JsonText(s: string)

  /** `signDocumentByToken`: true only for a reply that is exactly `true`;
      an error (None), `false`, null, 1 or "true" are all failures. */
  function SignedByToken(reply: Option<JsonValue>): (ok: bool)
    ensures ok <==> reply == Some(JsonBool(true))
    ensures reply == Some(JsonNumber(1)) || reply == Some(JsonText("true")) ==> !ok
  {
    match reply
    case Some(JsonBool(b)) => b
    case _ => false
  }

  /** The hook's state: the `loading` flag, the table it writes, and the
      remote calls made so far. */
  class Hook {
    var loading: bool
    var table: map<string, Row>
    var calls: seq<RemoteCall>

    constructor (initial: map<string, Row>)
      ensures !loading && table == initial && calls == []
    {
      loading := false;
      table := initial;
      calls := [];
    }

    /** `updateDocumentStatus`: builds the payload field by field, writes
        it, and reports whether the write succeeded; `loading` ends false. */
    method UpdateDocumentStatus(documentId: string, status: Status, signature: Option<string>,
                                now: string, fails: bool) returns (ok: bool)
      modifies this
      ensures ok == !fails
      ensures calls == old(calls) + [UpdateRow(documentId, PayloadFor(status, now, signature))]
      ensures table == if ok then UpdateTable(old(table), documentId, PayloadFor(status, now, signature))
                       else old(table)
      ensures !loading
    {
      loading := true;
      var p := Payload(Name(status), now, None, None);
      if Truthy(signature) {
        if status == CompanySigned {
          p := p.(companySignature := signature);
        } else if status == FullySigned {
          p := p.(clientSignature := signature);
        }
      }
      calls := calls + [UpdateRow(documentId, p)];
      if fails {
        ok := false;
      } else {
        table := UpdateTable(table, documentId, p);
        ok := true;
      }
      loading := false;
    }

    /** `sendDocumentForSignature`: refused before any call in testing mode
        for a recipient off the allow-list; otherwise the e-mail function is
        invoked, and only a successful reply moves the status to
        sent_for_signature, after which true is returned whether or not
        that write succeeded. */
    method SendDocumentForSignature(documentId: string, recipientEmail: string, recipientName: string,
                                    companyName: string, documentType: string, testing: bool,
                                    reply: InvokeOutcome, now: string, updateFails: bool)
      returns (ok: bool)
      modifies this
      ensures ok <==> !Blocked(testing, recipientEmail) && reply == Replied(true)
      ensures Blocked(testing, recipientEmail) ==>
        calls == old(calls) && table == old(table) && loading == old(loading)
      ensures !Blocked(testing, recipientEmail) ==>
        && !loading
        && calls == old(calls)
             + [InvokeSendEmail(documentId, recipientEmail, recipientName, companyName, documentType, testing)]
             + (if reply == Replied(true)
                then [UpdateRow(documentId, PayloadFor(SentForSignature, now, None))] else [])
        && table == if ok && !updateFails
                    then UpdateTable(old(table), documentId, PayloadFor(SentForSignature, now, None))
                    else old(table)
    {
      if Blocked(testing, recipientEmail) {
        return false;
      }
      loading := true;
      calls := calls + [InvokeSendEmail(documentId, recipientEmail, recipientName, companyName,
                                        documentType, testing)];
      if reply == Replied(true) {
        var _ := UpdateDocumentStatus(documentId, SentForSignature, None, now, updateFails);
        ok := true;
      } else {
        ok := false;
      }
      loading := false;
    }
  }
}
