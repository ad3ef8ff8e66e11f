/** The signer's side of the signing page: which card is shown, and the
    client-sign step that signs through the link's token or, without one,
    through the status write, then updates the page's copy of the
    document.  The two calls' results are inputs; the calls made are
    recorded. */
module SignatureSection {
  import opened Js
  import opened DocumentStatus

  /** The page's copy of the document. */
  datatype SignDocument = SignDocument(
    id: string,
    templateName: Option<string>,
    status: string,
    companySignature: Option<string>,
    clientSignature: Option<string>,
    updatedAt: Option<string>,
    canSign: Option<bool>)

  /** The signing calls. */
  datatype SignCall =
    | SignByToken(token: string, signature: string)
    | UpdateStatus(documentId: string, target: Status, signature: string)

  /** The three cards the section can show. */
  datatype Card = Completed | SignForm | PendingCompany

  /** `isAlreadySigned`. */
  predicate IsAlreadySigned(d: SignDocument)
  {
    d.status == "fully_signed"
  }

  /** `canSign`: the backend's `can_sign` when it was given, otherwise a
      status that has the company's signature but not the client's. */
  predicate CanSign(d: SignDocument)
  {
    if d.canSign.Some? then d.canSign.value
    else d.status == "sent_for_signature" || d.status == "company_signed"
  }

  lemma CanSignCases(d: SignDocument)
    ensures d.canSign.Some? ==> (CanSign(d) <==> d.canSign.value)
    ensures d.canSign.None? ==>
      (CanSign(d) <==> (Parse(d.status) == Some(SentForSignature) || Parse(d.status) == Some(CompanySigned)))
    ensures IsAlreadySigned(d) <==> Parse(d.status) == Some(FullySigned)
  {
    if Parse(d.status).Some? {
      ParseName(Parse(d.status).value);
    }
  }

  /** The card shown: completed first, then the form, then the pending
      notice. */
  function ShownCard(d: SignDocument): (c: Card)
    ensures c == Completed <==> IsAlreadySigned(d)
    ensures c == SignForm <==> !IsAlreadySigned(d) && CanSign(d)
    ensures c == PendingCompany <==> !IsAlreadySigned(d) && !CanSign(d)
  {
    if IsAlreadySigned(d) then Completed
    else if CanSign(d) then SignForm
    else PendingCompany
  }

  /** A fully signed document shows the completed card even when the backend
      still says it can be signed. */
  lemma CompletedFirst(d: SignDocument)
    requires d.status == Name(FullySigned) && d.canSign == Some(true)
    ensures ShownCard(d) == Completed && CanSign(d)
  {
  }

  /** The name of the downloaded signed copy. */
  function SignedFileName(d: SignDocument): (name: string)
    ensures Truthy(d.templateName) ==> name == d.templateName.value + "-" + d.id + ".html"
    ensures !Truthy(d.templateName) ==> name == "document-" + d.id + ".html"
  {
    Or(d.templateName, "document") + "-" + d.id + ".html"
  }

  /** The signing call for a signature: through the token when the link has
      a non-empty one, otherwise the fully_signed write for the document. */
  function SignCallFor(token: Option<string>, documentId: string, signature: string): (c: SignCall)
    ensures c.SignByToken? <==> Truthy(token)
    ensures c.SignByToken? ==> c.token == token.value && c.signature == signature
    ensures c.UpdateStatus? ==> c == UpdateStatus(documentId, FullySigned, signature)
  {
    if Truthy(token) then SignByToken(token.value, signature)
    else UpdateStatus(documentId, FullySigned, signature)
  }

  /** The local copy after a successful signing: fully signed, with the
      typed signature and the current time; all else kept. */
  function SignedCopy(d: SignDocument, signature: string, now: string): (d': SignDocument)
    ensures d'.status == Name(FullySigned) && d'.clientSignature == Some(signature)
    ensures d'.updatedAt == Some(now)
    ensures d'.id == d.id && d'.templateName == d.templateName
    ensures d'.companySignature == d.companySignature && d'.canSign == d.canSign
  {
    d.(status := "fully_signed", clientSignature := Some(signature), updatedAt := Some(now))
  }

  /** After a successful signing the section shows the completed card, and
      the copy reads as signed with the typed signature. */
  lemma SignedCopyCompleted(d: SignDocument, signature: string, now: string)
    ensures ShownCard(SignedCopy(d, signature, now)) == Completed
  {
  }

  /** The section's state. */
  class Section {
    const documentId: string
    var signing: bool
    var clientSignature: string
    var document: SignDocument
    var calls: seq<SignCall>

    constructor (documentId: string, document: SignDocument)
      ensures this.documentId == documentId && this.document == document
      ensures !signing && clientSignature == "" && calls == []
    {
      this.documentId := documentId;
      this.document := document;
      signing := false;
      clientSignature := "";
      calls := [];
    }

    /** `handleClientSign`, given the link's token, whether the chosen call
        succeeded and the current time. */
    method HandleClientSign(token: Option<string>, succeeded: bool, now: string)
      modifies this
      ensures Blank(old(clientSignature)) ==>
        calls == old(calls) && document == old(document) && signing == old(signing)
      ensures !Blank(old(clientSignature)) ==>
        && calls == old(calls) + [SignCallFor(token, documentId, old(clientSignature))]
        && document == (if succeeded then SignedCopy(old(document), old(clientSignature), now)
                        else old(document))
        && !signing
      ensures clientSignature == old(clientSignature)
    {
      if Blank(clientSignature) {
        return;
      }
      signing := true;
      var success := false;
      if Truthy(token) {
        calls := calls + [SignByToken(token.value, clientSignature)];
        success := succeeded;
      } else {
        calls := calls + [UpdateStatus(documentId, FullySigned, clientSignature)];
        success := succeeded;
      }
      if success {
        document := document.(status := "fully_signed", clientSignature := Some(clientSignature),
                              updatedAt := Some(now));
      }
      signing := false;
    }

    /** The signature input. */
    method SetClientSignature(text: string)
      modifies this`clientSignature
      ensures clientSignature == text
    {
      clientSignature := text;
    }
  }
}
