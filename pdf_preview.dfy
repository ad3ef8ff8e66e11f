/** The preview page: its status, saved-document id and loading state, and
    the company-sign chain (save if unsaved, mark company_signed, then
    optionally send to the client).  The hook calls are not executed here:
    their results are inputs and the calls made are recorded in order. */
module PdfPreview {
  import opened Js
  import opened DocumentStatus

  /** The chosen template, as far as the page reads it: its name, which may
      be missing. */
  datatype TemplateRef = TemplateRef(name: Option<string>)

  /** The `document` prop, as far as the page reads it. */
  datatype PreviewInput = PreviewInput(
    status: Option<string>,
    id: Option<string>,
    template: Option<TemplateRef>,
    formData: Option<map<string, string>>)

  /** `document.template?.name`: absent when the template or its name is. */
  function TemplateName(input: PreviewInput): (name: Option<string>)
    ensures name.Some? <==> input.template.Some? && input.template.value.name.Some?
  {
    if input.template.Some? then input.template.value.name else None
  }

  /** The hook calls the page makes. */
  datatype HookCall =
    | Save(templateName: string, formData: Option<map<string, string>>, status: string)
    | Update(documentId: string, target: Status, signature: string)
    | Send(documentId: string, email: string, name: string, company: string, documentType: string)

  /** What the hook calls return: the id of a saved document (None when
      saving fails), whether the status write succeeded, and whether the
      e-mail was sent. */
  datatype SignResults = SignResults(savedId: Option<string>, updated: bool, sent: bool)

  /** The part of the page state the sign chain changes. */
  datatype SignState = SignState(status: string, documentId: Option<string>)

  /** `document.formData?.key`. */
  function FormField(input: PreviewInput, key: string): Option<string>
  {
    if input.formData.Some? && key in input.formData.value then Some(input.formData.value[key]) else None
  }

  /** The auto-send needs the employee's e-mail and name and the company
      name. */
  predicate CanAutoSend(input: PreviewInput)
  {
    Truthy(FormField(input, "employeeEmail")) && Truthy(FormField(input, "employeeName"))
    && Truthy(FormField(input, "companyName"))
  }

  /** How far the chain got: no document id (saving failed), the
      company-signed write failed, or it succeeded, with or without an
      attempted auto-send and its result. */
  datatype Stage = NoDocument | WriteFailed | Signed(autoSent: bool, sent: bool)

  /** The document id the chain works on: the page's, else a truthy id
      returned by the save. */
  function ChainId(s: SignState, r: SignResults): Option<string>
  {
    if s.documentId.Some? then s.documentId else if Truthy(r.savedId) then r.savedId else None
  }

  /** The stage the chain reaches for a non-blank signature. */
  function ChainStage(s: SignState, input: PreviewInput, r: SignResults): Stage
  {
    if ChainId(s, r).None? then NoDocument
    else if !r.updated then WriteFailed
    else Signed(CanAutoSend(input), CanAutoSend(input) && r.sent)
  }

  /** The page status after a stage. */
  function StatusAfter(status: string, st: Stage): string
  {
    match st
    case Signed(_, true) => Name(SentForSignature)
    case Signed(_, false) => Name(CompanySigned)
    case _ => status
  }

  /** The save of an unsaved document, as a draft named after the
      template. */
  function SaveCall(input: PreviewInput): HookCall
  {
    Save(Or(TemplateName(input), "Unknown Template"), input.formData, "draft")
  }

  /** The auto-send to the employee named in the form. */
  function SendCall(id: string, input: PreviewInput): HookCall
    requires CanAutoSend(input)
  {
    Send(id, FormField(input, "employeeEmail").value, FormField(input, "employeeName").value,
         FormField(input, "companyName").value, Or(TemplateName(input), "Legal Document"))
  }

  /** The hook calls made up to a stage: the save for an unsaved document,
      the company-signed write when there is an id, the send when all
      three form fields are there and the write succeeded. */
  function ChainCalls(s: SignState, input: PreviewInput, signature: string, r: SignResults): seq<HookCall>
  {
    var saves := if s.documentId.None? then [SaveCall(input)] else [];
    var id := ChainId(s, r);
    var st := ChainStage(s, input, r);
    if id.None? then saves
    else
      var updates := saves + [Update(id.value, CompanySigned, signature)];
      if st.Signed? && st.autoSent then updates + [SendCall(id.value, input)] else updates
  }

  /** `handleCompanySign`'s effect on the page state: nothing for a blank
      signature. */
  function SignedState(s: SignState, input: PreviewInput, signature: string, r: SignResults): SignState
  {
    if Blank(signature) then s
    else SignState(StatusAfter(s.status, ChainStage(s, input, r)), ChainId(s, r))
  }

  /** `handleCompanySign`'s hook calls: none for a blank signature. */
  function SignCalls(s: SignState, input: PreviewInput, signature: string, r: SignResults): seq<HookCall>
  {
    if Blank(signature) then [] else ChainCalls(s, input, signature, r)
  }

  /** A blank signature causes no call and no change. */
  lemma BlankSignature(s: SignState, input: PreviewInput, signature: string, r: SignResults)
    requires Blank(signature)
    ensures SignedState(s, input, signature, r) == s && SignCalls(s, input, signature, r) == []
  {
  }

  /** Saving happens only for an unsaved document, and first; the id is
      kept, or the saved id is remembered; without an id the save is the
      only call and the state stays. */
  lemma SaveStep(s: SignState, input: PreviewInput, signature: string, r: SignResults)
    requires !Blank(signature)
    ensures var s', calls := SignedState(s, input, signature, r), SignCalls(s, input, signature, r);
      && (|calls| > 0 && calls[0].Save? <==> s.documentId.None?)
      && (forall i | 1 <= i < |calls| :: !calls[i].Save?)
      && (s.documentId.Some? ==> s'.documentId == s.documentId)
      && (s.documentId.None? && Truthy(r.savedId) ==> s'.documentId == r.savedId)
      && (s.documentId.None? && !Truthy(r.savedId) ==>
            s' == s && calls == [SaveCall(input)])
  {
  }

  /** The stage a chain reaches: a send is attempted only after a successful
      write with all three form fields, and counts as sent only when the
      send succeeded. */
  lemma StageFacts(s: SignState, input: PreviewInput, signature: string, r: SignResults)
    requires !Blank(signature)
    ensures var st, calls := ChainStage(s, input, r), SignCalls(s, input, signature, r);
      && (st.Signed? <==> ChainId(s, r).Some? && r.updated)
      && (st.Signed? ==> (st.autoSent <==> CanAutoSend(input)) && (st.sent <==> CanAutoSend(input) && r.sent))
      && ((exists i | 0 <= i < |calls| :: calls[i].Send?) <==> st.Signed? && st.autoSent)
      && ((exists i | 0 <= i < |calls| :: calls[i].Update?) <==> ChainId(s, r).Some?)
  {
    var st, calls := ChainStage(s, input, r), SignCalls(s, input, signature, r);
    if ChainId(s, r).Some? {
      assert calls[|calls| - 1].Send? || calls[|calls| - 1].Update?;
      if st.Signed? && st.autoSent {
        assert calls[|calls| - 2].Update?;
      }
    }
  }

  /** The status changes only through a successful company-signed write: to
      company_signed, or to sent_for_signature when the auto-send
      succeeded. */
  lemma StatusStep(status: string, st: Stage)
    ensures var after := StatusAfter(status, st);
      && (!st.Signed? ==> after == status)
      && (st.Signed? ==> after == Name(CompanySigned) || after == Name(SentForSignature))
      && (st.Signed? ==> (after == Name(SentForSignature) <==> st.sent))
  {
  }

  /** No status guard: signing again from fully_signed moves the page back
      to company_signed. */
  lemma SignAfterFullySigned(id: string, input: PreviewInput, signature: string)
    requires !Blank(signature) && !CanAutoSend(input)
    ensures SignedState(SignState(Name(FullySigned), Some(id)), input, signature, SignResults(None, true, false))
         == SignState(Name(CompanySigned), Some(id))
  {
  }

  /** The page's state. */
  class Page {
    const input: PreviewInput
    var isLoading: bool
    var documentStatus: string
    var companySignature: string
    var currentDocumentId: Option<string>
    var isDownloading: bool
    var calls: seq<HookCall>

    /** The initial state: the document's status or "draft", its id or
        none, an empty signature. */
    constructor (input: PreviewInput)
      ensures this.input == input
      ensures documentStatus == Or(input.status, Name(Draft))
      ensures currentDocumentId == (if Truthy(input.id) then input.id else None)
      ensures !isLoading && !isDownloading && companySignature == "" && calls == []
    {
      this.input := input;
      isLoading := false;
      documentStatus := Or(input.status, "draft");
      companySignature := "";
      currentDocumentId := if Truthy(input.id) then input.id else None;
      isDownloading := false;
      calls := [];
    }

    /** `handleCompanySign` with the hook calls' results. */
    method HandleCompanySign(r: SignResults)
      modifies this
      ensures SignState(documentStatus, currentDocumentId)
           == SignedState(SignState(old(documentStatus), old(currentDocumentId)), input, old(companySignature), r)
      ensures calls
           == old(calls) + SignCalls(SignState(old(documentStatus), old(currentDocumentId)), input, old(companySignature), r)
      ensures isLoading == (old(isLoading) && Blank(old(companySignature)))
      ensures companySignature == old(companySignature) && isDownloading == old(isDownloading)
    {
      if Blank(companySignature) {
        return;
      }
      isLoading := true;
      // The hook calls of this run and the status it sets, gathered first.
      var made: seq<HookCall> := [];
      var status := documentStatus;
      var documentId := currentDocumentId;
      if documentId.None? {
        made := [SaveCall(input)];
        documentId := if Truthy(r.savedId) then r.savedId else None;
      }
      if documentId.Some? {
        made := made + [Update(documentId.value, CompanySigned, companySignature)];
        if r.updated {
          status := Name(CompanySigned);
          if CanAutoSend(input) {
            made := made + [SendCall(documentId.value, input)];
            if r.sent {
              status := Name(SentForSignature);
            }
          }
        }
      }
      calls := calls + made;
      documentStatus := status;
      currentDocumentId := documentId;
      isLoading := false;
    }

    /** The signature input. */
    method SetCompanySignature(text: string)
      modifies this`companySignature
      ensures companySignature == text
    {
      companySignature := text;
    }
  }
}
