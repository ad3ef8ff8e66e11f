/** The preview page's action buttons: the HTML download with its file name
    and message, and the demo button that marks the document fully signed.
    Both act on the page state they are handed. */
module DocumentActions {
  import opened Js
  import opened DocumentStatus
  import PdfPreview

  /** `s.replace(/\s+/g, '-')`: every run of whitespace becomes one dash. */
  function DashSpaces(s: string): (r: string)
    ensures forall i :: 0 <= i < |r| ==> !IsSpace(r[i])
    ensures |r| <= |s|
    ensures (forall i :: 0 <= i < |s| ==> !IsSpace(s[i])) ==> r == s
    decreases |s|
  {
    if s == [] then []
    else if IsSpace(s[0]) then "-" + DashSpaces(TrimStart(s))
    else [s[0]] + DashSpaces(s[1..])
  }

  /** The characters that are neither whitespace nor a dash, in order. */
  function Visible(s: string): string
  {
    if s == [] then []
    else if IsSpace(s[0]) || s[0] == '-' then Visible(s[1..])
    else [s[0]] + Visible(s[1..])
  }

  /** Dropping a leading whitespace run leaves the visible text as it was. */
  lemma {:induction false} VisibleTrimStart(s: string)
    ensures Visible(TrimStart(s)) == Visible(s)
    decreases |s|
  {
    if s != [] && IsSpace(s[0]) {
      VisibleTrimStart(s[1..]);
    }
  }

  /** The dashes only replace whitespace: the visible text is unchanged. */
  lemma {:induction false} DashSpacesVisible(s: string)
    ensures Visible(DashSpaces(s)) == Visible(s)
    decreases |s|
  {
    if s == [] {
    } else if IsSpace(s[0]) {
      var t := TrimStart(s);
      DashSpacesVisible(t);
      VisibleTrimStart(s);
      assert ("-" + DashSpaces(t))[1..] == DashSpaces(t);
    } else {
      DashSpacesVisible(s[1..]);
      assert ([s[0]] + DashSpaces(s[1..]))[1..] == DashSpaces(s[1..]);
    }
  }

  /** Trimming the start drops exactly a leading whitespace run. */
  lemma {:induction false} TrimStartRun(w: string, b: string)
    requires forall i :: 0 <= i < |w| ==> IsSpace(w[i])
    requires b == [] || !IsSpace(b[0])
    ensures TrimStart(w + b) == b
    decreases |w|
  {
    if w != [] {
      assert (w + b)[1..] == w[1..] + b;
      TrimStartRun(w[1..], b);
    }
  }

  /** A whole whitespace run, however long, becomes one dash. */
  lemma DashSpacesRun(w: string, b: string)
    requires w != [] && forall i :: 0 <= i < |w| ==> IsSpace(w[i])
    requires b == [] || !IsSpace(b[0])
    ensures DashSpaces(w + b) == "-" + DashSpaces(b)
  {
    TrimStartRun(w, b);
  }

  /** A value placed in a template literal: its text, or "undefined" when it
      is missing. */
  function Interpolated(x: Option<string>): (t: string)
    ensures x.Some? ==> t == x.value
    ensures x.None? ==> t == "undefined"
  {
    if x.Some? then x.value else "undefined"
  }

  /** `${template.name}-${formData.employeeName || 'document'}-${status}.html`;
      absent when the template or the form data is missing (the property
      access throws and the download fails).  A template without a name
      still gives a file, named "undefined-...". */
  function DownloadName(input: PdfPreview.PreviewInput, status: string): (name: Option<string>)
    ensures name.Some? <==> input.template.Some? && input.formData.Some?
  {
    if input.template.None? || input.formData.None? then None
    else
      Some(Interpolated(input.template.value.name) + "-" + Or(PdfPreview.FormField(input, "employeeName"), "document")
           + "-" + DashSpaces(status) + ".html")
  }

  /** A stored status contains no whitespace, so the file name carries it
      unchanged between the employee's name (or "document") and `.html`. */
  lemma DownloadNameShape(input: PdfPreview.PreviewInput, status: Status)
    requires input.template.Some? && input.formData.Some?
    ensures DownloadName(input, Name(status))
         == Some(Interpolated(input.template.value.name) + "-" + Or(PdfPreview.FormField(input, "employeeName"), "document")
                 + "-" + Name(status) + ".html")
  {
    NameHasNoSpace(status);
  }

  /** A template without a name does not stop the download: the file is
      named "undefined-<employee or document>-<status>.html". */
  lemma NamelessTemplate(input: PdfPreview.PreviewInput, status: Status)
    requires input.template == Some(PdfPreview.TemplateRef(None)) && input.formData.Some?
    ensures DownloadName(input, Name(status))
         == Some("undefined" + "-" + Or(PdfPreview.FormField(input, "employeeName"), "document")
                 + "-" + Name(status) + ".html")
  {
    DownloadNameShape(input, status);
  }

  lemma NameHasNoSpace(status: Status)
    ensures forall i :: 0 <= i < |Name(status)| ==> !IsSpace(Name(status)[i])
  {
    var n := Name(status);
    assert forall i :: 0 <= i < |n| ==> n[i] == '_' || 'a' <= n[i] <= 'z' by {
      match status
      case Draft =>
      case CompanySigned =>
      case SentForSignature =>
      case FullySigned =>
    }
  }

  const SignedDownloaded := "Your signed document has been downloaded successfully."
  const Downloading := "Your document is being downloaded."
  const DownloadFailed := "There was an error downloading the document. Please try again."

  /** The message shown after a download attempt. */
  function DownloadMessage(status: string, succeeded: bool): (m: string)
    ensures !succeeded ==> m == DownloadFailed
    ensures succeeded ==> (m == SignedDownloaded <==> status == Name(FullySigned))
    ensures succeeded ==> (m == Downloading <==> status != Name(FullySigned))
  {
    if !succeeded then DownloadFailed
    else if status == "fully_signed" then SignedDownloaded
    else Downloading
  }

  /** The demo signing button is offered only while the document awaits the
      client's signature. */
  predicate SimulateOffered(status: string)
  {
    status == "sent_for_signature"
  }

  /** `handleDownload`: the file it saves (none when the download fails) and
      the message; the busy flag is raised and always lowered again. */
  method HandleDownload(page: PdfPreview.Page) returns (file: Option<string>, message: string)
    modifies page`isDownloading
    ensures file == DownloadName(page.input, page.documentStatus)
    ensures message == DownloadMessage(page.documentStatus, file.Some?)
    ensures !page.isDownloading
  {
    page.isDownloading := true;
    file := DownloadName(page.input, page.documentStatus);
    message := DownloadMessage(page.documentStatus, file.Some?);
    page.isDownloading := false;
  }

  /** `simulateClientSigning`: the page shows fully_signed afterwards; the
      stored document is not touched, and no other page state changes. */
  method SimulateClientSigning(page: PdfPreview.Page)
    modifies page`documentStatus, page`isDownloading
    ensures page.documentStatus == Name(FullySigned) && !SimulateOffered(page.documentStatus)
    ensures !page.isDownloading
  {
    page.isDownloading := true;
    page.documentStatus := "fully_signed";
    page.isDownloading := false;
  }
}
