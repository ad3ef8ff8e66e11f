/** The `send-document-pdf` edge function: after the common gate it renders
    the stored document, mails it and logs the e-mail.  The rendered
    document is modelled by the values it interpolates, each escaped; the
    fixed markup and styles around them are not modelled. */
module PdfEmail {
  import opened Js
  import opened EdgeCommon
  import HtmlEscape

  // ------------------------------------------------------------ key labels

  /** Number of ASCII upper-case letters in `s`. */
  function CountUpper(s: string): nat
  {
    if s == [] then 0 else (if IsUpperAscii(s[0]) then 1 else 0) + CountUpper(s[1..])
  }

  /** `key.replace(/([A-Z])/g, ' $1')`: a space before every upper-case
      letter. */
  function SpaceBeforeUpper(k: string): (r: string)
    ensures |r| == |k| + CountUpper(k)
  {
    if k == [] then []
    else (if IsUpperAscii(k[0]) then [' ', k[0]] else [k[0]]) + SpaceBeforeUpper(k[1..])
  }

  /** `.replace(/^./, str => str.toUpperCase())`: the first character, unless
      it is a line terminator, is upper-cased. */
  function UpperFirst(s: string): (r: string)
    ensures |r| == |s|
    ensures r != [] && !IsLineTerminator(s[0]) ==> r[0] == UpperChar(s[0])
    ensures r != [] ==> r[1..] == s[1..]
  {
    if s != [] && !IsLineTerminator(s[0]) then [UpperChar(s[0])] + s[1..] else s
  }

  /** The label of a `form_data` key. */
  function Humanise(key: string): string
  {
    UpperFirst(SpaceBeforeUpper(key))
  }

  /** The label is as long as the key plus one space per upper-case
      letter. */
  lemma HumaniseLength(key: string)
    ensures |Humanise(key)| == |key| + CountUpper(key)
  {
  }

  /** `s` without the character `c`. */
  function Without(s: string, c: char): string
  {
    if s == [] then [] else (if s[0] == c then [] else [s[0]]) + Without(s[1..], c)
  }

  /** Removing the spaces from the spaced key restores a key that had none:
      only spaces are inserted, and nothing is lost or reordered. */
  lemma {:induction false} SpacesRemoved(k: string)
    requires ' ' !in k
    ensures Without(SpaceBeforeUpper(k), ' ') == k
  {
    if k != [] {
      SpacesRemoved(k[1..]);
      var head := if IsUpperAscii(k[0]) then [' ', k[0]] else [k[0]];
      WithoutAppend(head, SpaceBeforeUpper(k[1..]), ' ');
      if IsUpperAscii(k[0]) {
        assert head[1..] == [k[0]];
      }
      assert k == [k[0]] + k[1..];
    }
  }

  lemma {:induction false} WithoutAppend(a: string, b: string, c: char)
    ensures Without(a + b, c) == Without(a, c) + Without(b, c)
  {
    if a == [] {
      assert a + b == b;
    } else {
      assert (a + b)[1..] == a[1..] + b;
      WithoutAppend(a[1..], b, c);
    }
  }

  /** A camel-case key of two words (such as employeeName) becomes its two
      words, separated by a space, the first one capitalised (Employee
      Name). */
  lemma HumaniseCamel(first: string, up: char, rest: string)
    requires first != [] && !IsLineTerminator(first[0])
    requires forall i | 0 <= i < |first| :: !IsUpperAscii(first[i])
    requires forall i | 0 <= i < |rest| :: !IsUpperAscii(rest[i])
    requires IsUpperAscii(up)
    ensures Humanise(first + [up] + rest) == [UpperChar(first[0])] + first[1..] + [' ', up] + rest
  {
    SpacedCamel(first, up, rest);
    var spaced := first + [' ', up] + rest;
    assert spaced[1..] == first[1..] + [' ', up] + rest;
  }

  /** Only the upper-case letter gets a space before it. */
  lemma SpacedCamel(first: string, up: char, rest: string)
    requires forall i | 0 <= i < |first| :: !IsUpperAscii(first[i])
    requires forall i | 0 <= i < |rest| :: !IsUpperAscii(rest[i])
    requires IsUpperAscii(up)
    ensures SpaceBeforeUpper(first + [up] + rest) == first + [' ', up] + rest
  {
    SpaceBeforeUpperAppend(first + [up], rest);
    SpaceBeforeUpperAppend(first, [up]);
    NoUpperKept(first);
    NoUpperKept(rest);
    assert SpaceBeforeUpper([up]) == [' ', up];
  }

  lemma {:induction false} SpaceBeforeUpperAppend(a: string, b: string)
    ensures SpaceBeforeUpper(a + b) == SpaceBeforeUpper(a) + SpaceBeforeUpper(b)
  {
    if a == [] {
      assert a + b == b;
    } else {
      assert (a + b)[1..] == a[1..] + b;
      SpaceBeforeUpperAppend(a[1..], b);
    }
  }

  lemma {:induction false} NoUpperKept(s: string)
    requires forall i | 0 <= i < |s| :: !IsUpperAscii(s[i])
    ensures SpaceBeforeUpper(s) == s
  {
    if s != [] {
      NoUpperKept(s[1..]);
    }
  }

  /** A key that already starts with an upper-case letter gets a leading
      space, and its first character is then not upper-cased again. */
  lemma HumaniseLeadingUpper(key: string)
    requires key != [] && IsUpperAscii(key[0])
    ensures Humanise(key) == [' '] + SpaceBeforeUpper(key)[1..]
    ensures Humanise(key)[1] == key[0]
  {
  }

  // ------------------------------------------------------------ rendering

  /** One `<p><strong>label:</strong> value</p>` per entry. */
  function Paragraph(key: string, value: string): string
  {
    "<p>" + "<strong>" + HtmlEscape.EscapeHtml(Humanise(key)) + ":" + "</strong> "
      + HtmlEscape.EscapeHtml(value) + "</p>"
  }

  /** `Object.entries(form_data).map(…).join('')`. */
  function Paragraphs(entries: seq<(string, string)>): string
  {
    if entries == [] then ""
    else Paragraph(entries[0].0, entries[0].1) + Paragraphs(entries[1..])
  }

  /** A tag holds one `<`, its first character. */
  lemma TagCount(tag: string)
    requires tag != [] && tag[0] == '<'
    requires forall i | 1 <= i < |tag| :: tag[i] != '<'
    ensures Count(tag, '<') == 1
  {
    CountZero(tag[1..], '<');
  }

  /** The fixed pieces of a paragraph are four tags of one `<` each and a
      colon; one literal per lemma keeps the proofs small. */
  lemma OpenParagraphTag() ensures Count("<p>", '<') == 1 { TagCount("<p>"); }
  lemma OpenStrongTag() ensures Count("<strong>", '<') == 1 { TagCount("<strong>"); }
  lemma CloseStrongTag() ensures Count("</strong> ", '<') == 1 { TagCount("</strong> "); }
  lemma CloseParagraphTag() ensures Count("</p>", '<') == 1 { TagCount("</p>"); }

  /** Every paragraph holds exactly its four tags: the escaped key and value
      contribute no `<`. */
  lemma ParagraphTags(key: string, value: string)
    ensures Count(Paragraph(key, value), '<') == 4
  {
    var k := HtmlEscape.EscapeHtml(Humanise(key));
    var v := HtmlEscape.EscapeHtml(value);
    CountZero(k, '<');
    CountZero(v, '<');
    OpenParagraphTag();
    OpenStrongTag();
    CountZero(":", '<');
    CloseStrongTag();
    CloseParagraphTag();
    var a2 := "<p>" + "<strong>";
    var a3 := a2 + k;
    var a4 := a3 + ":";
    var a5 := a4 + "</strong> ";
    var a6 := a5 + v;
    CountAppend("<p>", "<strong>", '<');
    CountAppend(a2, k, '<');
    CountAppend(a3, ":", '<');
    CountAppend(a4, "</strong> ", '<');
    CountAppend(a5, v, '<');
    CountAppend(a6, "</p>", '<');
  }

  /** The form data yields one paragraph per entry, in entry order, and no
      entry can add a tag of its own: the rendered data holds exactly four
      `<` per entry. */
  lemma {:induction false} ParagraphsTags(entries: seq<(string, string)>)
    ensures Count(Paragraphs(entries), '<') == 4 * |entries|
  {
    if entries != [] {
      ParagraphsTags(entries[1..]);
      ParagraphTags(entries[0].0, entries[0].1);
      CountAppend(Paragraph(entries[0].0, entries[0].1), Paragraphs(entries[1..]), '<');
    }
  }

  /** Rendering distributes over the entries. */
  lemma {:induction false} ParagraphsAppend(a: seq<(string, string)>, b: seq<(string, string)>)
    ensures Paragraphs(a + b) == Paragraphs(a) + Paragraphs(b)
  {
    if a == [] {
      assert a + b == b;
    } else {
      assert (a + b)[1..] == a[1..] + b;
      ParagraphsAppend(a[1..], b);
    }
  }

  /** The client signature block: the signature with its date, or the
      pending note. */
  datatype ClientBlock = ClientSigned(signature: string, date: string) | PendingSignature

  /** The values the rendered document interpolates, each already escaped:
      `<title>`, `<h1>`, the id and status lines, the form data, the company
      block (signature and date), the client block, and the generation
      time. */
  datatype PdfContent = PdfContent(
    title: string,
    heading: string,
    idLine: string,
    statusLine: string,
    data: string,
    companyBlock: Option<(string, string)>,
    clientBlock: ClientBlock,
    generatedOn: string)

  /** Today's date, the client's signing date and the current time, as the
      runtime formats them. */
  datatype Dates = Dates(today: string, clientSigned: string, now: string)

  function Esc(s: string): string { HtmlEscape.EscapeHtml(s) }

  /** Text that cannot open a tag or close an attribute value. */
  predicate Inert(s: string)
  {
    '<' !in s && '"' !in s
  }

  /** `generatePDFContent(document, status, companySignature)`. */
  function GenerateContent(row: DocumentRow, status: string, companySignature: string, d: Dates): PdfContent
  {
    PdfContent(
      Esc(Or(row.templateName, "Document")),
      Esc(Or(row.templateName, "Legal Document")),
      Esc(row.id),
      Esc(status),
      if row.formData.Some? then Paragraphs(row.formData.value) else "",
      if companySignature != "" then Some((Esc(companySignature), Esc(d.today))) else None,
      if status == "fully_signed" && Truthy(row.clientSignature)
      then ClientSigned(Esc(row.clientSignature.value), Esc(d.clientSigned))
      else PendingSignature,
      Esc(d.now))
  }

  /** The company block appears exactly when there is a company signature;
      the client's signature is shown exactly when the status is
      fully_signed and a client signature is stored, otherwise the pending
      note; absent form data renders nothing. */
  lemma SignatureBlocks(row: DocumentRow, status: string, companySignature: string, d: Dates)
    ensures var c := GenerateContent(row, status, companySignature, d);
      && (c.companyBlock.Some? <==> companySignature != "")
      && (c.companyBlock.Some? ==> c.companyBlock.value.0 == Esc(companySignature))
      && (c.clientBlock.ClientSigned? <==> status == "fully_signed" && Truthy(row.clientSignature))
      && (c.clientBlock.ClientSigned? ==> c.clientBlock.signature == Esc(row.clientSignature.value))
      && (row.formData.None? ==> c.data == "")
      && (row.formData.Some? ==> Count(c.data, '<') == 4 * |row.formData.value|)
  {
    if row.formData.Some? {
      ParagraphsTags(row.formData.value);
    }
  }

  /** The escaped values of the content in document order. */
  function ContentParts(c: PdfContent): seq<string>
  {
    [c.title, c.heading, c.idLine, c.statusLine, c.data]
    + (if c.companyBlock.Some? then [c.companyBlock.value.0, c.companyBlock.value.1] else [])
    + (if c.clientBlock.ClientSigned? then [c.clientBlock.signature, c.clientBlock.date] else [])
    + [c.generatedOn]
  }

  // -------------------------------------------------------------- handler

  /** Outcome of the mail send (None when it throws) and the dates. */
  datatype Outcomes = Outcomes(gate: GateOutcomes, sent: Option<Option<string>>, dates: Dates)

  const SentMessage := "Document email sent successfully"

  /** The message: subject, then the values of the body in order (company
      name, recipient name, company name, document type, the rendered
      document, company name).  Every user value the mail itself
      interpolates is escaped, as is the document type in the subject. */
  function DocumentMail(f: Required, c: PdfContent): (m: Mail)
    ensures m.to == f.recipientEmail
    ensures m.subject == "Document - " + Esc(f.documentType)
    ensures Inert(m.subject[|"Document - "|..])
    ensures |m.parts| == |ContentParts(c)| + 5
    ensures m.parts[4..|m.parts| - 1] == ContentParts(c)
    ensures Inert(m.parts[0]) && Inert(m.parts[1]) && Inert(m.parts[2]) && Inert(m.parts[3])
    ensures Inert(m.parts[|m.parts| - 1])
  {
    Mail(f.recipientEmail, "Document - " + Esc(f.documentType),
         [Esc(f.companyName), Esc(f.recipientName), Esc(f.companyName), Esc(f.documentType)]
         + ContentParts(c) + [Esc(f.companyName)])
  }

  /** The handler: the response and the calls it made. */
  function Handle(req: Request, o: Outcomes): (Response, seq<Effect>)
  {
    match RunGate(req, o.gate)
    case Stop(resp, t) => (resp, t)
    case Through(f, _, row, t) => Deliver(f, StoredDocumentMail(f, row, o.dates), o.sent, t)
  }

  /** The message for a stored row: its status and `company_signature || ""`
      feed the renderer. */
  function StoredDocumentMail(f: Required, row: DocumentRow, d: Dates): Mail
  {
    DocumentMail(f, GenerateContent(row, row.status, Or(row.companySignature, ""), d))
  }

  /** Past the gate: the message is sent and the e-mail is logged. */
  function Deliver(f: Required, mail: Mail, sent: Option<Option<string>>, t: seq<Effect>): (Response, seq<Effect>)
  {
    var t4 := t + [SendMail(mail)];
    if sent.None? then (Response(500, Failure(InternalError)), t4)
    else
      var t5 := t4 + [LogMail(f.documentId, f.recipientEmail, "document_pdf")];
      (Response(200, Delivered(sent.value, SentMessage, None)), t5)
  }

  /** A request the gate stops gets the gate's answer and nothing is sent
      or logged. */
  lemma HandleStopped(req: Request, o: Outcomes)
    requires !(req.verb != "OPTIONS" && Authorised(req, o.gate))
    ensures Handle(req, o) == (RunGate(req, o.gate).response, RunGate(req, o.gate).trace)
    ensures forall e | e in Handle(req, o).1 :: !e.SendMail? && !e.LogMail? && !e.InsertAccessToken?
  {
    GateTrace(req, o.gate);
  }

  /** After the gate's calls the message goes to the recipient, the answer
      is 200 exactly when the send did not throw, and the `document_pdf` log
      row is written only right after the send.  No token is minted. */
  lemma DeliverTrace(f: Required, mail: Mail, sent: Option<Option<string>>, t: seq<Effect>)
    requires forall j | 0 <= j < |t| :: !t[j].InsertAccessToken? && !t[j].LogMail? && !t[j].SendMail?
    ensures var (resp, t') := Deliver(f, mail, sent, t);
      && (resp.status == 200 <==> sent.Some?)
      && |t'| > |t| && t'[..|t|] == t
      && t'[|t|] == SendMail(mail)
      && (forall j | 0 <= j < |t'| :: !t'[j].InsertAccessToken?)
      && (forall j | 0 <= j < |t'| && t'[j].LogMail? ::
            j == |t'| - 1 && j == |t| + 1 && t'[j].kind == "document_pdf")
  {
    var t4 := t + [SendMail(mail)];
    assert t4[..|t|] == t;
    if sent.Some? {
      var t5 := t4 + [LogMail(f.documentId, f.recipientEmail, "document_pdf")];
      assert t5[..|t|] == t;
    }
  }

  /** A request that passes the gate is delivered after exactly the gate's
      three calls (claims, body, lookup). */
  lemma HandlePassed(req: Request, o: Outcomes)
    requires req.verb != "OPTIONS" && Authorised(req, o.gate)
    ensures var g := RunGate(req, o.gate);
      && Handle(req, o) == Deliver(g.fields, StoredDocumentMail(g.fields, g.row, o.dates), o.sent, g.trace)
      && |g.trace| == 3
      && g.fields.recipientEmail == o.gate.body.value.recipientEmail.value
  {
    GateTrace(req, o.gate);
  }
}
