/** The preview page's document renderer (`generatePDFContent` of the
    client): placeholders, signature lines and the status badge colour.
    `DOMPurify.sanitize` (with no tags and no attributes allowed) and the
    locale formatting of timestamps are parameters; the fixed markup and
    styles are not modelled, only the values they interpolate. */
module PdfGenerator {
  import opened Js
  import opened DocumentStatus
  import StatusBadge

  /** The form data as a key/value map. */
  type FormData = map<string, string>

  /** `formData.key`, absent when the key is missing. */
  function Field(fd: FormData, key: string): Option<string>
  {
    if key in fd then Some(fd[key]) else None
  }

  /** The document as the renderer reads it. */
  datatype PreviewDocument = PreviewDocument(
    id: Option<string>,
    templateName: Option<string>,
    formData: Option<FormData>,
    createdAt: Option<string>,
    updatedAt: Option<string>,
    clientSignature: Option<string>)

  /** The clock and the locale: today's date, the current date and time, and
      the formatting of a stored timestamp. */
  datatype Clock = Clock(today: string, now: string, format: string -> string)

  /** The values the rendered document shows, in document order; every
      one is the output of `sanitize` except the badge colour. */
  datatype Rendered = Rendered(
    title: string,
    documentId: string,
    generated: string,
    badgeColor: string,
    badgeText: string,
    details: seq<string>,
    companyLine: string,
    companyRepresentative: string,
    companySigned: Option<string>,
    clientLine: string,
    clientName: string,
    clientSigned: Option<string>,
    lastUpdated: string)

  const Grey := "#6b7280"

  /** Badge colour of a status; every other string gets grey. */
  function StatusColor(status: string): string
  {
    match Parse(status)
    case Some(Draft) => Grey
    case Some(CompanySigned) => "#3b82f6"
    case Some(SentForSignature) => "#f59e0b"
    case Some(FullySigned) => "#10b981"
    case None => Grey
  }

  /** Draft and every unknown status share grey; the other three statuses
      have pairwise different colours, none of them grey. */
  lemma StatusColors(a: Status, b: Status, other: string)
    requires !Known(other)
    ensures StatusColor(Name(Draft)) == Grey && StatusColor(other) == Grey
    ensures a != Draft ==> StatusColor(Name(a)) != Grey
    ensures a != b ==> (StatusColor(Name(a)) == StatusColor(Name(b)) <==> a == Draft && b == Draft)
  {
    ParseName(a);
    ParseName(b);
    ParseName(Draft);
  }

  /** The detail lines with their placeholders, in order: employee name,
      company name, position, start date, salary, employee email. */
  function Details(fd: FormData): (d: seq<string>)
    ensures |d| == 6
  {
    [Or(Field(fd, "employeeName"), "[Employee Name]"),
     Or(Field(fd, "companyName"), "[Company Name]"),
     Or(Field(fd, "position"), "[Position]"),
     Or(Field(fd, "startDate"), "[Start Date]"),
     Or(Field(fd, "salary"), "[Salary]"),
     Or(Field(fd, "employeeEmail"), "[Employee Email]")]
  }

  /** A filled-in field is shown as entered; a missing or empty one shows
      its bracketed placeholder; no detail line is ever empty. */
  lemma DetailPlaceholders(fd: FormData)
    ensures var d := Details(fd);
      && (Truthy(Field(fd, "employeeName")) ==> d[0] == fd["employeeName"])
      && (!Truthy(Field(fd, "employeeName")) ==> d[0] == "[Employee Name]")
      && (!Truthy(Field(fd, "salary")) ==> d[4] == "[Salary]")
      && (forall i | 0 <= i < 6 :: d[i] != "")
  {
  }

  /** The text on the company signature line before sanitising: the
      signature, else a request for it while the document is a draft, else
      nothing. */
  function CompanyLineText(companySignature: string, status: string): (t: string)
    ensures t == "[Company Signature Required]" <==>
      (companySignature == "[Company Signature Required]"
       || (companySignature == "" && status == Name(Draft)))
    ensures t == "" <==> companySignature == "" && status != Name(Draft)
    ensures companySignature != "" ==> t == companySignature
  {
    if companySignature != "" then companySignature
    else if status == Name(Draft) then "[Company Signature Required]"
    else ""
  }

  /** The text on the client signature line before sanitising: the stored
      client signature, else a placeholder for fully_signed or
      sent_for_signature, else nothing. */
  function ClientLineText(clientSignature: Option<string>, status: string): (t: string)
    ensures Truthy(clientSignature) ==> t == clientSignature.value
    ensures !Truthy(clientSignature) ==>
      && (t == "[Client Signature]" <==> status == Name(FullySigned))
      && (t == "[Awaiting Client Signature]" <==> status == Name(SentForSignature))
      && (t == "" <==> status != Name(FullySigned) && status != Name(SentForSignature))
  {
    if Truthy(clientSignature) then clientSignature.value
    else if status == Name(FullySigned) then "[Client Signature]"
    else if status == Name(SentForSignature) then "[Awaiting Client Signature]"
    else ""
  }

  /** When the client signed: only for fully_signed with a stored update
      time. */
  function ClientSignDate(doc: PreviewDocument, status: string, clock: Clock): (d: string)
    ensures d != "" ==> status == Name(FullySigned) && Truthy(doc.updatedAt)
  {
    if Truthy(doc.updatedAt) && status == Name(FullySigned) then clock.format(doc.updatedAt.value) else ""
  }

  /** `generatePDFContent(document, documentStatus, companySignature)`. */
  function Render(doc: PreviewDocument, status: string, companySignature: string,
                  sanitize: string -> string, clock: Clock): Rendered
  {
    var fd := if doc.formData.Some? then doc.formData.value else map[];
    var companyDate := if Truthy(doc.createdAt) then clock.format(doc.createdAt.value) else clock.now;
    var clientDate := ClientSignDate(doc, status, clock);
    var details := Details(fd);
    Rendered(
      sanitize(Or(doc.templateName, "Legal Document")),
      sanitize(Or(doc.id, "DRAFT")),
      sanitize(clock.today),
      StatusColor(status),
      sanitize(ReplaceFirst(status, '_', ' ')),
      seq(6, i requires 0 <= i < 6 => sanitize(details[i])),
      sanitize(CompanyLineText(companySignature, status)),
      sanitize(details[1]),
      if companySignature != "" then Some(sanitize(companyDate)) else None,
      sanitize(ClientLineText(doc.clientSignature, status)),
      sanitize(details[0]),
      if Truthy(doc.clientSignature) && clientDate != "" then Some(sanitize(clientDate)) else None,
      sanitize(clock.now))
  }

  /** The "Signed:" date under the company line appears exactly when there
      is a company signature; the one under the client line only with a
      stored client signature, a fully_signed status and an update time;
      absent form data shows every placeholder. */
  lemma SignedLines(doc: PreviewDocument, status: string, companySignature: string,
                    sanitize: string -> string, clock: Clock)
    ensures var r := Render(doc, status, companySignature, sanitize, clock);
      && (r.companySigned.Some? <==> companySignature != "")
      && (r.clientSigned.Some? ==>
            Truthy(doc.clientSignature) && status == Name(FullySigned) && Truthy(doc.updatedAt))
      && (doc.formData.None? ==>
            r.details[0] == sanitize("[Employee Name]") && r.details[5] == sanitize("[Employee Email]"))
  {
  }

  /** The sanitiser is the only way a value reaches the page: when it never
      yields a `<`, neither does any shown value. */
  lemma AllSanitised(doc: PreviewDocument, status: string, companySignature: string,
                     sanitize: string -> string, clock: Clock)
    requires forall x :: '<' !in sanitize(x)
    ensures var r := Render(doc, status, companySignature, sanitize, clock);
      && '<' !in r.title && '<' !in r.documentId && '<' !in r.generated
      && '<' !in r.badgeColor && '<' !in r.badgeText
      && (forall i | 0 <= i < |r.details| :: '<' !in r.details[i])
      && '<' !in r.companyLine && '<' !in r.companyRepresentative
      && (r.companySigned.Some? ==> '<' !in r.companySigned.value)
      && '<' !in r.clientLine && '<' !in r.clientName
      && (r.clientSigned.Some? ==> '<' !in r.clientSigned.value)
      && '<' !in r.lastUpdated
  {
    var r := Render(doc, status, companySignature, sanitize, clock);
    assert '<' !in StatusColor(status) by {
      assert '<' !in Grey && '<' !in "#3b82f6" && '<' !in "#f59e0b" && '<' !in "#10b981";
    }
  }

  /** The badge replaces only the first `_`: the sanitiser receives
      "sent for_signature" for sent_for_signature. */
  lemma BadgeKeepsUnderscore(doc: PreviewDocument, status: string, companySignature: string,
                             sanitize: string -> string, clock: Clock)
    requires status == "sent_for_signature"
    ensures Render(doc, status, companySignature, sanitize, clock).badgeText
         == sanitize("sent" + " " + "for_signature")
  {
    StatusBadge.StatusPieces();
    StatusBadge.FirstUnderscoreReplaced();
  }
}
