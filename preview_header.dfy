/** Header of the document preview page: status description and the
    title/subtitle fallbacks. */
module PreviewHeader {
  import opened Js
  import opened DocumentStatus

  /** One sentence per status; anything else is still being processed. */
  function StatusDescription(status: string): string
  {
    match Parse(status)
    case Some(Draft) => "Ready for company signature"
    case Some(CompanySigned) => "Ready to send for client signature"
    case Some(SentForSignature) => "Waiting for client to sign"
    case Some(FullySigned) => "Document is complete and ready for download"
    case None => "Processing document"
  }

  const Processing := "Processing document"

  /** Exactly the statuses outside the four are described as processing, and
      the four descriptions are pairwise different. */
  lemma StatusDescriptionCases(status: string, a: Status, b: Status)
    ensures StatusDescription(status) == Processing <==> !Known(status)
    ensures a != b ==> StatusDescription(Name(a)) != StatusDescription(Name(b))
  {
    ParseName(a);
    ParseName(b);
  }

  /** `template.name || template_name || 'Document'`. */
  function TemplateName(templateName: Option<string>, storedName: Option<string>): (r: string)
    ensures r != ""
    ensures Truthy(templateName) ==> r == templateName.value
    ensures !Truthy(templateName) && Truthy(storedName) ==> r == storedName.value
    ensures !Truthy(templateName) && !Truthy(storedName) ==> r == "Document"
  {
    Or(templateName, Or(storedName, "Document"))
  }

  /** `formData.employeeName || form_data.employeeName || ''`. */
  function EmployeeName(fromForm: Option<string>, fromRow: Option<string>): (r: string)
    ensures Truthy(fromForm) ==> r == fromForm.value
    ensures !Truthy(fromForm) && Truthy(fromRow) ==> r == fromRow.value
    ensures !Truthy(fromForm) && !Truthy(fromRow) ==> r == ""
  {
    Or(fromForm, Or(fromRow, ""))
  }

  /** Subtitle under the title. */
  function Subtitle(employeeName: string): string
  {
    if employeeName != "" then "for " + employeeName else "Document Preview"
  }

  /** The subtitle names the employee exactly when there is a name. */
  lemma SubtitleCases(employeeName: string)
    ensures Subtitle(employeeName) == "for " + employeeName <==> employeeName != ""
    ensures Subtitle(employeeName) == "Document Preview" <==> employeeName == ""
  {
    if employeeName != "" {
      assert ("for " + employeeName)[..4] == "for ";
      assert "Document Preview"[..4] == "Docu";
    } else {
      assert |"for " + employeeName| == 4;
    }
  }
}
