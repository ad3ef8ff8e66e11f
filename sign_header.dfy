/** Header of the public signing page. */
module SignHeader {
  import opened Js
  import opened DocumentStatus
  import StatusUtils

  /** Badge variant of the signing page header. */
  function HeaderVariant(status: string): StatusUtils.Variant
  {
    match Parse(status)
    case Some(Draft) => StatusUtils.Secondary
    case Some(CompanySigned) => StatusUtils.Default
    case Some(SentForSignature) => StatusUtils.Outline
    case Some(FullySigned) => StatusUtils.Default
    case None => StatusUtils.Secondary
  }

  /** Every status string gets a variant, unknown ones `secondary`, and the
      signing page agrees with the shared utilities. */
  lemma HeaderVariantAgrees(status: string)
    ensures HeaderVariant(status) == StatusUtils.StatusVariant(status)
    ensures !Known(status) ==> HeaderVariant(status) == StatusUtils.Secondary
  {
  }

  /** `status.replace(/_/g, ' ').toUpperCase()`. */
  function UpperStatusLabel(status: string): string
  {
    Upper(ReplaceAll(status, '_', ' '))
  }

  /** The label has the status's length, no `_`, no lower-case ASCII letter,
      and differs from the status only by `_` to space and letter case. */
  lemma UpperStatusLabelShape(status: string)
    ensures var text := UpperStatusLabel(status);
      && |text| == |status|
      && '_' !in text
      && (forall i :: 0 <= i < |text| ==> !IsLowerAscii(text[i]))
      && Lower(text) == Lower(ReplaceAll(status, '_', ' '))
  {
    var spaced := ReplaceAll(status, '_', ' ');
    var text := Upper(spaced);
    forall i | 0 <= i < |text|
      ensures text[i] != '_'
      ensures LowerChar(text[i]) == LowerChar(spaced[i])
    {
      UpperKeepsWordChar(spaced[i]);
    }
  }

  /** `template_name || 'Legal Document'`. */
  function Title(storedName: Option<string>): (r: string)
    ensures r != ""
    ensures Truthy(storedName) ==> r == storedName.value
    ensures !Truthy(storedName) ==> r == "Legal Document"
  {
    Or(storedName, "Legal Document")
  }
}
