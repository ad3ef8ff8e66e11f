/** Status label, badge variant and badge class shared by the dashboard and
    the document list. */
module StatusUtils {
  import opened Js
  import opened DocumentStatus

  /** The badge variants a status can select. */
  datatype Variant = Secondary | Default | Outline | Destructive

  /** Display label: a fixed label for the four statuses, otherwise every `_`
      becomes a space and each word is capitalised. */
  function StatusLabel(status: string): string
  {
    match Parse(status)
    case Some(Draft) => "Draft"
    case Some(CompanySigned) => "Company Signed"
    case Some(SentForSignature) => "Sent for Client Signature"
    case Some(FullySigned) => "Fully Signed"
    case None => CapitalizeWords(ReplaceAll(status, '_', ' '))
  }

  lemma KnownLabels()
    ensures StatusLabel(Name(Draft)) == "Draft"
    ensures StatusLabel(Name(CompanySigned)) == "Company Signed"
    ensures StatusLabel(Name(SentForSignature)) == "Sent for Client Signature"
    ensures StatusLabel(Name(FullySigned)) == "Fully Signed"
  {
  }

  /** For a status outside the four, the label keeps the length, has no `_`,
      upper-cases the status's character at every word start, and otherwise
      only turns `_` into a space. */
  lemma UnknownLabel(status: string)
    requires !Known(status)
    ensures var text := StatusLabel(status);
      && |text| == |status|
      && '_' !in text
      && (forall i :: 0 <= i < |text| && WordStart(text, i) ==>
            text[i] == UpperChar(status[i]) && !IsLowerAscii(text[i]))
      && (forall i :: 0 <= i < |text| && !WordStart(text, i) ==>
            text[i] == (if status[i] == '_' then ' ' else status[i]))
  {
    var spaced := ReplaceAll(status, '_', ' ');
    var text := CapitalizeWords(spaced);
    CapitalizeWordsShape(spaced);
    assert text == StatusLabel(status);
  }

  /** A worked example of the fallback label. */
  lemma UnknownLabelExample()
    ensures StatusLabel("pending_review") == "Pending" + " " + "Review"
  {
    assert Parse("pending_review") == None by {
      assert "pending_review"[0] == 'p' && |"pending_review"| == 14;
    }
    PendingReviewSpaced();
    PendingReviewCapitalised();
  }

  lemma PendingReviewSpaced()
    ensures ReplaceAll("pending_review", '_', ' ') == "pending" + " " + "review"
  {
    assert "pending_review" == "pending" + "_" + "review";
    ReplaceAllAppend("pending" + "_", "review", '_', ' ');
    ReplaceAllAppend("pending", "_", '_', ' ');
    ReplaceAllNone("pending", '_', ' ');
    ReplaceAllNone("review", '_', ' ');
  }

  lemma PendingReviewCapitalised()
    ensures CapitalizeWords("pending" + " " + "review") == "Pending" + " " + "Review"
  {
    CapitalizeSpace("pending", "review");
    WordCapitalised("pending", "Pending");
    WordCapitalised("review", "Review");
  }

  /** Badge variant for a status string; every string gets one. */
  function StatusVariant(status: string): Variant
  {
    match Parse(status)
    case Some(Draft) => Secondary
    case Some(CompanySigned) => Default
    case Some(SentForSignature) => Outline
    case Some(FullySigned) => Default
    case None => Secondary
  }

  /** The variant classes: company_signed and fully_signed share `default`,
      draft and every unknown status share `secondary`, only
      sent_for_signature is `outline`, and nothing is `destructive`. */
  lemma VariantClasses(status: string)
    ensures StatusVariant(status) == Default <==>
      status == Name(CompanySigned) || status == Name(FullySigned)
    ensures StatusVariant(status) == Outline <==> status == Name(SentForSignature)
    ensures StatusVariant(status) == Secondary <==> status == Name(Draft) || !Known(status)
    ensures StatusVariant(status) != Destructive
  {
  }

  /** Tailwind classes of the status badge. */
  function StatusBadgeClass(status: string): string
  {
    match Parse(status)
    case Some(Draft) => "bg-amber-100 text-amber-800 border-amber-200"
    case Some(CompanySigned) => "bg-blue-100 text-blue-800 border-blue-200"
    case Some(SentForSignature) => "bg-orange-100 text-orange-800 border-orange-200"
    case Some(FullySigned) => "bg-emerald-100 text-emerald-800 border-emerald-200"
    case None => GreyBadgeClass
  }

  const GreyBadgeClass := "bg-gray-100 text-gray-800 border-gray-200"

  /** The four statuses get pairwise different classes, none of them grey;
      every other status gets grey. */
  lemma BadgeClassesDistinct(a: Status, b: Status, other: string)
    requires !Known(other)
    ensures a != b ==> StatusBadgeClass(Name(a)) != StatusBadgeClass(Name(b))
    ensures StatusBadgeClass(Name(a)) != GreyBadgeClass
    ensures StatusBadgeClass(other) == GreyBadgeClass
  {
    ParseName(a);
    ParseName(b);
  }
}
