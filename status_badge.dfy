/** The status badge of the document preview page. */
module StatusBadge {
  import opened Js
  import opened DocumentStatus
  import StatusUtils

  /** Badge variant chosen by the preview badge's own switch. */
  function BadgeVariant(status: string): StatusUtils.Variant
  {
    match Parse(status)
    case Some(Draft) => StatusUtils.Secondary
    case Some(CompanySigned) => StatusUtils.Default
    case Some(SentForSignature) => StatusUtils.Outline
    case Some(FullySigned) => StatusUtils.Default
    case None => StatusUtils.Secondary
  }

  /** The preview badge and the shared status utilities agree on every
      status string. */
  lemma BadgeVariantAgrees(status: string)
    ensures BadgeVariant(status) == StatusUtils.StatusVariant(status)
  {
  }

  /** Badge text as written: `replace('_', ' ')` turns only the FIRST `_`
      into a space, then every word start is capitalised. */
  function BadgeLabel(status: string): string
  {
    CapitalizeWords(ReplaceFirst(status, '_', ' '))
  }

  /** The badge text keeps the length, has exactly one `_` fewer than the
      status when the status has one, upper-cases the character at every word start and
      keeps every other character. */
  lemma BadgeLabelShape(status: string)
    ensures var text := BadgeLabel(status);
      && |text| == |status|
      && Count(text, '_') == (if '_' in status then Count(status, '_') - 1 else 0)
      && (forall i :: 0 <= i < |text| && WordStart(text, i) ==>
            text[i] == UpperChar(ReplaceFirst(status, '_', ' ')[i]) && !IsLowerAscii(text[i]))
      && (forall i :: 0 <= i < |text| && !WordStart(text, i) ==>
            text[i] == ReplaceFirst(status, '_', ' ')[i])
  {
    var spaced := ReplaceFirst(status, '_', ' ');
    var text := CapitalizeWords(spaced);
    CapitalizeWordsShape(spaced);
    CountSamePositions(text, spaced, '_');
    ReplaceFirstCount(status, '_', ' ');
  }

  /** The discrepancy: the badge for "sent_for_signature" still shows an
      underscore. */
  lemma BadgeLabelKeepsUnderscore()
    ensures BadgeLabel("sent_for_signature") == "Sent For_signature"
    ensures '_' in BadgeLabel("sent_for_signature")
  {
    StatusPieces();
    FirstUnderscoreReplaced();
    SpacedCapitalised();
    LabelPieces();
  }

  lemma StatusPieces()
    ensures "sent_for_signature" == "sent" + "_" + "for_signature"
  {
  }

  lemma LabelPieces()
    ensures "Sent" + " " + "For_signature" == "Sent For_signature"
    ensures '_' in "Sent For_signature"
  {
    assert "Sent For_signature"[8] == '_';
  }

  lemma FirstUnderscoreReplaced()
    ensures ReplaceFirst("sent" + "_" + "for_signature", '_', ' ') == "sent" + " " + "for_signature"
  {
    var status := "sent" + "_" + "for_signature";
    assert FirstIndex(status, '_') == 4 by {
      assert status[0] != '_' && status[1] != '_' && status[2] != '_' && status[3] != '_';
      assert status[4] == '_';
    }
  }

  lemma SpacedCapitalised()
    ensures CapitalizeWords("sent" + " " + "for_signature") == "Sent" + " " + "For_signature"
  {
    CapitalizeSpace("sent", "for_signature");
    WordCapitalised("sent", "Sent");
    TailCapitalised();
  }

  lemma TailCapitalised()
    ensures CapitalizeWords("for_signature") == "For_signature"
  {
    WordCapitalised("for_signature", "For_signature");
  }

  /** The evidently intended badge text: every `_` becomes a space, as the
      shared status label and the signing page already do. */
  function BadgeLabelCorrected(status: string): string
  {
    CapitalizeWords(ReplaceAll(status, '_', ' '))
  }

  /** The corrected text has no `_`, keeps the length, and for a status
      outside the four coincides with the shared status label. */
  lemma BadgeLabelCorrectedShape(status: string)
    ensures '_' !in BadgeLabelCorrected(status)
    ensures |BadgeLabelCorrected(status)| == |status|
    ensures !Known(status) ==> BadgeLabelCorrected(status) == StatusUtils.StatusLabel(status)
  {
    CapitalizeWordsShape(ReplaceAll(status, '_', ' '));
  }

  /** The corrected badge for "sent_for_signature" reads
      "Sent For Signature". */
  lemma BadgeLabelCorrectedExample()
    ensures BadgeLabelCorrected("sent_for_signature") == "Sent" + " " + ("For" + " " + "Signature")
  {
    CorrectedSpaced();
    CorrectedCapitalised();
  }

  lemma CorrectedSpaced()
    ensures ReplaceAll("sent_for_signature", '_', ' ') == "sent" + " " + ("for" + " " + "signature")
  {
    assert "sent_for_signature" == "sent" + "_" + "for" + "_" + "signature";
    var x := "sent" + "_" + "for";
    ReplaceAllAppend(x + "_", "signature", '_', ' ');
    ReplaceAllAppend(x, "_", '_', ' ');
    ReplaceAllAppend("sent" + "_", "for", '_', ' ');
    ReplaceAllAppend("sent", "_", '_', ' ');
    ReplaceAllNone("sent", '_', ' ');
    ReplaceAllNone("for", '_', ' ');
    ReplaceAllNone("signature", '_', ' ');
  }

  lemma CorrectedCapitalised()
    ensures CapitalizeWords("sent" + " " + ("for" + " " + "signature")) == "Sent" + " " + ("For" + " " + "Signature")
  {
    CorrectedTailCapitalised();
    CapitalizeSpace("sent", "for" + " " + "signature");
    WordCapitalised("sent", "Sent");
  }

  lemma CorrectedTailCapitalised()
    ensures CapitalizeWords("for" + " " + "signature") == "For" + " " + "Signature"
  {
    CapitalizeSpace("for", "signature");
    WordCapitalised("for", "For");
    WordCapitalised("signature", "Signature");
  }
}
