/** The document status: four values stored as snake_case strings. */
module DocumentStatus {
  import opened Js

  datatype Status = Draft | CompanySigned | SentForSignature | FullySigned

  /** The string stored in the `status` column. */
  function Name(st: Status): string
  {
    match st
    case Draft => "draft"
    case CompanySigned => "company_signed"
    case SentForSignature => "sent_for_signature"
    case FullySigned => "fully_signed"
  }

  /** Reads a status string back; any other string is not a status. */
  function Parse(s: string): (r: Option<Status>)
    ensures r.Some? ==> Name(r.value) == s
  {
    if s == "draft" then Some(Draft)
    else if s == "company_signed" then Some(CompanySigned)
    else if s == "sent_for_signature" then Some(SentForSignature)
    else if s == "fully_signed" then Some(FullySigned)
    else None
  }

  /** One of the four stored status strings. */
  predicate Known(s: string)
  {
    Parse(s).Some?
  }

  /** Parsing a stored name gives the status back, so names are distinct. */
  lemma ParseName(st: Status)
    ensures Parse(Name(st)) == Some(st)
    ensures forall other: Status :: Name(other) == Name(st) ==> other == st
  {
  }
}
