/** The password change in the security settings: three checks in a fixed
    order, then one update call whose outcome is an input. */
module SecuritySettings {

  /** Why a password change is refused, or that it may go ahead. */
  datatype Verdict = Missing | Mismatch | TooShort | Accepted

  const MinLength := 8

  /** The checks in the handler's order: a missing field, then a mismatch,
      then a new password shorter than eight characters. */
  function Check(newPassword: string, confirmPassword: string): (v: Verdict)
    ensures v == Accepted <==>
      newPassword != "" && confirmPassword != "" && newPassword == confirmPassword && |newPassword| >= MinLength
    ensures v == Missing <==> newPassword == "" || confirmPassword == ""
    ensures v == Mismatch <==> newPassword != "" && confirmPassword != "" && newPassword != confirmPassword
    ensures v == TooShort <==>
      newPassword != "" && newPassword == confirmPassword && |newPassword| < MinLength
  {
    if newPassword == "" || confirmPassword == "" then Missing
    else if newPassword != confirmPassword then Mismatch
    else if |newPassword| < MinLength then TooShort
    else Accepted
  }

  /** The order decides: an empty field is reported even when the two differ,
      and a mismatch even when the new password is also short. */
  lemma CheckOrder(a: string, b: string)
    ensures a == "" && b != "" ==> Check(a, b) == Missing
    ensures a != "" && b != "" && a != b && |a| < MinLength ==> Check(a, b) == Mismatch
  {
  }

  /** The settings page's password state. */
  class Security {
    var isLoading: bool
    var newPassword: string
    var confirmPassword: string
    /** The passwords sent to the account update. */
    var updates: seq<string>

    constructor ()
      ensures !isLoading && newPassword == "" && confirmPassword == "" && updates == []
    {
      isLoading := false;
      newPassword := "";
      confirmPassword := "";
      updates := [];
    }

    /** `handlePasswordUpdate`: a refused change leaves everything as it was;
        an accepted one sends the new password once, clears both fields only
        when the update succeeded, and ends with loading off. */
    method HandlePasswordUpdate(succeeded: bool) returns (v: Verdict)
      modifies this
      ensures v == Check(old(newPassword), old(confirmPassword))
      ensures v != Accepted ==>
        updates == old(updates) && isLoading == old(isLoading)
        && newPassword == old(newPassword) && confirmPassword == old(confirmPassword)
      ensures v == Accepted ==>
        && updates == old(updates) + [old(newPassword)]
        && !isLoading
        && (succeeded ==> newPassword == "" && confirmPassword == "")
        && (!succeeded ==> newPassword == old(newPassword) && confirmPassword == old(confirmPassword))
    {
      if newPassword == "" || confirmPassword == "" {
        return Missing;
      }
      if newPassword != confirmPassword {
        return Mismatch;
      }
      if |newPassword| < MinLength {
        return TooShort;
      }
      isLoading := true;
      updates := updates + [newPassword];
      if succeeded {
        newPassword := "";
        confirmPassword := "";
      }
      isLoading := false;
      v := Accepted;
    }

    /** The two inputs. */
    method SetPasswords(newText: string, confirmText: string)
      modifies this`newPassword, this`confirmPassword
      ensures newPassword == newText && confirmPassword == confirmText
    {
      newPassword := newText;
      confirmPassword := confirmText;
    }
  }
}
