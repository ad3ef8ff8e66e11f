/** Testing-mode recipient allow-list. */
module EnvConfig {
  import opened Js

  /** The shipped value of the testing switch. */
  const IsTesting := false
  const AllowedEmail := "5221411201@gvpcdpgc.edu.in"
  const SenderEmail := "onboarding@resend.dev"

  /** Whether `email` may receive mail: everything when testing is off,
      otherwise only the allowed address, compared without letter case.  The
      switch is a parameter so that both settings can be stated. */
  function ValidateTestingEmail(testing: bool, email: string): bool
  {
    if !testing then true else Lower(email) == Lower(AllowedEmail)
  }

  /** Off: every address passes.  On: exactly the addresses equal to the
      allowed one up to letter case pass, the allowed address among them. */
  lemma ValidateTestingEmailCases(email: string)
    ensures ValidateTestingEmail(false, email)
    ensures ValidateTestingEmail(true, email) <==> Lower(email) == Lower(AllowedEmail)
    ensures ValidateTestingEmail(true, AllowedEmail)
    ensures ValidateTestingEmail(true, Upper(AllowedEmail))
  {
    var up := Upper(AllowedEmail);
    assert Lower(up) == Lower(AllowedEmail) by {
      forall i | 0 <= i < |up|
        ensures LowerChar(up[i]) == LowerChar(AllowedEmail[i])
      {
      }
    }
  }

  /** With the shipped setting every address passes. */
  lemma ShippedSettingAcceptsAll(email: string)
    ensures ValidateTestingEmail(IsTesting, email)
  {
  }

  /** The verdict does not change when the address is lower-cased first. */
  lemma ValidateIgnoresCase(testing: bool, email: string)
    ensures ValidateTestingEmail(testing, Lower(email)) == ValidateTestingEmail(testing, email)
  {
    LowerIdempotent(email);
  }

  /** The rejection message shown in testing mode, naming the allowed
      address (callers pass AllowedEmail). */
  function TestingMessage(allowed: string): string
  {
    "This is a testing environment. You can only send emails to your verified address: "
    + allowed + ". To send to others, verify a domain at Resend.com."
  }

  /** The message names the address it is given. */
  lemma TestingMessageNamesAddress(allowed: string)
    ensures Contains(TestingMessage(allowed), allowed)
  {
    var pre := "This is a testing environment. You can only send emails to your verified address: ";
    var post := ". To send to others, verify a domain at Resend.com.";
    assert TestingMessage(allowed) == pre + allowed + post;
    assert OccursAt(TestingMessage(allowed), allowed, |pre|);
  }
}
