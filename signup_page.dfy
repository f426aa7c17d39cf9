/**
 * The signup form's submit handler: three checks in a fixed order, then the
 * loading flag, which the simulated request clears again.
 */
module SignupPage {
  import opened Wrappers

  /** The shortest password the form accepts. */
  const MinPasswordLength: nat := 6

  /** The first check the form fails, as the text of its error toast; `None` when all pass. */
  function FormError(name: string, email: string, password: string, agreeToTerms: bool): (e: Option<string>)
    ensures e.None? <==> name != "" && email != "" && password != "" && agreeToTerms && |password| >= MinPasswordLength
    ensures (name == "" || email == "" || password == "") ==> e == Some("Please fill in all fields")
    ensures name != "" && email != "" && password != "" && !agreeToTerms ==> e == Some("Please agree to the Terms of Service")
    ensures name != "" && email != "" && password != "" && agreeToTerms && |password| < MinPasswordLength ==>
      e == Some("Password must be at least 6 characters")
  {
    if name == "" || email == "" || password == "" then Some("Please fill in all fields")
    else if !agreeToTerms then Some("Please agree to the Terms of Service")
    else if |password| < MinPasswordLength then Some("Password must be at least 6 characters")
    else None
  }

  /** A six-character password passes the length check and a five-character one does not. */
  lemma LengthBoundary(name: string, email: string, six: string, five: string)
    requires name != "" && email != "" && |six| == 6 && |five| == 5
    ensures FormError(name, email, six, true).None?
    ensures FormError(name, email, five, true) == Some("Password must be at least 6 characters")
  {
  }

  /** The terms check comes before the length check: a short password without agreement reports the terms. */
  lemma TermsBeforeLength(name: string, email: string, password: string)
    requires name != "" && email != "" && 0 < |password| < MinPasswordLength
    ensures FormError(name, email, password, false) == Some("Please agree to the Terms of Service")
  {
  }

  class SignupForm {
    var name: string
    var email: string
    var password: string
    var agreeToTerms: bool
    var isLoading: bool

    constructor ()
      ensures name == "" && email == "" && password == "" && !agreeToTerms && !isLoading
    {
      name, email, password := "", "", "";
      agreeToTerms, isLoading := false, false;
    }

    /** `handleSubmit`: an error toast, or the loading flag set. */
    method HandleSubmit() returns (error: Option<string>)
      modifies this`isLoading
      ensures error == FormError(name, email, password, agreeToTerms)
      ensures error.None? ==> isLoading
      ensures error.Some? ==> isLoading == old(isLoading)
    {
      error := FormError(name, email, password, agreeToTerms);
      if error.None? {
        isLoading := true;
      }
    }

    /** The timer callback of the simulated request. */
    method FinishSubmit()
      modifies this`isLoading
      ensures !isLoading
    {
      isLoading := false;
    }
  }
}
