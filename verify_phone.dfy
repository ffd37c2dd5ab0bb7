/** The phone-verification form: a signed-in user and a code of exactly six
    characters are required; verification itself is simulated. */
module VerifyPhone {
  import opened Wrappers

  const NoUser := "No user found"
  const BadCode := "Please enter a 6-digit verification code"

  /** The error a submission raises, checked in order: the user first, then
      the code's length. No check is made on the characters of the code. */
  function SubmissionError(hasUser: bool, code: string): (r: Option<string>)
    ensures !hasUser ==> r == Some(NoUser)
    ensures hasUser ==> (r.None? <==> |code| == 6)
    ensures hasUser && |code| != 6 ==> r == Some(BadCode)
  {
    if !hasUser then Some(NoUser)
    else if |code| != 6 then Some(BadCode)
    else None
  }

  /** Any six characters pass, digits or not; shorter or longer codes fail. */
  lemma AnySixCharactersAccepted()
    ensures SubmissionError(true, "abcdef").None?
    ensures SubmissionError(true, "123456").None?
    ensures SubmissionError(true, "12345") == Some(BadCode)
    ensures SubmissionError(true, "1234567") == Some(BadCode)
    ensures SubmissionError(false, "123456") == Some(NoUser)
  {
  }

  class VerifyPhoneForm {
    var code: string
    var error: string
    var loading: bool

    constructor ()
      ensures code == "" && error == "" && !loading
    {
      code := "";
      error := "";
      loading := false;
    }

    /** `handleSubmit`: the error is cleared and loading set; a failed check
        puts its message in `error`; loading is false again at the end
        whatever the outcome. The code itself is left as typed. */
    method HandleSubmit(hasUser: bool)
      modifies this
      ensures error == (match SubmissionError(hasUser, old(code)) case Some(m) => m case None => "")
      ensures !loading && code == old(code)
    {
      error := "";
      loading := true;
      var failure := SubmissionError(hasUser, code);
      if failure.Some? {
        error := failure.value;
      }
      loading := false;
    }
  }
}
