// The host sign-in page of src/app/login/page.tsx: the table from sign-in
// error codes to the message shown, and the page's submit handler with its
// `error` and `isLoading` state.

module LoginPage {
  import opened Wrappers
  import opened Types

  const InvalidCredentialsMessage := "Invalid email or password. Please try again."
  const InvalidEmailMessage := "Please enter a valid email address."
  const UnexpectedMessage := "An unexpected error occurred during sign-in."
  const UnknownMessage := "An unknown error occurred. Please try again."

  /** The codes that mean the credentials were wrong. */
  predicate IsCredentialCode(code: string) {
    code == "auth/user-not-found" || code == "auth/wrong-password" || code == "auth/invalid-credential"
  }

  /** The message for a sign-in error's code; an absent or empty code is
      falsy and keeps the unknown-error message. */
  function ErrorMessage(code: Option<string>): (msg: string)
    ensures msg == InvalidCredentialsMessage <==> code.Some? && IsCredentialCode(code.value)
    ensures msg == InvalidEmailMessage <==> code == Some("auth/invalid-email")
    ensures msg == UnexpectedMessage <==> code.Some? && code.value != "" && !IsCredentialCode(code.value) && code.value != "auth/invalid-email"
    ensures msg == UnknownMessage <==> code.None? || code.value == ""
  {
    if code.Some? && code.value != "" then
      if IsCredentialCode(code.value) then InvalidCredentialsMessage
      else if code.value == "auth/invalid-email" then InvalidEmailMessage
      else UnexpectedMessage
    else UnknownMessage
  }

  /** Two codes give the same message exactly when they fall in the same one
      of the four classes. */
  lemma SameMessageSameClass(a: Option<string>, b: Option<string>)
    requires ErrorMessage(a) == ErrorMessage(b)
    ensures (a.Some? && IsCredentialCode(a.value)) == (b.Some? && IsCredentialCode(b.value))
    ensures (a == Some("auth/invalid-email")) == (b == Some("auth/invalid-email"))
    ensures (a.None? || a.value == "") == (b.None? || b.value == "")
  {
  }

  /** What `logInWithEmail` did: signed in, or threw an error with this code. */
  datatype SignInOutcome = SignedIn | Failed(code: Option<string>)

  datatype Credentials = Credentials(email: string, password: string)

  class Page {
    var email: string
    var password: string
    var isLoading: bool
    /** The error shown in the alert; None is null. */
    var error: Option<string>
    /** Every sign-in attempt, with the credentials it was made with. */
    var attempts: seq<Credentials>
    var toasts: seq<Toast>
    /** The paths pushed onto the router, oldest first. */
    var pushed: seq<string>

    /** The page as first rendered: the `error` query parameter is shown. */
    constructor (initialError: Option<string>)
      ensures email == "" && password == "" && !isLoading
      ensures error == initialError
      ensures attempts == [] && toasts == [] && pushed == []
    {
      email, password, isLoading := "", "", false;
      error := initialError;
      attempts, toasts, pushed := [], [], [];
    }

    /** The submit button is disabled while signing in or while either field is empty. */
    predicate SubmitDisabled()
      reads this
    {
      isLoading || email == "" || password == ""
    }

    /** `handleSubmit`: one sign-in attempt with the current credentials. The
        previous error is cleared; a success toasts and goes to the
        dashboard; a failure toasts and shows the mapped message. Loading
        ends in both cases. */
    method HandleSubmit(outcome: SignInOutcome)
      modifies this
      ensures email == old(email) && password == old(password)
      ensures !isLoading
      ensures attempts == old(attempts) + [Credentials(email, password)]
      ensures outcome.SignedIn? ==> error.None?
      ensures outcome.SignedIn? ==> pushed == old(pushed) + ["/dashboard"]
      ensures outcome.SignedIn? ==> toasts == old(toasts) + [Toast("Sign-in Successful", "You're now logged in.", false)]
      ensures outcome.Failed? ==> error == Some(ErrorMessage(outcome.code))
      ensures outcome.Failed? ==> pushed == old(pushed)
      ensures outcome.Failed? ==> toasts == old(toasts) + [Toast("Sign-in Failed", ErrorMessage(outcome.code), true)]
      ensures SubmitDisabled() <==> email == "" || password == ""
    {
      isLoading := true;
      error := None;
      attempts := attempts + [Credentials(email, password)];
      match outcome {
        case SignedIn =>
          toasts := toasts + [Toast("Sign-in Successful", "You're now logged in.", false)];
          pushed := pushed + ["/dashboard"];
        case Failed(code) =>
          var errorMessage := ErrorMessage(code);
          toasts := toasts + [Toast("Sign-in Failed", errorMessage, true)];
          error := Some(errorMessage);
      }
      isLoading := false;
    }
  }
}
