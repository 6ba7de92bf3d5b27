/** The registration form (AnticcaReale-main/src/pages/RegisterPage.tsx): client-side
    password checks, the call to the auth context's `register`, and the message shown for
    each failure code. */
module Register {
  import opened Types

  /** The messages the form can show, by their key in the Turkish message table. */
  datatype AuthMessage = PasswordMismatch | WeakPassword | EmailInUse | InvalidEmail | RegisterError

  /** What `register` did: the account was created, or it threw with an error code. */
  datatype RegisterOutcome = Registered | Failed(code: string)

  /** `redirect`: the `redirect` query parameter, or the home page when it is absent or empty. */
  function RedirectTarget(param: Option<string>): (r: string)
    ensures r != ""
    ensures param.Some? && param.value != "" ==> r == param.value
    ensures param.None? || param.value == "" ==> r == "/"
  {
    if param.Some? && param.value != "" then param.value else "/"
  }

  /** The message for a failure code thrown by `register`. */
  function ErrorMessage(code: string): AuthMessage
  {
    if code == "auth/email-already-in-use" then EmailInUse
    else if code == "auth/invalid-email" then InvalidEmail
    else if code == "auth/weak-password" then WeakPassword
    else RegisterError
  }

  /** Each of the three known codes has its own message, every other code falls back to
      the generic one, and a password mismatch is never reported for a server failure. */
  lemma ErrorMessageContract(code: string)
    ensures ErrorMessage(code) == EmailInUse <==> code == "auth/email-already-in-use"
    ensures ErrorMessage(code) == InvalidEmail <==> code == "auth/invalid-email"
    ensures ErrorMessage(code) == WeakPassword <==> code == "auth/weak-password"
    ensures ErrorMessage(code) == RegisterError <==>
      code !in {"auth/email-already-in-use", "auth/invalid-email", "auth/weak-password"}
    ensures ErrorMessage(code) != PasswordMismatch
  {
  }

  /** The passwords the form accepts before calling `register`. */
  predicate PassesClientChecks(password: string, confirmPassword: string)
  {
    password == confirmPassword && |password| >= 6
  }

  /** The message `handleSubmit` leaves, `None` for none. */
  function SubmitError(password: string, confirmPassword: string, outcome: RegisterOutcome): Option<AuthMessage>
  {
    if password != confirmPassword then Some(PasswordMismatch)
    else if |password| < 6 then Some(WeakPassword)
    else if outcome.Failed? then Some(ErrorMessage(outcome.code))
    else None
  }

  /** The checks run in order: a mismatch is reported even when the password is also too
      short; a short password is reported whatever `register` would have said; and the form
      ends without a message exactly when the checks pass and `register` succeeds. */
  lemma SubmitErrorContract(password: string, confirmPassword: string, outcome: RegisterOutcome)
    ensures password != confirmPassword ==> SubmitError(password, confirmPassword, outcome) == Some(PasswordMismatch)
    ensures password == confirmPassword && |password| < 6 ==>
      SubmitError(password, confirmPassword, outcome) == Some(WeakPassword)
    ensures SubmitError(password, confirmPassword, outcome) == None <==>
      PassesClientChecks(password, confirmPassword) && outcome == Registered
    ensures SubmitError(password, confirmPassword, outcome) == Some(PasswordMismatch) <==> password != confirmPassword
  {
  }

  /** The arguments of one `register` call. */
  datatype Registration = Registration(email: string, password: string, name: string)

  /** The form's state that `handleSubmit` changes, with the calls it made. */
  class RegisterForm {
    var error: Option<AuthMessage>
    var loading: bool
    var registrations: seq<Registration>
    var navigatedTo: Option<string>

    constructor ()
      ensures error == None && !loading && registrations == [] && navigatedTo == None
    {
      error := None;
      loading := false;
      registrations := [];
      navigatedTo := None;
    }

    /** `handleSubmit`. The account service's answer is the parameter `outcome`. */
    method HandleSubmit(name: string, email: string, password: string, confirmPassword: string,
                        redirectParam: Option<string>, outcome: RegisterOutcome)
      modifies this
      ensures error == SubmitError(password, confirmPassword, outcome)
      ensures PassesClientChecks(password, confirmPassword) ==>
        registrations == old(registrations) + [Registration(email, password, name)] && !loading
      ensures !PassesClientChecks(password, confirmPassword) ==>
        registrations == old(registrations) && loading == old(loading)
      ensures PassesClientChecks(password, confirmPassword) && outcome == Registered ==>
        navigatedTo == Some(RedirectTarget(redirectParam))
      ensures !(PassesClientChecks(password, confirmPassword) && outcome == Registered) ==>
        navigatedTo == old(navigatedTo)
    {
      error := None;
      if password != confirmPassword {
        error := Some(PasswordMismatch);
        return;
      }
      if |password| < 6 {
        error := Some(WeakPassword);
        return;
      }
      loading := true;
      registrations := registrations + [Registration(email, password, name)];
      match outcome {
        case Registered =>
          navigatedTo := Some(RedirectTarget(redirectParam));
        case Failed(code) =>
          if code == "auth/email-already-in-use" {
            error := Some(EmailInUse);
          } else if code == "auth/invalid-email" {
            error := Some(InvalidEmail);
          } else if code == "auth/weak-password" {
            error := Some(WeakPassword);
          } else {
            error := Some(RegisterError);
          }
      }
      loading := false;
    }
  }
}
