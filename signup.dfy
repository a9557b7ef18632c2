/**
 * The sign-up page (app/signup/page.tsx): the checks run on the form before
 * the account is requested, and the loading flag around the request.
 */
module SignUp {

  import opened Types
  import opened Navigation

  datatype SignUpForm = SignUpForm(email: string, password: string, confirmPassword: string, fullName: string)

  /** The minimum password length (line 34). */
  const MinPasswordLength := 6

  /** The three messages of the check chain, as tags. */
  datatype FormError = FieldsRequired | PasswordTooShort | PasswordMismatch

  /** The check chain of lines 29-42: the first failing check is the one reported. */
  function Validate(f: SignUpForm): (e: Option<FormError>)
    ensures e == None <==>
      f.email != "" && f.password != "" && f.fullName != ""
      && |f.password| >= MinPasswordLength && f.password == f.confirmPassword
    ensures e == Some(FieldsRequired) <==> f.email == "" || f.password == "" || f.fullName == ""
    ensures e == Some(PasswordTooShort) <==>
      f.email != "" && f.password != "" && f.fullName != "" && |f.password| < MinPasswordLength
    ensures e == Some(PasswordMismatch) <==>
      f.email != "" && f.password != "" && f.fullName != ""
      && |f.password| >= MinPasswordLength && f.password != f.confirmPassword
  {
    if f.email == "" || f.password == "" || f.fullName == "" then Some(FieldsRequired)
    else if |f.password| < MinPasswordLength then Some(PasswordTooShort)
    else if f.password != f.confirmPassword then Some(PasswordMismatch)
    else None
  }

  /** A password of exactly six characters passes the length check. */
  lemma SixCharactersEnough(f: SignUpForm)
    requires f.email != "" && f.fullName != "" && |f.password| == MinPasswordLength
    ensures Validate(f) != Some(FieldsRequired) && Validate(f) != Some(PasswordTooShort)
    ensures Validate(f) == None <==> f.password == f.confirmPassword
  {
  }

  /** The confirmation only matters once the other checks pass: a short password is reported as such even when the two differ. */
  lemma LengthReportedBeforeMismatch(f: SignUpForm)
    requires f.email != "" && f.fullName != "" && 0 < |f.password| < MinPasswordLength
    ensures Validate(f) == Some(PasswordTooShort)
    ensures Validate(f.(confirmPassword := f.confirmPassword + "x")) == Some(PasswordTooShort)
  {
  }

  /** What the sign-up call reported: success, or an error (with its message, when it is an `Error`). */
  datatype SignUpReply = Registered | Refused(message: Option<string>)

  /** What the page tells the visitor. */
  datatype Notice = NoNotice | Invalid(error: FormError) | Failed(message: string) | Succeeded

  /** The page's state. */
  class Page {
    var form: SignUpForm
    var loading: bool
    var notice: Notice
    /** The navigation the success path schedules (lines 58-60). */
    var scheduled: Option<Redirect>

    constructor()
      ensures form == SignUpForm("", "", "", "") && !loading && notice == NoNotice && scheduled == None
    {
      form := SignUpForm("", "", "", "");
      loading := false;
      notice := NoNotice;
      scheduled := None;
    }

    /**
     * `handleSubmit` up to the sign-up call (lines 24-47). It returns whether
     * the call is made; the `finally` clause clears the flag on the early
     * returns.
     */
    method StartSubmit() returns (calls: bool)
      modifies this
      ensures calls <==> Validate(form) == None
      ensures calls ==> loading && notice == old(notice)
      ensures !calls ==> !loading && notice == Invalid(Validate(form).value)
      ensures form == old(form) && scheduled == old(scheduled)
    {
      var e := Validate(form);
      if e.Some? {
        notice := Invalid(e.value);
        loading := false;
        return false;
      }
      loading := true;
      calls := true;
    }

    /** `handleSubmit` after the sign-up call returns or throws (lines 49-72). */
    method FinishSubmit(reply: SignUpReply)
      modifies this
      ensures !loading
      ensures reply == Registered ==> notice == Succeeded && scheduled == Some(ToLogin(None))
      ensures reply.Refused? ==>
        scheduled == old(scheduled)
        && notice == Failed(if reply.message.Some? then reply.message.value else "Error al crear la cuenta")
      ensures form == old(form)
    {
      if reply.Refused? {
        notice := Failed(if reply.message.Some? then reply.message.value else "Error al crear la cuenta");
      } else {
        notice := Succeeded;
        scheduled := Some(ToLogin(None));
      }
      loading := false;
    }

    /**
     * The whole handler: the sign-up call is made only for a valid form, the
     * notice and the schedule follow its reply, and the flag is down afterwards.
     */
    method Submit(reply: SignUpReply) returns (called: bool)
      modifies this
      ensures called <==> Validate(old(form)) == None
      ensures !loading && form == old(form)
      ensures called && reply == Registered ==> notice == Succeeded && scheduled == Some(ToLogin(None))
      ensures called && reply.Refused? ==>
        scheduled == old(scheduled)
        && notice == Failed(if reply.message.Some? then reply.message.value else "Error al crear la cuenta")
      ensures !called ==> scheduled == old(scheduled) && notice == Invalid(Validate(form).value)
    {
      called := StartSubmit();
      if called {
        FinishSubmit(reply);
      }
    }
  }
}
