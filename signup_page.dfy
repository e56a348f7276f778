/**
 * The signup form (src/pages/Signup.jsx): an ordered validation chain that runs
 * before any request (password confirmation first, then the required fields), the
 * request it sends, and the message the form shows for each way the request settles.
 */
module SignupPage {
  import opened Js
  import AuthApi

  const MismatchError: string := "비밀번호가 일치하지 않습니다."
  const MissingFieldError: string := "모든 필드를 입력해주세요."
  const RejectedFallback: string := "회원가입에 실패했습니다."
  const ThrownFallback: string := "회원가입 중 오류가 발생했습니다."

  /** The inline warning under the confirmation field: shown once something is typed there and it differs. */
  function IsPasswordMismatch(password: string, confirmPassword: string): (r: bool)
    ensures r ==> password != confirmPassword
    ensures confirmPassword == "" ==> !r
    ensures confirmPassword != "" && password != confirmPassword ==> r
  {
    confirmPassword != "" && password != confirmPassword
  }

  /** The outcome of the checks made before any request. */
  datatype Validation = Accepted(body: AuthApi.SignupData) | Rejected(message: string)

  /** The ordered validation chain: a password mismatch is reported before empty fields. */
  function Validate(name: string, id: string, password: string, confirmPassword: string): (r: Validation)
    ensures password != confirmPassword ==> r == Rejected(MismatchError)
    ensures password == confirmPassword && (name == "" || id == "" || password == "") ==>
      r == Rejected(MissingFieldError)
    ensures r.Accepted? <==> password == confirmPassword && name != "" && id != "" && password != ""
    ensures r.Accepted? ==> r.body == AuthApi.SignupData(id, password, name)
  {
    if password != confirmPassword then Rejected(MismatchError)
    else if name == "" || id == "" || password == "" then Rejected(MissingFieldError)
    else Accepted(AuthApi.SignupData(id, password, name))
  }

  /** The warning under the field is sound but not complete: whenever it shows, submitting is refused
      with the mismatch error; an empty confirmation hides it, yet submitting is still refused for the mismatch. */
  lemma MismatchWarning(name: string, id: string, password: string, confirmPassword: string)
    ensures IsPasswordMismatch(password, confirmPassword) ==>
      Validate(name, id, password, confirmPassword) == Rejected(MismatchError)
    ensures confirmPassword == "" && password != "" ==>
      !IsPasswordMismatch(password, confirmPassword) &&
      Validate(name, id, password, confirmPassword) == Rejected(MismatchError)
  {
  }

  /** The message shown once the request settles; `None` when signup succeeded (the form then navigates away). */
  function FailureText<D>(outcome: Outcome<Envelope<D>>): (r: Option<string>)
    ensures r.None? <==> outcome.Returned? && outcome.value.success
    ensures outcome.Returned? && !outcome.value.success ==> r == Some(OrElse(outcome.value.error, RejectedFallback))
    ensures outcome.Threw? ==> r == Some(if outcome.error.message != "" then outcome.error.message else ThrownFallback)
    ensures r.Some? ==> r.value != ""
  {
    match outcome
    case Returned(res) => if res.success then None else Some(OrElse(res.error, RejectedFallback))
    case Threw(e) => Some(if e.message != "" then e.message else ThrownFallback)
  }

  /** A server refusal reaches the form verbatim: a non-OK reply with a non-empty `error` shows that text,
      and one without shows the client's own fallback; a failed fetch shows the browser's message. */
  lemma ServerRefusalShown<D>(body: Body<Envelope<D>>, e: JsError)
    ensures Truthy(ErrorField(body)) ==>
      FailureText(AuthApi.SignupOutcome(Response(false, body))) == ErrorField(body)
    ensures !Truthy(ErrorField(body)) ==>
      FailureText(AuthApi.SignupOutcome(Response(false, body))) == Some(AuthApi.SignupFallback)
    ensures e.message != "" ==>
      FailureText(AuthApi.SignupOutcome<D>(NetworkError(e))) == Some(e.message)
  {
  }

  class SignupForm {
    var name: string
    var id: string
    var password: string
    var confirmPassword: string
    var error: string
    var isLoading: bool

    constructor ()
      ensures name == "" && id == "" && password == "" && confirmPassword == ""
      ensures error == "" && !isLoading
    {
      name, id, password, confirmPassword, error, isLoading := "", "", "", "", "", false;
    }

    /** The fields as typed. */
    method Edit(newName: string, newId: string, newPassword: string, newConfirm: string)
      modifies this`name, this`id, this`password, this`confirmPassword
      ensures name == newName && id == newId && password == newPassword && confirmPassword == newConfirm
    {
      name, id, password, confirmPassword := newName, newId, newPassword, newConfirm;
    }

    /** The first half of `handleSubmit`: clear the error, run the checks, and either stop with a
        message or send the request and mark the form as loading. */
    method Submit() returns (request: Option<AuthApi.SignupData>)
      modifies this`error, this`isLoading
      ensures Validate(name, id, password, confirmPassword).Rejected? ==>
        && request == None
        && error == Validate(name, id, password, confirmPassword).message
        && isLoading == old(isLoading)
      ensures Validate(name, id, password, confirmPassword).Accepted? ==>
        && request == Some(Validate(name, id, password, confirmPassword).body)
        && error == ""
        && isLoading
    {
      error := "";
      var v := Validate(name, id, password, confirmPassword);
      if v.Rejected? {
        error := v.message;
        request := None;
        return;
      }
      isLoading := true;
      request := Some(v.body);
    }

    /** The second half of `handleSubmit`, once `signup` settles: success navigates away leaving the
        error as it was; failure shows its message; loading ends in every case. */
    method Finish<D>(outcome: Outcome<Envelope<D>>) returns (navigated: bool)
      modifies this`error, this`isLoading
      ensures !isLoading
      ensures navigated <==> outcome.Returned? && outcome.value.success
      ensures FailureText(outcome).Some? ==> error == FailureText(outcome).value
      ensures FailureText(outcome).None? ==> error == old(error)
    {
      var failure := FailureText(outcome);
      navigated := failure.None?;
      if failure.Some? {
        error := failure.value;
      }
      isLoading := false;
    }
  }

  /** A full submission from an idle form (the submit button is disabled while loading): the request
      is sent only when the checks pass, the form ends not loading, and it navigates away, showing no
      error, exactly when the signup call returned a successful envelope. */
  method SubmitAndSettle<D>(form: SignupForm, reply: Fetch<Envelope<D>>)
    returns (request: Option<AuthApi.SignupData>, navigated: bool)
    requires !form.isLoading
    modifies form`error, form`isLoading
    ensures form.name == old(form.name) && form.id == old(form.id)
    ensures form.password == old(form.password) && form.confirmPassword == old(form.confirmPassword)
    ensures request.Some? <==> Validate(old(form.name), old(form.id), old(form.password), old(form.confirmPassword)).Accepted?
    ensures !form.isLoading
    ensures request.None? ==>
      && !navigated
      && form.error == Validate(old(form.name), old(form.id), old(form.password), old(form.confirmPassword)).message
    ensures request.Some? ==>
      (navigated <==> AuthApi.SignupOutcome(reply).Returned? && AuthApi.SignupOutcome(reply).value.success)
    ensures request.Some? ==> (form.error == "" <==> navigated)
  {
    request := form.Submit();
    navigated := false;
    if request.Some? {
      navigated := form.Finish(AuthApi.SignupOutcome(reply));
    }
  }
}
