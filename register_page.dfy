/**
 * The registration page: two password checks in front of a single
 * `register` dispatch, and the toast the settled action shows.
 */
module RegisterPage {
  import opened Common
  import opened Entities
  import opened AuthSlice

  const MismatchMessage: string := "Les mots de passe ne correspondent pas"
  const TooShortMessage: string := "Le mot de passe doit contenir au moins 6 caractères"
  const MinPasswordLength: nat := 6
  const HomeRoute: string := "/"

  /** The form's fields, by input name. */
  type RegisterForm = map<string, string>

  /** The form the page starts from: every field empty. */
  const InitialForm: RegisterForm :=
    map["username" := "", "email" := "", "password" := "", "confirmPassword" := "",
        "firstName" := "", "lastName" := ""]

  /** A form reachable from the initial one: it still has all six fields. */
  predicate HasAllFields(form: RegisterForm)
  {
    InitialForm.Keys <= form.Keys
  }

  /** `handleChange`: sets the edited input's field, keeping the others. */
  function HandleChange(form: RegisterForm, name: string, value: string): (f: RegisterForm)
    ensures f.Keys == form.Keys + {name} && f[name] == value
    ensures forall k :: k in form && k != name ==> f[k] == form[k]
    ensures HasAllFields(form) ==> HasAllFields(f)
  {
    form[name := value]
  }

  /** The data dispatched: the form without `confirmPassword`. */
  function Payload(form: RegisterForm): (p: RegisterForm)
    ensures "confirmPassword" !in p
    ensures p.Keys == form.Keys - {"confirmPassword"}
    ensures forall k :: k in p ==> p[k] == form[k]
  {
    form - {"confirmPassword"}
  }

  /** The validation toast, or None when the form may be sent. */
  function Check(form: RegisterForm): (m: Option<string>)
    requires HasAllFields(form)
    ensures form["password"] != form["confirmPassword"] <==> m == Some(MismatchMessage)
    ensures m == Some(TooShortMessage) <==>
      form["password"] == form["confirmPassword"] && |form["password"]| < MinPasswordLength
    ensures m.None? <==>
      form["password"] == form["confirmPassword"] && |form["password"]| >= MinPasswordLength
  {
    if form["password"] != form["confirmPassword"] then Some(MismatchMessage)
    else if |form["password"]| < MinPasswordLength then Some(TooShortMessage)
    else None
  }

  /** How a submission ends. */
  datatype SubmitResult =
    | Refused(message: string)         // a validation toast; nothing dispatched
    | Registered(user: UserFields)     // a success toast and a move to the home page
    | RegisterError(message: string)   // the rejection's toast

  /** The toast of a rejected registration: the payload when it is a string, else a generic message. */
  function RejectionToast(payload: ErrorPayload): (m: string)
    ensures payload.Text? ==> m == payload.text
    ensures !payload.Text? ==> m == RegisterFailedMessage
  {
    match payload
    case Text(t) => t
    case _ => RegisterFailedMessage
  }

  /** `handleSubmit`, with the server's answer to `register` as an input. */
  function Submit(form: RegisterForm, response: Outcome<Option<AuthBody>>): (r: SubmitResult)
    requires HasAllFields(form)
    ensures Check(form).Some? <==> r.Refused?
    ensures Check(form).Some? ==> r == Refused(Check(form).value)
    ensures r.Registered? <==> Check(form).None? && Accepted(response)
    ensures r.Registered? ==> r.user == CleanUser(response.body.value.user.value)
  {
    match Check(form)
    case Some(m) => Refused(m)
    case None =>
      match SignInResult(response, RegisterFailedMessage)
      case Ok(u) => Registered(u)
      case Err(e) => RegisterError(RejectionToast(e))
  }

  /** Where the page goes after a submission. */
  function Route(r: SubmitResult): (route: Option<string>)
    ensures route.Some? <==> r.Registered?
    ensures route.Some? ==> route.value == HomeRoute
  {
    if r.Registered? then Some(HomeRoute) else None
  }

  /**
   * Mismatched passwords are reported even when the password is also too
   * short: the equality check comes first.
   */
  lemma MismatchBeforeLength(form: RegisterForm, response: Outcome<Option<AuthBody>>)
    requires HasAllFields(form)
    requires form["password"] != form["confirmPassword"]
    requires |form["password"]| < MinPasswordLength
    ensures Submit(form, response) == Refused(MismatchMessage)
    ensures Route(Submit(form, response)).None?
  {
  }

  /**
   * A registration can only be sent with matching passwords of at least
   * six characters, and what is sent holds every field but the confirmation.
   */
  lemma SentOnlyWhenValid(form: RegisterForm, response: Outcome<Option<AuthBody>>)
    requires HasAllFields(form)
    requires !Submit(form, response).Refused?
    ensures form["password"] == form["confirmPassword"]
    ensures |Payload(form)["password"]| >= MinPasswordLength
    ensures Payload(form).Keys == form.Keys - {"confirmPassword"}
  {
  }

  /**
   * The slice always rejects `register` with a string, so the page's
   * generic fallback shows only when the slice itself chose it: the toast
   * is the server's message, the first validation message, or the
   * registration default.
   */
  lemma RejectionToastIsSliceMessage(form: RegisterForm, response: Outcome<Option<AuthBody>>)
    requires HasAllFields(form)
    requires Submit(form, response).RegisterError?
    ensures var m := Submit(form, response).message;
      && m != ""
      && (response.Failed? ==> m == AuthMessage(response.failure, RegisterFailedMessage))
      && (response.Success? ==> m == RegisterFailedMessage)
  {
    var r := SignInResult(response, RegisterFailedMessage);
    assert r.Err? && r.error.Text?;
  }
}
