/** The controlled sign-in / registration page: one four-field form record,
    a mode flag and a `loading` flag held across the request. */
module Auth {
  import opened Js
  import opened Http
  import AuthContext

  type Form = map<string, string>

  /** The four inputs of the page. */
  const Fields: set<string> := {"username", "email", "password", "phoneNumber"}

  const EmptyForm: Form := map["username" := "", "email" := "", "password" := "", "phoneNumber" := ""]

  const LoginSuccessText := "Login successful!"
  const RegisterSuccessText := "Registration successful!"
  const AuthFailedText := "Authentication failed"
  const Landing := "/dialer"

  /** The submit request: signing in sends only the credentials, registering
      sends the whole form. */
  function SubmitRequest(isLogin: bool, form: Form): (e: Event)
    requires Fields <= form.Keys
    ensures e.Request? && e.verb == Post
    ensures e.path == if isLogin then "/login" else "/register"
    ensures e.payload.JObj?
    ensures isLogin ==> e.payload.fields.Keys == {"username", "password"}
    ensures !isLogin ==> e.payload.fields.Keys == form.Keys
    ensures forall k :: k in e.payload.fields ==> k in form && e.payload.fields[k] == JStr(form[k])
  {
    if isLogin then
      Request(Post, "/login", JObj(map["username" := JStr(form["username"]), "password" := JStr(form["password"])]))
    else
      Request(Post, "/register", StringFields(form))
  }

  /** What a signed-in request leaves out: e-mail and phone number are never
      sent to /login, whatever the form holds. */
  lemma LoginSendsOnlyCredentials(form: Form, k: string, v: string)
    requires Fields <= form.Keys && k != "username" && k != "password"
    ensures "email" !in SubmitRequest(true, form).payload.fields
    ensures "phoneNumber" !in SubmitRequest(true, form).payload.fields
    ensures SubmitRequest(true, form[k := v]) == SubmitRequest(true, form)
  {
  }

  class AuthPage {
    const session: AuthContext.Session
    var isLogin: bool
    var formData: Form
    var loading: bool

    /** The form always holds exactly its four fields. */
    ghost predicate Valid()
      reads this
    {
      formData.Keys == Fields
    }

    constructor (session: AuthContext.Session)
      ensures Valid() && this.session == session
      ensures isLogin && formData == EmptyForm && !loading
    {
      this.session := session;
      isLogin := true;
      formData := EmptyForm;
      loading := false;
    }

    /** `handleInputChange` for one of the page's inputs: only that field changes. */
    method HandleInputChange(name: string, value: string)
      requires Valid() && name in Fields
      modifies this`formData
      ensures Valid()
      ensures formData[name] == value
      ensures forall k :: k in Fields && k != name ==> formData[k] == old(formData)[k]
    {
      formData := formData[name := value];
    }

    /** The mode link: the form is kept as typed. */
    method ToggleMode()
      modifies this`isLogin
      ensures isLogin == !old(isLogin)
    {
      isLogin := !isLogin;
    }

    /** The first half of `handleSubmit`, up to the awaited request. */
    method StartSubmit() returns (effects: seq<Event>)
      requires Valid()
      modifies this`loading
      ensures Valid() && loading
      ensures effects == [SubmitRequest(isLogin, formData)]
    {
      loading := true;
      effects := [SubmitRequest(isLogin, formData)];
    }

    /** The second half, once the request settled with `o`: any resolved
        answer signs in and goes to the dialer; a failure only toasts. */
    method FinishSubmit(o: Outcome) returns (effects: seq<Event>)
      modifies this`loading, session
      ensures !loading
      ensures o.Ok? ==>
                session.isAuthenticated && session.cache == Some(AuthContext.CachedTrue)
                && session.user == old(session.user) && session.loading == old(session.loading)
                && effects == [Say(Success, if isLogin then LoginSuccessText else RegisterSuccessText),
                               Navigate(Landing)]
      ensures o.Failed? ==>
                unchanged(session)
                && effects == [Toast(Error, ServerMessageOr(o.error, AuthFailedText))]
    {
      match o {
        case Ok(_) =>
          session.Login(JUndefined);
          effects := [Say(Success, if isLogin then LoginSuccessText else RegisterSuccessText),
                      Navigate(Landing)];
        case Failed(error) =>
          effects := [Toast(Error, ServerMessageOr(error, AuthFailedText))];
      }
      loading := false;
    }

    /** `handleSubmit` as a whole. */
    method HandleSubmit(o: Outcome) returns (effects: seq<Event>)
      requires Valid()
      modifies this`loading, session
      ensures Valid() && !loading
      ensures |effects| >= 2 && effects[0] == SubmitRequest(isLogin, formData)
      ensures o.Ok? ==>
                session.isAuthenticated && session.cache == Some(AuthContext.CachedTrue)
                && session.user == old(session.user) && session.loading == old(session.loading)
                && effects[1..] == [Say(Success, if isLogin then LoginSuccessText else RegisterSuccessText),
                                    Navigate(Landing)]
      ensures o.Failed? ==>
                unchanged(session) && effects[1..] == [Toast(Error, ServerMessageOr(o.error, AuthFailedText))]
    {
      var sent := StartSubmit();
      var settled := FinishSubmit(o);
      effects := sent + settled;
    }
  }
}
