/** The Formik sign-in / registration form: its validation schemas, its
    initial values per mode, and the submit handler that talks to /login or
    /register. */
module AuthForm {
  import opened Js
  import opened Http
  import AuthContext

  /** Form values as Formik hands them over: field name to text. */
  type Values = map<string, string>

  const MinUsernameLength := 3
  const MinPasswordLength := 6
  /** ITU-T Recommendation E.164, clause 6: a number has at most 15 digits. */
  const MaxE164Digits := 15

  const LoginSuccessText := "Login successful!"
  const RegisterSuccessText := "Registration successful!"
  const LoginFailedText := "Login failed. Please check your credentials."
  const RegisterFailedText := "Registration failed. Please try again."
  const DefaultLanding := "/dialer"

  /** A Yup `string().required().min(k)` rule on one field: present, non-empty
      and at least `k` characters long. */
  predicate AtLeast(values: Values, field: string, k: nat)
    requires k >= 1
  {
    field in values && |values[field]| >= k
  }

  /** `loginSchema`. */
  predicate LoginValid(values: Values) {
    AtLeast(values, "username", MinUsernameLength) && AtLeast(values, "password", MinPasswordLength)
  }

  /** The phone rule `/^\+[1-9]\d{1,14}$/`: a '+', a digit 1-9, then 1 to 14
      more digits and nothing else. */
  predicate PhoneMatches(p: string) {
    3 <= |p| <= 16 && p[0] == '+' && '1' <= p[1] <= '9' && AllDigits(p[2..])
  }

  /** `registerSchema`; the e-mail format test is Yup's own and is passed in. */
  predicate RegisterValid(values: Values, isEmail: string -> bool) {
    && AtLeast(values, "username", MinUsernameLength)
    && "email" in values && values["email"] != "" && isEmail(values["email"])
    && AtLeast(values, "password", MinPasswordLength)
    && "phoneNumber" in values && values["phoneNumber"] != "" && PhoneMatches(values["phoneNumber"])
  }

  /** The registration schema is the login schema plus two more rules: a
      form that may register may also sign in. */
  lemma RegisterImpliesLogin(values: Values, isEmail: string -> bool)
    ensures RegisterValid(values, isEmail) ==> LoginValid(values)
    ensures RegisterValid(values, isEmail) ==> PhoneMatches(values["phoneNumber"])
  {
  }

  /** Only the two login fields decide the login schema. */
  lemma LoginIgnoresOtherFields(values: Values, k: string, v: string)
    requires k != "username" && k != "password"
    ensures LoginValid(values[k := v]) == LoginValid(values)
  {
  }

  /** A matching number is '+' and the decimal spelling of its digits' value. */
  lemma {:induction false} PhoneDigits(p: string)
    requires PhoneMatches(p)
    ensures AllDigits(p[1..])
    ensures var n := ParseNat(p[1..]); 10 <= n < Pow10(MaxE164Digits) && p == "+" + NatToString(n)
  {
    var digits := p[1..];
    assert AllDigits(digits) by {
      forall i | 0 <= i < |digits|
        ensures IsDigit(digits[i])
      {
        if i > 0 {
          assert digits[i] == p[2..][i - 1];
        }
      }
    }
    assert Canonical(digits) && |digits| >= 2;
    CanonicalRoundTrip(digits);
    ParseNatBounds(digits);
    Pow10Monotonic(1, |digits| - 1);
    ParseNatBelow(digits, MaxE164Digits);
    assert p == "+" + digits;
  }

  /** '+' and the spelling of a number of 2 to 15 digits matches. */
  lemma {:induction false} NumberMatches(n: nat)
    requires 10 <= n < Pow10(MaxE164Digits)
    ensures PhoneMatches("+" + NatToString(n))
  {
    var digits := NatToString(n);
    DigitCountBound(n, MaxE164Digits);
    assert 2 <= |digits| <= 15;
    var p := "+" + digits;
    assert p[1] == digits[0] && digits[0] != '0' && IsDigit(digits[0]);
    assert AllDigits(p[2..]) by {
      forall i | 0 <= i < |p[2..]|
        ensures IsDigit(p[2..][i])
      {
        assert p[2..][i] == digits[i + 1];
      }
    }
  }

  /** The phone rule accepts exactly '+' followed by the decimal spelling of a
      number with 2 to 15 digits: an E.164 number with a non-zero leading digit. */
  lemma PhoneMatchesIsE164(p: string)
    ensures PhoneMatches(p) <==>
              exists n: nat :: 10 <= n < Pow10(MaxE164Digits) && p == "+" + NatToString(n)
  {
    if PhoneMatches(p) {
      PhoneDigits(p);
    }
    if exists n: nat :: 10 <= n < Pow10(MaxE164Digits) && p == "+" + NatToString(n) {
      var n: nat :| 10 <= n < Pow10(MaxE164Digits) && p == "+" + NatToString(n);
      NumberMatches(n);
    }
  }

  /** `initialValues`: two empty fields to sign in, four to register. */
  function InitialValues(isLogin: bool): (v: Values)
    ensures isLogin ==> v.Keys == {"username", "password"}
    ensures !isLogin ==> v.Keys == {"username", "email", "password", "phoneNumber"}
    ensures forall k :: k in v ==> v[k] == ""
  {
    if isLogin then map["username" := "", "password" := ""]
    else map["username" := "", "email" := "", "password" := "", "phoneNumber" := ""]
  }

  /** The initial values never pass the schema of their mode: a blank form
      cannot be submitted. */
  lemma InitialValuesInvalid(isLogin: bool, isEmail: string -> bool)
    ensures !LoginValid(InitialValues(isLogin))
    ensures !RegisterValid(InitialValues(isLogin), isEmail)
  {
  }

  /** Where a successful sign-in lands: `location.state?.from?.pathname || '/dialer'`,
      with `from` the path the guard redirected from, if any. */
  function Landing(from: Option<string>): (to: string)
    ensures from.Some? && from.value != "" ==> to == from.value
    ensures !(from.Some? && from.value != "") ==> to == DefaultLanding
  {
    if from.Some? && from.value != "" then from.value else DefaultLanding
  }

  class AuthFormScreen {
    const session: AuthContext.Session
    var isLogin: bool
    /** Formik's `isSubmitting`. */
    var submitting: bool
    /** Formik's `values`. */
    var values: Values

    constructor (session: AuthContext.Session)
      ensures this.session == session && isLogin && !submitting
      ensures values == InitialValues(true)
    {
      this.session := session;
      isLogin := true;
      submitting := false;
      values := InitialValues(true);
    }

    /** The mode switch; `enableReinitialize` then resets the form to the new
        mode's initial values. */
    method ToggleMode()
      modifies this`isLogin, this`values
      ensures isLogin == !old(isLogin) && values == InitialValues(isLogin)
    {
      isLogin := !isLogin;
      values := InitialValues(isLogin);
    }

    /** Formik's `handleChange` for one input. */
    method HandleChange(name: string, value: string)
      modifies this`values
      ensures values == old(values)[name := value]
      ensures forall k :: k in old(values) && k != name ==> k in values && values[k] == old(values)[k]
    {
      values := values[name := value];
    }

    /** `handleSubmit(values)`: POST the values to /login or /register,
        settled by `o`. */
    method HandleSubmit(from: Option<string>, o: Outcome) returns (effects: seq<Event>)
      modifies this, session
      ensures !submitting
      ensures |effects| >= 1
              && effects[0] == Request(Post, if old(isLogin) then "/login" else "/register", StringFields(old(values)))
      // an answer with a body: success toast and a reset form, then sign in
      // and go on (login mode) or switch to login mode (register mode)
      ensures o.Ok? && Truthy(o.response.data) && old(isLogin) ==>
                isLogin && values == InitialValues(true)
                && session.isAuthenticated && session.cache == Some(AuthContext.CachedTrue)
                && session.user == old(session.user) && session.loading == old(session.loading)
                && effects[1..] == [Say(Success, LoginSuccessText), Navigate(Landing(from))]
      ensures o.Ok? && Truthy(o.response.data) && !old(isLogin) ==>
                isLogin && values == InitialValues(true)
                && unchanged(session)
                && effects[1..] == [Say(Success, RegisterSuccessText)]
      // an empty body does nothing
      ensures o.Ok? && !Truthy(o.response.data) ==>
                isLogin == old(isLogin) && values == old(values) && unchanged(session) && |effects| == 1
      // a failure only toasts
      ensures o.Failed? ==>
                isLogin == old(isLogin) && values == old(values) && unchanged(session)
                && effects[1..] == [Toast(Error, ServerMessageOr(o.error,
                                      if old(isLogin) then LoginFailedText else RegisterFailedText))]
    {
      submitting := true;
      var endpoint := if isLogin then "/login" else "/register";
      effects := [Request(Post, endpoint, StringFields(values))];
      match o {
        case Ok(response) =>
          if Truthy(response.data) {
            effects := effects + [Say(Success, if isLogin then LoginSuccessText else RegisterSuccessText)];
            values := InitialValues(isLogin);
            if isLogin {
              session.Login(JUndefined);
              effects := effects + [Navigate(Landing(from))];
            } else {
              isLogin := true;
              values := InitialValues(true);
            }
          }
        case Failed(error) =>
          var text := ServerMessageOr(error, if isLogin then LoginFailedText else RegisterFailedText);
          effects := effects + [Toast(Error, text)];
      }
      submitting := false;
    }
  }
}
