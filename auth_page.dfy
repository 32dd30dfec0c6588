/** The sign-in / sign-up page (src/pages/Auth.jsx): the credential form,
    its validation, and the user record a sign-in produces. */
module AuthPage {
  import opened Common
  import opened FormRules
  import opened AppContext

  /** The inputs of the form, by their `name` attribute. */
  datatype AuthField = EmailField | Password | ConfirmPassword

  datatype Credentials = Credentials(email: string, password: string, confirmPassword: string)

  const NoCredentials := Credentials("", "", "")

  /** The errors shown, keyed by the input they belong to. */
  type AuthErrors = map<AuthField, string>

  function ReadField(c: Credentials, f: AuthField): string
  {
    match f
    case EmailField => c.email
    case Password => c.password
    case ConfirmPassword => c.confirmPassword
  }

  /** `{...prev, [name]: value}`. */
  function WriteField(c: Credentials, f: AuthField, v: string): (r: Credentials)
    ensures ReadField(r, f) == v
    ensures forall g :: g != f ==> ReadField(r, g) == ReadField(c, g)
  {
    match f
    case EmailField => c.(email := v)
    case Password => c.(password := v)
    case ConfirmPassword => c.(confirmPassword := v)
  }

  /** The rule `validateForm` checks for each input, with its message when
      broken. The confirmation is only checked when signing up. */
  function AuthProblem(c: Credentials, signUp: bool, f: AuthField): Option<string>
  {
    match f
    case EmailField => EmailRule(c.email)
    case Password =>
      if c.password == "" then Some("Password is required")
      else if |c.password| < 6 then Some("Password must be at least 6 characters")
      else None
    case ConfirmPassword =>
      if !signUp then None
      else if c.confirmPassword == "" then Some("Please confirm your password")
      else if c.password != c.confirmPassword then Some("Passwords do not match")
      else None
  }

  /** The errors `validateForm` records: every broken rule with its message. */
  function ErrorsOf(c: Credentials, signUp: bool): (r: AuthErrors)
    ensures forall f :: f in r <==> AuthProblem(c, signUp, f).Some?
    ensures forall f :: f in r ==> r[f] == AuthProblem(c, signUp, f).value
  {
    map f | f in {EmailField, Password, ConfirmPassword} && AuthProblem(c, signUp, f).Some? ::
      AuthProblem(c, signUp, f).value
  }

  /** What acceptable credentials are: an address the pattern accepts, a
      password of six characters or more and, when signing up, the same
      password typed again. */
  predicate Acceptable(c: Credentials, signUp: bool)
  {
    EmailLike(c.email) && |c.password| >= 6 && (signUp ==> c.confirmPassword == c.password)
  }

  /** No error is recorded exactly when the credentials are acceptable. */
  lemma NoErrorsIffAcceptable(c: Credentials, signUp: bool)
    ensures |ErrorsOf(c, signUp)| == 0 <==> Acceptable(c, signUp)
  {
    var r := ErrorsOf(c, signUp);
    if r == map[] {
      assert AuthProblem(c, signUp, EmailField).None?;
      assert AuthProblem(c, signUp, Password).None?;
      assert AuthProblem(c, signUp, ConfirmPassword).None?;
    }
    if Acceptable(c, signUp) {
      assert r == map[];
    }
  }

  /** The rule table as a function of the input. */
  ghost function Rules(c: Credentials, signUp: bool): AuthField -> Option<string>
  {
    f => AuthProblem(c, signUp, f)
  }

  /** The order in which `validateForm` checks the rules. */
  const RuleOrder: seq<AuthField> := [EmailField, Password, ConfirmPassword]

  /** Once every rule is checked, the recorded errors are the page's. */
  lemma FoundAll(c: Credentials, signUp: bool)
    ensures Found(Rules(c, signUp), RuleOrder) == ErrorsOf(c, signUp)
  {
    FoundMeaning(Rules(c, signUp), RuleOrder);
  }

  /** The e-mail rule of `validateForm`. */
  method CheckEmail(c: Credentials, signUp: bool, errors: AuthErrors, ghost done: seq<AuthField>)
    returns (next: AuthErrors)
    requires errors == Found(Rules(c, signUp), done)
    ensures next == Found(Rules(c, signUp), done + [EmailField])
  {
    next := errors;
    if Blank(c.email) {
      next := next[EmailField := "Email is required"];
    } else if !EmailLike(c.email) {
      next := next[EmailField := "Please enter a valid email"];
    }
    CheckRule(Rules(c, signUp), done, EmailField);
  }

  /** The password rule of `validateForm`: present and six characters long. */
  method CheckPassword(c: Credentials, signUp: bool, errors: AuthErrors, ghost done: seq<AuthField>)
    returns (next: AuthErrors)
    requires errors == Found(Rules(c, signUp), done)
    ensures next == Found(Rules(c, signUp), done + [Password])
  {
    next := errors;
    if c.password == "" {
      next := next[Password := "Password is required"];
    } else if |c.password| < 6 {
      next := next[Password := "Password must be at least 6 characters"];
    }
    CheckRule(Rules(c, signUp), done, Password);
  }

  /** The confirmation rule of `validateForm`, checked only when signing up. */
  method CheckConfirmation(c: Credentials, signUp: bool, errors: AuthErrors, ghost done: seq<AuthField>)
    returns (next: AuthErrors)
    requires errors == Found(Rules(c, signUp), done)
    ensures next == Found(Rules(c, signUp), done + [ConfirmPassword])
  {
    next := errors;
    if signUp {
      if c.confirmPassword == "" {
        next := next[ConfirmPassword := "Please confirm your password"];
      } else if c.password != c.confirmPassword {
        next := next[ConfirmPassword := "Passwords do not match"];
      }
    }
    CheckRule(Rules(c, signUp), done, ConfirmPassword);
  }

  /** Signing in never asks about the confirmation, and whatever signs up
      would also sign in. */
  lemma SignUpIsStricter(c: Credentials, v: string)
    ensures ErrorsOf(c.(confirmPassword := v), false) == ErrorsOf(c, false)
    ensures Acceptable(c, true) ==> Acceptable(c, false)
  {
    var c' := c.(confirmPassword := v);
    forall f ensures AuthProblem(c', false, f) == AuthProblem(c, false, f) {
    }
  }

  /** The user `handleSubmit` stores: the current user with the e-mail
      replaced, login method "email", logged in. */
  function SignedInUser(user: Record, email: string): (r: Record)
    ensures r.Keys == user.Keys + {"email", "loginMethod", "isLoggedIn"}
    ensures r["email"] == Text(email) && r["loginMethod"] == Text("email") && r["isLoggedIn"] == Flag(true)
    ensures forall k :: k in user && k !in {"email", "loginMethod", "isLoggedIn"} ==> r[k] == user[k]
  {
    user["email" := Text(email)]["loginMethod" := Text("email")]["isLoggedIn" := Flag(true)]
  }

  /** The address a social login invents: `user@<provider>.example.com`. */
  function SocialEmail(provider: string): string
  {
    "user@" + Lower(provider) + ".example.com"
  }

  /** The user `handleSocialLogin` stores: the current user with a
      provider-made name and address, logged in through that provider. */
  function SocialUser(user: Record, provider: string): (r: Record)
    ensures r.Keys == user.Keys + {"name", "email", "isLoggedIn", "loginMethod"}
    ensures r["name"] == Text(provider + " User") && r["email"] == Text(SocialEmail(provider))
    ensures r["isLoggedIn"] == Flag(true) && r["loginMethod"] == Text(provider)
    ensures forall k :: k in user && k !in {"name", "email", "isLoggedIn", "loginMethod"} ==> r[k] == user[k]
  {
    user["name" := Text(provider + " User")]["email" := Text(SocialEmail(provider))]
      ["isLoggedIn" := Flag(true)]["loginMethod" := Text(provider)]
  }

  /** The invented address passes the form's own e-mail check whenever the
      provider name has no white space. */
  lemma SocialEmailAccepted(provider: string)
    requires forall i :: 0 <= i < |provider| ==> !IsSpace(provider[i])
    ensures EmailLike(SocialEmail(provider))
    ensures EmailRule(SocialEmail(provider)) == None
  {
    var p := Lower(provider);
    var s := SocialEmail(provider);
    var n := |p|;
    assert s == "user@" + p + ".example" + ".com";
    forall k | 4 < k < 13 + n ensures !IsSpace(s[k]) {
      if k < 5 + n {
        assert s[k] == p[k - 5] == LowerChar(provider[k - 5]);
      }
    }
    assert EmailShapeAt(s, 4, 13 + n);
  }

  /** The state of the page. */
  class Auth {
    var isSignUp: bool
    var showForgotPassword: bool
    var credentials: Credentials
    var errors: AuthErrors

    /** The page opens in sign-in mode with an empty form. */
    constructor()
      ensures !isSignUp && !showForgotPassword
      ensures credentials == NoCredentials && errors == map[]
    {
      isSignUp := false;
      showForgotPassword := false;
      credentials := NoCredentials;
      errors := map[];
    }

    /** `handleInputChange`: only the named input changes, and only its
        error is cleared. */
    method HandleInputChange(f: AuthField, value: string)
      modifies this
      ensures credentials == WriteField(old(credentials), f, value)
      ensures errors == ClearError(old(errors), f)
      ensures isSignUp == old(isSignUp) && showForgotPassword == old(showForgotPassword)
    {
      credentials := WriteField(credentials, f, value);
      if f in errors && errors[f] != "" {
        errors := errors[f := ""];
      }
    }

    /** `validateForm`: the rules are checked one after the other and their
        errors replace the recorded ones. */
    method ValidateForm() returns (valid: bool)
      modifies this
      ensures errors == ErrorsOf(credentials, isSignUp)
      ensures valid <==> Acceptable(credentials, isSignUp)
      ensures credentials == old(credentials)
      ensures isSignUp == old(isSignUp) && showForgotPassword == old(showForgotPassword)
    {
      var c := credentials;
      var newErrors: AuthErrors := map[];
      ghost var done: seq<AuthField> := [];
      newErrors := CheckEmail(c, isSignUp, newErrors, done);
      done := done + [EmailField];
      newErrors := CheckPassword(c, isSignUp, newErrors, done);
      done := done + [Password];
      newErrors := CheckConfirmation(c, isSignUp, newErrors, done);
      done := done + [ConfirmPassword];
      assert done == RuleOrder;
      FoundAll(c, isSignUp);
      NoErrorsIffAcceptable(c, isSignUp);
      errors := newErrors;
      valid := |newErrors| == 0;
    }

    /** `handleSubmit`: acceptable credentials sign the user in and lead to
        the profile page; otherwise only the errors change. */
    method HandleSubmit(store: AppStore) returns (signedIn: bool)
      modifies this, store
      ensures errors == ErrorsOf(credentials, isSignUp)
      ensures signedIn <==> Acceptable(credentials, isSignUp)
      ensures credentials == old(credentials)
      ensures isSignUp == old(isSignUp) && showForgotPassword == old(showForgotPassword)
      ensures signedIn ==> (store.state ==
        Reduce(Reduce(old(store.state), Action.SetUserInfo(SignedInUser(old(store.state).user, credentials.email))),
          SetCurrentPage("profile")))
      ensures !signedIn ==> store.state == old(store.state)
    {
      signedIn := ValidateForm();
      if !signedIn {
        return;
      }
      var userData := SignedInUser(store.state.user, credentials.email);
      store.SetUserInfo(userData);
      store.SetCurrentPage("profile");
    }

    /** The "Forgot password?" link and the "Back to sign in" button. */
    method SetShowForgotPassword(show: bool)
      modifies this
      ensures showForgotPassword == show
      ensures isSignUp == old(isSignUp) && credentials == old(credentials) && errors == old(errors)
    {
      showForgotPassword := show;
    }

    /** `handleForgotPassword`: without an address only the e-mail error is
        shown; with one, the reset view closes (the notice is not modelled). */
    method HandleForgotPassword()
      modifies this
      ensures Blank(credentials.email) ==>
        errors == map[EmailField := "Please enter your email address"] &&
        showForgotPassword == old(showForgotPassword)
      ensures !Blank(credentials.email) ==> errors == old(errors) && !showForgotPassword
      ensures credentials == old(credentials) && isSignUp == old(isSignUp)
    {
      if Blank(credentials.email) {
        errors := map[EmailField := "Please enter your email address"];
        return;
      }
      showForgotPassword := false;
    }

    /** `handleSocialLogin`, the simulated delay taken as elapsed. */
    method HandleSocialLogin(provider: string, store: AppStore)
      modifies store
      ensures store.state ==
        Reduce(Reduce(old(store.state), Action.SetUserInfo(SocialUser(old(store.state).user, provider))),
          SetCurrentPage("profile"))
    {
      var userData := SocialUser(store.state.user, provider);
      store.SetUserInfo(userData);
      store.SetCurrentPage("profile");
    }

    /** `toggleAuthMode`: the other mode, no errors, no reset view. */
    method ToggleAuthMode()
      modifies this
      ensures isSignUp == !old(isSignUp)
      ensures errors == map[] && !showForgotPassword
      ensures credentials == old(credentials)
    {
      isSignUp := !isSignUp;
      errors := map[];
      showForgotPassword := false;
    }
  }

  /** A sign-in logs the user in and keeps every other field of the user,
      the quiz results included. */
  lemma SignInKeepsUser(state: AppState, email: string)
    ensures var s := Reduce(Reduce(state, Action.SetUserInfo(SignedInUser(state.user, email))), SetCurrentPage("profile"));
      LoggedIn(s.user) && s.user["email"] == Text(email) && s.user["loginMethod"] == Text("email") &&
      s.quizResults == state.quizResults && s.currentPage == "profile" &&
      forall k :: k in state.user && k !in {"email", "loginMethod", "isLoggedIn"} ==> s.user[k] == state.user[k]
  {
  }
}
