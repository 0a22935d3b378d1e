/** The sign-up page: the form's validation rules and what a submission does. */
module SignUp {
  import opened Wrappers
  import opened Js
  import opened AuthSlice
  import ApiClient

  datatype SignUpForm = SignUpForm(username: string, email: string, password: string, confirmPassword: string)

  /** A validation issue: the field it is reported on and its message. */
  datatype Issue = Issue(path: string, message: string)

  const UsernameTooShort := Issue("username", "User Name must be at least 2 characters")
  const PasswordTooShort := Issue("password", "Password must be at least 6 characters")
  const PasswordsDiffer := Issue("confirmPassword", "Passwords don't match")

  /** The position of a field on the form: user name, password, confirmation. */
  function Rank(issue: Issue): nat
  {
    if issue.path == "username" then 0 else if issue.path == "password" then 1 else 2
  }

  /**
   * The issues `signupSchema` reports, in order: the field rules, then the
   * refinement comparing the two passwords (which still runs when a length
   * rule has failed).
   */
  function Validate(form: SignUpForm): (r: seq<Issue>)
    ensures |r| <= 3
    ensures forall i :: 0 <= i < |r| ==> r[i] == UsernameTooShort || r[i] == PasswordTooShort || r[i] == PasswordsDiffer
    ensures forall i, j :: 0 <= i < j < |r| ==> Rank(r[i]) < Rank(r[j])
  {
    (if |form.username| < 2 then [UsernameTooShort] else []) +
    (if |form.password| < 6 then [PasswordTooShort] else []) +
    (if form.password != form.confirmPassword then [PasswordsDiffer] else [])
  }

  /** A form passes exactly when all three rules hold; each failed rule reports its own issue. */
  lemma ValidateMeans(form: SignUpForm)
    ensures Validate(form) == [] <==>
              |form.username| >= 2 && |form.password| >= 6 && form.password == form.confirmPassword
    ensures UsernameTooShort in Validate(form) <==> |form.username| < 2
    ensures PasswordTooShort in Validate(form) <==> |form.password| < 6
    ensures PasswordsDiffer in Validate(form) <==> form.password != form.confirmPassword
  {
  }

  /** The registration body: `confirmPassword` is not sent. */
  function Payload(form: SignUpForm): (v: Value)
    ensures v.Obj? && v.fields.Keys == {"username", "email", "password"}
    ensures "confirmPassword" !in v.fields
    ensures Get(v, "username") == Str(form.username) && Get(v, "email") == Str(form.email)
    ensures Get(v, "password") == Str(form.password)
  {
    Obj(map["username" := Str(form.username), "email" := Str(form.email), "password" := Str(form.password)])
  }

  /** `registerUser(payload)`: a plain POST without authentication. */
  function RegisterCall(form: SignUpForm): (c: ApiClient.Call)
    ensures c.verb == "post" && c.url == "/users/registerUser"
    ensures c.opts.data == Payload(form) && !c.opts.auth && !c.opts.attachUser
    ensures c.opts.fallbackMessage == Some("Registration failed")
  {
    ApiClient.ApiWithData("post", "/users/registerUser", Payload(form),
                                  Some(ApiClient.NoOptions.(fallbackMessage := Some("Registration failed"))))
  }

  /** `err?.response?.data?.error || err.message`. */
  function FailureMessage(err: Value): (r: Value)
    ensures Truthy(Get(Get(Get(err, "response"), "data"), "error")) ==> r == Get(Get(Get(err, "response"), "data"), "error")
    ensures !Truthy(Get(Get(Get(err, "response"), "data"), "error")) ==> r == Get(err, "message")
  {
    Or(Get(Get(Get(err, "response"), "data"), "error"), Get(err, "message"))
  }

  /** The `new Error(message)` the API client throws: no `response`, only a `message`. */
  function ClientError(message: string): (v: Value)
    ensures v.Obj? && Get(v, "message") == Str(message) && Get(v, "response") == Undefined
  {
    Obj(map["message" := Str(message)])
  }

  /**
   * Every failure reaching the page comes from the API client, so the
   * `response` branch of the message never applies: the page reports the
   * client's normalised message as it is.
   */
  lemma ClientFailureReportsItsMessage(message: string)
    ensures FailureMessage(ClientError(message)) == Str(message)
  {
    assert Get(ClientError(message), "response") == Undefined;
  }

  /** What the page does, in the order it does it: a dispatch or a navigation. */
  datatype Step = Dispatched(action: AuthAction) | Navigated(path: string)

  const SuccessPath := "/registration-success"

  /**
   * `onSubmit(data)`, which the form calls only once validation passed.
   * `outcome` is how the `registerUser` request settles, as the API client
   * returns it. Returns the request made and the steps taken, in order.
   */
  method OnSubmit(store: AuthStore, form: SignUpForm, outcome: Result<Value, string>)
    returns (sent: ApiClient.Call, steps: seq<Step>)
    requires Validate(form) == []
    modifies store
    ensures sent == RegisterCall(form)
    ensures outcome.Ok? ==> steps == [Dispatched(AuthStart), Dispatched(LoginSuccess(Null)), Navigated(SuccessPath)]
    ensures outcome.Ok? ==> store.user == Null && !store.isAuthenticated && !store.loading && store.error == Null
    ensures outcome.Err? ==> steps == [Dispatched(AuthStart), Dispatched(AuthFailure(Str(outcome.error)))]
    ensures outcome.Err? ==> !store.loading && store.error == Str(outcome.error)
    ensures outcome.Err? ==> store.user == old(store.user) && store.isAuthenticated == old(store.isAuthenticated)
    ensures old(store.Valid()) ==> store.Valid()
  {
    steps := [Dispatched(AuthStart)];
    store.Dispatch(AuthStart);
    sent := RegisterCall(form);
    if outcome.Ok? {
      steps := steps + [Dispatched(LoginSuccess(Null))];
      store.Dispatch(LoginSuccess(Null));
      steps := steps + [Navigated(SuccessPath)];
    } else {
      var message := FailureMessage(ClientError(outcome.error));
      ClientFailureReportsItsMessage(outcome.error);
      steps := steps + [Dispatched(AuthFailure(message))];
      store.Dispatch(AuthFailure(message));
    }
  }
}
