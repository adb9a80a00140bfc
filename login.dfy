/** The login form: an "already signed in?" check on mount, two fields and a submit. */
module Login {
  import opened Replies

  const LoginFallback := "Login failed"
  const AlreadyLoggedInNotice := "Already logged in."
  const LoginSucceededNotice := "Login successful!"

  datatype LoginField = Email | Password

  datatype LoginForm = LoginForm(email: string, password: string)

  function FieldOf(form: LoginForm, field: LoginField): string {
    match field
    case Email => form.email
    case Password => form.password
  }

  /** `{ ...formData, [name]: value }`: the named field takes the value, the other keeps its own. */
  function WithField(form: LoginForm, field: LoginField, value: string): (r: LoginForm)
    ensures FieldOf(r, field) == value
    ensures forall other :: other != field ==> FieldOf(r, other) == FieldOf(form, other)
  {
    match field
    case Email => form.(email := value)
    case Password => form.(password := value)
  }

  datatype LoginScreen =
    | CheckingPlaceholder
    | Form(errorBanner: Option<string>, email: string, password: string, submitEnabled: bool, submitLabel: string)

  class LoginPage {
    // component state
    var formData: LoginForm
    var error: string
    var loading: bool
    var checkingAuth: bool
    // what the browser holds around it
    var submitsInFlight: nat
    var navigatedTo: Option<Route>
    var notice: Notice

    /** The submit button is disabled only while a submission is unsettled. */
    ghost predicate Valid()
      reads this
    {
      loading ==> submitsInFlight > 0
    }

    /** Mounting: empty form, with the authentication check under way. */
    constructor ()
      ensures Valid()
      ensures formData == LoginForm("", "") && error == "" && !loading && checkingAuth
      ensures submitsInFlight == 0 && navigatedTo == None && notice == NoNotice
    {
      formData, error, loading, checkingAuth := LoginForm("", ""), "", false, true;
      submitsInFlight, navigatedTo, notice := 0, None, NoNotice;
    }

    /** The authentication check settles with the reply's user, if any, or a failure.
        Only a reply carrying a user redirects to the dashboard; the check ends either way. */
    method SettleAuthCheck(reply: Reply<Option<User>>)
      requires Valid() && checkingAuth
      modifies this
      ensures Valid() && !checkingAuth
      ensures reply.Ok? && reply.data.Some? ==>
        navigatedTo == Some(DashboardRoute) && notice == Toast(InfoToast, AlreadyLoggedInNotice)
      ensures !(reply.Ok? && reply.data.Some?) ==> navigatedTo == old(navigatedTo) && notice == old(notice)
      ensures formData == old(formData) && error == old(error) && loading == old(loading)
      ensures submitsInFlight == old(submitsInFlight)
    {
      if reply.Ok? && reply.data.Some? {
        navigatedTo := Some(DashboardRoute);
        notice := Toast(InfoToast, AlreadyLoggedInNotice);
      }
      checkingAuth := false;
    }

    /** Typing in a field: that field changes and the error banner is cleared. */
    method Change(field: LoginField, value: string)
      requires Valid()
      modifies this
      ensures Valid() && formData == WithField(old(formData), field, value) && error == ""
      ensures loading == old(loading) && checkingAuth == old(checkingAuth)
      ensures submitsInFlight == old(submitsInFlight) && navigatedTo == old(navigatedTo) && notice == old(notice)
    {
      formData := WithField(formData, field, value);
      error := "";
    }

    /** Submitting: the form is sent as it stands, the button disabled, the error cleared. */
    method StartSubmit() returns (sent: LoginForm)
      requires Valid()
      modifies this
      ensures Valid() && sent == formData && loading && error == ""
      ensures submitsInFlight == old(submitsInFlight) + 1
      ensures formData == old(formData) && checkingAuth == old(checkingAuth)
      ensures navigatedTo == old(navigatedTo) && notice == old(notice)
    {
      loading := true;
      error := "";
      submitsInFlight := submitsInFlight + 1;
      sent := formData;
    }

    /** A submission settles: success goes to the dashboard, failure shows the server's
        text or the fallback; the form keeps what was typed and the button is enabled. */
    method SettleSubmit(reply: Reply<()>)
      requires Valid() && submitsInFlight > 0
      modifies this
      ensures Valid() && !loading && submitsInFlight == old(submitsInFlight) - 1
      ensures reply.Ok? ==> navigatedTo == Some(DashboardRoute) && error == old(error)
      ensures reply.Ok? ==> notice == Toast(SuccessToast, LoginSucceededNotice)
      ensures reply.Failed? ==> navigatedTo == old(navigatedTo) && error == MessageOr(reply.message, LoginFallback)
      ensures reply.Failed? ==> notice == Toast(ErrorToast, error)
      ensures formData == old(formData) && checkingAuth == old(checkingAuth)
    {
      submitsInFlight := submitsInFlight - 1;
      match reply {
        case Ok(_) =>
          navigatedTo := Some(DashboardRoute);
          notice := Toast(SuccessToast, LoginSucceededNotice);
        case Failed(message) =>
          var msg := MessageOr(message, LoginFallback);
          error := msg;
          notice := Toast(ErrorToast, msg);
      }
      loading := false;
    }

    /** A disabled submit button always has a reply still to come. */
    lemma DisabledHasPending()
      requires Valid()
      ensures Render().Form? && !Render().submitEnabled ==> submitsInFlight > 0
    {
    }

    /** What the page shows: only the placeholder while the check runs; then the form,
        with the error banner exactly when there is error text. */
    function Render(): (v: LoginScreen)
      reads this
      ensures v.CheckingPlaceholder? <==> checkingAuth
      ensures v.Form? ==> v.email == formData.email && v.password == formData.password
      ensures v.Form? ==> (v.errorBanner.Some? <==> error != "") && (v.errorBanner.Some? ==> v.errorBanner.value == error)
      ensures v.Form? ==> v.submitEnabled == !loading && (v.submitLabel == "Logging in..." <==> loading)
    {
      if checkingAuth then CheckingPlaceholder
      else Form(if error != "" then Some(error) else None, formData.email, formData.password,
                !loading, if loading then "Logging in..." else "Login")
    }
  }

  /** A failed login shows an error banner even without server text, and the form still
      holds what was typed. */
  method FailedLoginKeepsForm(email: string, password: string, message: Option<string>)
    returns (screen: LoginScreen)
    ensures screen.Form? && screen.errorBanner.Some? && screen.submitEnabled
    ensures screen.email == email && screen.password == password
  {
    var page := new LoginPage();
    page.SettleAuthCheck(Ok(None));
    page.Change(Email, email);
    page.Change(Password, password);
    var sent := page.StartSubmit();
    page.SettleSubmit(Failed(message));
    screen := page.Render();
  }
}
