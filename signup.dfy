/** The signup form: an "already signed in?" check on mount, three fields and a submit. */
module Signup {
  import opened Replies

  const SignupFallback := "Signup failed"
  const SignupSucceededNotice := "Signup successful!"

  datatype SignupField = Name | Email | Password

  datatype SignupForm = SignupForm(name: string, email: string, password: string)

  function FieldOf(form: SignupForm, field: SignupField): string {
    match field
    case Name => form.name
    case Email => form.email
    case Password => form.password
  }

  /** `{ ...formData, [name]: value }`: the named field takes the value, the others keep theirs. */
  function WithField(form: SignupForm, field: SignupField, value: string): (r: SignupForm)
    ensures FieldOf(r, field) == value
    ensures forall other :: other != field ==> FieldOf(r, other) == FieldOf(form, other)
  {
    match field
    case Name => form.(name := value)
    case Email => form.(email := value)
    case Password => form.(password := value)
  }

  datatype SignupScreen =
    | CheckingPlaceholder
    | Form(errorBanner: Option<string>, name: string, email: string, password: string,
           submitEnabled: bool, submitLabel: string)

  class SignupPage {
    // component state
    var formData: SignupForm
    var error: string
    var loading: bool
    var checkingAuth: bool
    // what the browser holds around it
    var submitsInFlight: nat
    var navigatedTo: Option<Route>
    var notice: Notice

    /** The submit button is disabled only while a submission is unsettled. */
    ghost predicate Valid()
      reads this
    {
      loading ==> submitsInFlight > 0
    }

    /** Mounting: empty form, with the authentication check under way. */
    constructor ()
      ensures Valid()
      ensures formData == SignupForm("", "", "") && error == "" && !loading && checkingAuth
      ensures submitsInFlight == 0 && navigatedTo == None && notice == NoNotice
    {
      formData, error, loading, checkingAuth := SignupForm("", "", ""), "", false, true;
      submitsInFlight, navigatedTo, notice := 0, None, NoNotice;
    }

    /** The authentication check settles with the reply's user, if any, or a failure.
        Only a reply carrying a user redirects to the dashboard; the check ends either way. */
    method SettleAuthCheck(reply: Reply<Option<User>>)
      requires Valid() && checkingAuth
      modifies this
      ensures Valid() && !checkingAuth
      ensures reply.Ok? && reply.data.Some? ==> navigatedTo == Some(DashboardRoute)
      ensures !(reply.Ok? && reply.data.Some?) ==> navigatedTo == old(navigatedTo)
      ensures formData == old(formData) && error == old(error) && loading == old(loading)
      ensures submitsInFlight == old(submitsInFlight) && notice == old(notice)
    {
      if reply.Ok? && reply.data.Some? {
        navigatedTo := Some(DashboardRoute);
      }
      checkingAuth := false;
    }

    /** Typing in a field: that field changes and the error banner is cleared. */
    method Change(field: SignupField, value: string)
      requires Valid()
      modifies this
      ensures Valid() && formData == WithField(old(formData), field, value) && error == ""
      ensures loading == old(loading) && checkingAuth == old(checkingAuth)
      ensures submitsInFlight == old(submitsInFlight) && navigatedTo == old(navigatedTo) && notice == old(notice)
    {
      formData := WithField(formData, field, value);
      error := "";
    }

    /** Submitting: the form is sent as it stands, the button disabled, the error cleared. */
    method StartSubmit() returns (sent: SignupForm)
      requires Valid()
      modifies this
      ensures Valid() && sent == formData && loading && error == ""
      ensures submitsInFlight == old(submitsInFlight) + 1
      ensures formData == old(formData) && checkingAuth == old(checkingAuth)
      ensures navigatedTo == old(navigatedTo) && notice == old(notice)
    {
      loading := true;
      error := "";
      submitsInFlight := submitsInFlight + 1;
      sent := formData;
    }

    /** A submission settles: success goes to the login page, failure shows the server's
        text or the fallback; the form keeps what was typed and the button is enabled. */
    method SettleSubmit(reply: Reply<()>)
      requires Valid() && submitsInFlight > 0
      modifies this
      ensures Valid() && !loading && submitsInFlight == old(submitsInFlight) - 1
      ensures reply.Ok? ==> navigatedTo == Some(LoginRoute) && error == old(error)
      ensures reply.Ok? ==> notice == Toast(SuccessToast, SignupSucceededNotice)
      ensures reply.Failed? ==> navigatedTo == old(navigatedTo) && error == MessageOr(reply.message, SignupFallback)
      ensures reply.Failed? ==> notice == Toast(ErrorToast, error)
      ensures formData == old(formData) && checkingAuth == old(checkingAuth)
    {
      submitsInFlight := submitsInFlight - 1;
      match reply {
        case Ok(_) =>
          notice := Toast(SuccessToast, SignupSucceededNotice);
          navigatedTo := Some(LoginRoute);
        case Failed(message) =>
          var msg := MessageOr(message, SignupFallback);
          error := msg;
          notice := Toast(ErrorToast, msg);
      }
      loading := false;
    }

    /** A disabled submit button always has a reply still to come. */
    lemma DisabledHasPending()
      requires Valid()
      ensures Render().Form? && !Render().submitEnabled ==> submitsInFlight > 0
    {
    }

    /** What the page shows: only the placeholder while the check runs; then the form,
        with the error banner exactly when there is error text. */
    function Render(): (v: SignupScreen)
      reads this
      ensures v.CheckingPlaceholder? <==> checkingAuth
      ensures v.Form? ==> v.name == formData.name && v.email == formData.email && v.password == formData.password
      ensures v.Form? ==> (v.errorBanner.Some? <==> error != "") && (v.errorBanner.Some? ==> v.errorBanner.value == error)
      ensures v.Form? ==> v.submitEnabled == !loading && (v.submitLabel == "Signing up..." <==> loading)
    {
      if checkingAuth then CheckingPlaceholder
      else Form(if error != "" then Some(error) else None, formData.name, formData.email, formData.password,
                !loading, if loading then "Signing up..." else "Sign Up")
    }
  }

  /** Until the check settles only the placeholder shows; afterwards the form is rendered,
      and the page has been sent to the dashboard exactly when the reply carried a user. */
  method AuthCheckGate(reply: Reply<Option<User>>) returns (before: SignupScreen, after: SignupScreen, route: Option<Route>)
    ensures before.CheckingPlaceholder? && after.Form?
    ensures route.Some? <==> reply.Ok? && reply.data.Some?
  {
    var page := new SignupPage();
    before := page.Render();
    page.SettleAuthCheck(reply);
    after, route := page.Render(), page.navigatedTo;
  }
}
