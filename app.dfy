/** The storefront's top-level component as an object: the controller's
    state fields, the dialog it owns, and one method per event handler.
    Every method is proved to move `State()` exactly as the corresponding
    handler of module Navigation does and, under the condition that puts its
    control on screen, exactly as `Step` does for that event, so the lemmas
    about `Step` and `Run` apply to calls of these methods. */
module App {

  import opened Wrappers
  import opened Catalog
  import opened AuthModal
  import opened Navigation

  class Storefront {
    var view: View
    var selected: Option<Course>
    var authOpen: bool
    var authView: Mode
    var loggedIn: bool
    var pending: Option<View>
    const dialog: AuthDialog

    ghost predicate Valid()
      reads this, dialog
    {
      dialog.Valid()
    }

    function State(): AppState
      reads this, dialog
    {
      AppState(view, selected, authOpen, authView, loggedIn, pending, dialog.State())
    }

    constructor ()
      ensures Valid() && State() == Initial && fresh(dialog)
    {
      view := Home;
      selected := None;
      authOpen := false;
      authView := Login;
      loggedIn := false;
      pending := None;
      dialog := new AuthDialog(Login);
    }

    /** The dialog's reset effect after a handler that may have opened it or
        changed its initial view; `wasOpen`/`prevView` are the flags before. */
    method RunOpenEffect(wasOpen: bool, prevView: Mode)
      requires Valid()
      modifies dialog
      ensures Valid() && State() == OpenEffect(wasOpen, prevView, old(State()))
    {
      if authOpen && (!wasOpen || prevView != authView) {
        dialog.Open(authView);
      }
    }

    method NavigateToHome()
      requires Valid()
      modifies this
      ensures Valid() && State() == Navigation.NavigateToHome(old(State()))
      ensures State() == Step(old(State()), LogoClick)
    {
      view := Home;
      selected := None;
    }

    method HandleCourseSelect(course: Course)
      requires Valid()
      modifies this
      ensures Valid() && State() == CourseSelect(old(State()), course)
      ensures State() == Step(old(State()), SelectCourse(course))
    {
      selected := Some(course);
      view := Details;
    }

    method NavigateToProfile()
      requires Valid()
      modifies this
      ensures Valid() && State() == Navigation.NavigateToProfile(old(State()))
      ensures State() == Step(old(State()), ProfileClick)
      ensures view == Profile
    {
      view := Profile;
    }

    method OpenLogin()
      requires Valid()
      modifies this, dialog
      ensures Valid() && State() == Navigation.OpenLogin(old(State()))
      ensures State() == Step(old(State()), LoginClick)
      ensures authOpen && authView == Login && pending == old(pending)
    {
      var wasOpen, prevView := authOpen, authView;
      authView := Login;
      authOpen := true;
      RunOpenEffect(wasOpen, prevView);
    }

    method OpenSignup()
      requires Valid()
      modifies this, dialog
      ensures Valid() && State() == Navigation.OpenSignup(old(State()))
      ensures State() == Step(old(State()), SignupClick)
      ensures authOpen && authView == Signup && pending == old(pending)
    {
      var wasOpen, prevView := authOpen, authView;
      authView := Signup;
      authOpen := true;
      RunOpenEffect(wasOpen, prevView);
    }

    method HandleAuthSuccess()
      requires Valid()
      modifies this
      ensures Valid() && State() == AuthSuccess(old(State()))
      ensures loggedIn && !authOpen && pending == None
      ensures view == if old(pending).Some? then old(pending).value else old(view)
    {
      loggedIn := true;
      authOpen := false;
      if pending.Some? {
        view := pending.value;
        pending := None;
      }
    }

    method HandleProtectedAction(targetView: View)
      requires Valid()
      modifies this, dialog
      ensures Valid() && State() == ProtectedAction(old(State()), targetView)
      ensures State() == Step(old(State()), Gated(targetView))
      ensures old(loggedIn) ==> view == targetView && pending == old(pending) && authOpen == old(authOpen)
      ensures !old(loggedIn) ==> view == old(view) && pending == Some(targetView) && authOpen && authView == Login
    {
      if loggedIn {
        view := targetView;
      } else {
        pending := Some(targetView);
        OpenLogin();
      }
    }

    /** The details screen's enroll action (passed down but never wired to a button). */
    method HandleEnroll()
      requires Valid()
      modifies this, dialog
      ensures Valid() && State() == ProtectedAction(old(State()), Payment)
      ensures State() == Step(old(State()), Gated(Payment))
    {
      HandleProtectedAction(Payment);
    }

    /** The home banner's order button. */
    method HandleOrderClick()
      requires Valid()
      modifies this, dialog
      ensures Valid() && State() == ProtectedAction(old(State()), Payment)
      ensures State() == Step(old(State()), Gated(Payment))
    {
      HandleProtectedAction(Payment);
    }

    /** The payment form's success callback (the confirmation alert is not modelled). */
    method HandlePaymentSuccess()
      requires Valid()
      modifies this
      ensures Valid() && State() == Step(old(State()), PaymentDone)
      ensures view == Profile
    {
      NavigateToProfile();
    }

    /** The dialog's `onClose` callback; the dialog is on screen. */
    method CloseDialog()
      requires Valid() && authOpen
      modifies this
      ensures Valid() && State() == Navigation.CloseDialog(old(State()))
      ensures State() == Step(old(State()), DialogClose)
      ensures !authOpen && pending == old(pending)
    {
      authOpen := false;
    }

    /** The dialog's submit button, its success signal wired to `HandleAuthSuccess`;
        the dialog is on screen. */
    method DialogSubmit()
      requires Valid() && authOpen
      modifies this, dialog
      ensures Valid() && State() == Navigation.DialogSubmit(old(State()))
      ensures State() == Step(old(State()), Submit)
    {
      var success := dialog.Submit();
      if success {
        HandleAuthSuccess();
      }
    }

    /** An edit of a code slot; the code inputs exist only at the code step. */
    method DialogOtpChange(index: nat, value: string) returns (focus: Option<nat>)
      requires Valid() && index < OtpSlots
      requires authOpen && dialog.step == Otp
      modifies dialog
      ensures Valid() && State() == Navigation.DialogOtpChange(old(State()), index, value)
      ensures State() == Step(old(State()), OtpInput(index, value))
      ensures focus == FocusAfterChange(index, value)
    {
      focus := dialog.OtpChange(index, value);
    }

    /** A key press in a code slot; it moves the focus at most. */
    method DialogKeyDown(index: nat, key: string) returns (focus: Option<nat>)
      requires Valid() && index < OtpSlots
      requires authOpen && dialog.step == Otp
      ensures focus.Some? <==> key == "Backspace" && dialog.otp[index] == "" && index > 0
      ensures focus.Some? ==> focus.value == index - 1
    {
      focus := dialog.KeyDown(index, key);
    }

    /** The login/sign-up link; it exists only at the credentials step. */
    method DialogToggle()
      requires Valid() && authOpen && dialog.step == Form
      modifies dialog
      ensures Valid() && State() == Navigation.DialogToggle(old(State()))
      ensures State() == Step(old(State()), ToggleMode)
    {
      dialog.ToggleView();
    }

    /** The Back button; it exists only at the code step. */
    method DialogBack()
      requires Valid() && authOpen && dialog.step == Otp
      modifies dialog
      ensures Valid() && State() == Navigation.DialogBack(old(State()))
      ensures State() == Step(old(State()), OtpBack)
    {
      dialog.Back();
    }
  }

  /** A client of the object: a logged-out order request, then a login,
      ends on the payment screen. */
  method OrderThenLogin(app: Storefront)
    requires app.Valid() && !app.loggedIn && !app.authOpen
    modifies app, app.dialog
    ensures app.Valid() && app.view == Payment && app.loggedIn && app.pending == None
  {
    app.HandleOrderClick();
    app.DialogSubmit();
  }
}
