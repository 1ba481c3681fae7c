/** The storefront's navigation and login-gate controller as values: which
    screen is shown, the selected course, the login dialog's flags, the login
    state and the single pending-route slot, together with the dialog's own
    state. Each handler is a function from state to state; `Step` and `Run`
    replay user events, and the lemmas state the gate-then-replay protocol. */
module Navigation {

  import opened Wrappers
  import opened Catalog
  import opened AuthModal

  datatype View = Home | Details | Profile | Payment

  datatype AppState = AppState(
    view: View,
    selected: Option<Course>,
    authOpen: bool,
    authView: Mode,
    loggedIn: bool,
    pending: Option<View>,
    dialog: DialogState
  )

  /** The first render: home screen, nothing selected, logged out, the dialog
      closed and holding its initial state. */
  const Initial: AppState := AppState(Home, None, false, Login, false, None, Reset(Login))

  /** The dialog's reset effect, run after a handler has turned a state whose
      flags were `wasOpen`/`prevView` into `next`: it resets the dialog to
      `next.authView` when the dialog is open and was closed before or had a
      different initial view. */
  function OpenEffect(wasOpen: bool, prevView: Mode, next: AppState): (r: AppState)
    ensures r.(dialog := next.dialog) == next
    ensures r.dialog != next.dialog ==> r.dialog == Reset(next.authView)
    ensures next.authOpen && !wasOpen ==> r.dialog == Reset(next.authView)
    ensures next.authOpen && prevView != next.authView ==> r.dialog == Reset(next.authView)
    ensures wasOpen && prevView == next.authView ==> r == next
    ensures !next.authOpen ==> r == next
  {
    if next.authOpen && (!wasOpen || prevView != next.authView) then next.(dialog := Reset(next.authView))
    else next
  }

  /** Logo click, and the Back buttons of the details and payment screens. */
  function NavigateToHome(s: AppState): (r: AppState)
    ensures r.view == Home && r.selected == None
    ensures r.loggedIn == s.loggedIn && r.pending == s.pending
    ensures r.authOpen == s.authOpen && r.authView == s.authView && r.dialog == s.dialog
  {
    s.(view := Home, selected := None)
  }

  /** A course card was activated. */
  function CourseSelect(s: AppState, c: Course): (r: AppState)
    ensures r.view == Details && r.selected == Some(c)
    ensures r.loggedIn == s.loggedIn && r.pending == s.pending
    ensures r.authOpen == s.authOpen && r.authView == s.authView && r.dialog == s.dialog
  {
    s.(selected := Some(c), view := Details)
  }

  /** The profile button; there is no login check here. */
  function NavigateToProfile(s: AppState): (r: AppState)
    ensures r.view == Profile
    ensures r.selected == s.selected && r.loggedIn == s.loggedIn && r.pending == s.pending
    ensures r.authOpen == s.authOpen && r.authView == s.authView && r.dialog == s.dialog
  {
    s.(view := Profile)
  }

  /** Opening the dialog with a given initial view, followed by its reset effect. */
  function OpenAuth(s: AppState, m: Mode): (r: AppState)
    ensures r.authOpen && r.authView == m
    ensures r.view == s.view && r.selected == s.selected && r.loggedIn == s.loggedIn && r.pending == s.pending
    ensures !s.authOpen || s.authView != m ==> r.dialog == Reset(m)
    ensures s.authOpen && s.authView == m ==> r.dialog == s.dialog
  {
    OpenEffect(s.authOpen, s.authView, s.(authView := m, authOpen := true))
  }

  /** The header's login button. */
  function OpenLogin(s: AppState): (r: AppState)
    ensures r.authOpen && r.authView == Login
    ensures r.view == s.view && r.selected == s.selected && r.loggedIn == s.loggedIn && r.pending == s.pending
    ensures !s.authOpen || s.authView != Login ==> r.dialog == Reset(Login)
    ensures s.authOpen && s.authView == Login ==> r.dialog == s.dialog
  {
    OpenAuth(s, Login)
  }

  /** The header's sign-up button. */
  function OpenSignup(s: AppState): (r: AppState)
    ensures r.authOpen && r.authView == Signup
    ensures r.view == s.view && r.selected == s.selected && r.loggedIn == s.loggedIn && r.pending == s.pending
    ensures !s.authOpen || s.authView != Signup ==> r.dialog == Reset(Signup)
    ensures s.authOpen && s.authView == Signup ==> r.dialog == s.dialog
  {
    OpenAuth(s, Signup)
  }

  /** The dialog reported success: log in, close the dialog, and replay the
      pending route if there is one. */
  function AuthSuccess(s: AppState): (r: AppState)
    ensures r.loggedIn && !r.authOpen && r.pending == None
    ensures r.view == (if s.pending.Some? then s.pending.value else s.view)
    ensures r.selected == s.selected && r.authView == s.authView && r.dialog == s.dialog
  {
    var s1 := s.(loggedIn := true, authOpen := false);
    if s1.pending.Some? then s1.(view := s1.pending.value, pending := None) else s1
  }

  /** The login gate: go to `target` when logged in; otherwise remember it and
      open the dialog in login view. */
  function ProtectedAction(s: AppState, target: View): (r: AppState)
    ensures s.loggedIn ==> r == s.(view := target)
    ensures !s.loggedIn ==> r.pending == Some(target) && r.authOpen && r.authView == Login
    ensures !s.loggedIn ==> r.view == s.view && r.selected == s.selected && !r.loggedIn
    ensures !s.loggedIn && (!s.authOpen || s.authView != Login) ==> r.dialog == Reset(Login)
    ensures !s.loggedIn && s.authOpen && s.authView == Login ==> r.dialog == s.dialog
  {
    if s.loggedIn then s.(view := target)
    else OpenLogin(s.(pending := Some(target)))
  }

  /** The dialog's close button and backdrop: only the open flag changes. */
  function CloseDialog(s: AppState): (r: AppState)
    ensures !r.authOpen && r.pending == s.pending && r.view == s.view
    ensures r.(authOpen := s.authOpen) == s
  {
    s.(authOpen := false)
  }

  /** The dialog's submit button, with the success signal routed to `AuthSuccess`. */
  function DialogSubmit(s: AppState): (r: AppState)
    ensures SubmitStep(s.dialog).1 ==> r == AuthSuccess(s)
    ensures !SubmitStep(s.dialog).1 ==> r == s.(dialog := s.dialog.(step := Otp))
  {
    var (d, success) := SubmitStep(s.dialog);
    var s1 := s.(dialog := d);
    if success then AuthSuccess(s1) else s1
  }

  /** An edit of code slot `i` (the focus move it causes is not state). */
  function DialogOtpChange(s: AppState, i: nat, v: string): (r: AppState)
    requires i < |s.dialog.otp|
    ensures r.dialog.otp == ChangeOtp(s.dialog.otp, i, v)
    ensures r == s.(dialog := r.dialog) && r.dialog == s.dialog.(otp := r.dialog.otp)
  {
    s.(dialog := s.dialog.(otp := ChangeOtp(s.dialog.otp, i, v)))
  }

  /** The dialog's login/sign-up link. */
  function DialogToggle(s: AppState): (r: AppState)
    ensures r.dialog.mode != s.dialog.mode
    ensures r.dialog.step == s.dialog.step && r.dialog.otp == s.dialog.otp
    ensures r.(dialog := s.dialog) == s
  {
    s.(dialog := s.dialog.(mode := Flip(s.dialog.mode)))
  }

  /** The code step's Back button. */
  function DialogBack(s: AppState): (r: AppState)
    ensures r.dialog.step == Form && r.dialog.otp == s.dialog.otp && r.dialog.mode == s.dialog.mode
    ensures r == s.(dialog := r.dialog)
  {
    s.(dialog := s.dialog.(step := Form))
  }

  /** What the main area shows for each view. */
  datatype Screen = HomeScreen | DetailsScreen(course: Course) | ProfileScreen | PaymentScreen | Blank

  function RenderContent(s: AppState): (r: Screen)
    ensures r == Blank <==> s.view == Details && s.selected.None?
    ensures r.DetailsScreen? <==> s.view == Details && s.selected.Some?
    ensures r.DetailsScreen? ==> s.selected == Some(r.course)
    ensures r == HomeScreen <==> s.view == Home
    ensures r == ProfileScreen <==> s.view == Profile
    ensures r == PaymentScreen <==> s.view == Payment
  {
    match s.view
    case Profile => ProfileScreen
    case Payment => PaymentScreen
    case Details => if s.selected.Some? then DetailsScreen(s.selected.value) else Blank
    case Home => HomeScreen
  }

  /** The user events that reach the controller. `Gated` is a request for a
      login-protected view; the order and enroll buttons send `Gated(Payment)`. */
  datatype Event =
    | LogoClick
    | SelectCourse(course: Course)
    | ProfileClick
    | LoginClick
    | SignupClick
    | Gated(target: View)
    | PaymentDone
    | DialogClose
    | Submit
    | OtpInput(index: nat, value: string)
    | ToggleMode
    | OtpBack

  /** One event. A dialog control only acts while it is on screen: the dialog
      is open, the code inputs and Back exist at the code step, the mode link
      at the credentials step; otherwise the event changes nothing. */
  function Step(s: AppState, e: Event): (r: AppState)
    ensures e.PaymentDone? ==> r == NavigateToProfile(s) && r.view == Profile
    ensures e.Gated? ==> r == ProtectedAction(s, e.target)
    ensures (e.DialogClose? || e.Submit?) && !s.authOpen ==> r == s
    ensures e.ToggleMode? && (!s.authOpen || s.dialog.step != Form) ==> r == s
    ensures (e.OtpBack? || e.OtpInput?) && (!s.authOpen || s.dialog.step != Otp) ==> r == s
    ensures e.OtpInput? && s.authOpen && s.dialog.step == Otp && e.index < |s.dialog.otp| ==>
      r == DialogOtpChange(s, e.index, e.value)
    ensures s.authOpen && e.Submit? ==> r == DialogSubmit(s)
  {
    match e
    case LogoClick => NavigateToHome(s)
    case SelectCourse(c) => CourseSelect(s, c)
    case ProfileClick => NavigateToProfile(s)
    case LoginClick => OpenLogin(s)
    case SignupClick => OpenSignup(s)
    case Gated(t) => ProtectedAction(s, t)
    case PaymentDone => NavigateToProfile(s)
    case DialogClose => if s.authOpen then CloseDialog(s) else s
    case Submit => if s.authOpen then DialogSubmit(s) else s
    case OtpInput(i, v) =>
      if s.authOpen && s.dialog.step == Otp && i < |s.dialog.otp| then DialogOtpChange(s, i, v) else s
    case ToggleMode => if s.authOpen && s.dialog.step == Form then DialogToggle(s) else s
    case OtpBack => if s.authOpen && s.dialog.step == Otp then DialogBack(s) else s
  }

  function Run(s: AppState, events: seq<Event>): AppState
    decreases events
  {
    if events == [] then s else Run(Step(s, events[0]), events[1..])
  }

  lemma RunCons(s: AppState, e: Event, events: seq<Event>)
    ensures Run(s, [e] + events) == Run(Step(s, e), events)
  {
    assert ([e] + events)[1..] == events;
  }

  /** No event ever logs the user out. */
  lemma {:induction false} LoggedInStays(s: AppState, events: seq<Event>)
    requires s.loggedIn
    ensures Run(s, events).loggedIn
    decreases events
  {
    if events != [] {
      LoggedInStays(Step(s, events[0]), events[1..]);
    }
  }

  /** A completed payment always lands on the profile screen, logged in or not. */
  lemma PaymentLandsOnProfile(s: AppState)
    ensures Step(s, PaymentDone).view == Profile
    ensures RenderContent(Step(s, PaymentDone)) == ProfileScreen
  {
  }

  /** The invariant of every state the storefront reaches: the details view
      has a course to show, a pending route is never the details view, and
      the code has four slots. */
  predicate Consistent(s: AppState)
  {
    && (s.view == Details ==> s.selected.Some?)
    && (s.pending.Some? ==> s.pending.value != Details)
    && WellFormed(s.dialog)
  }

  /** The gated requests the storefront issues never target the details view
      (the only one it issues is `Gated(Payment)`). */
  predicate Live(e: Event)
  {
    !(e.Gated? && e.target == Details)
  }

  lemma StepConsistent(s: AppState, e: Event)
    requires Consistent(s) && Live(e)
    ensures Consistent(Step(s, e))
  {
  }

  lemma {:induction false} RunConsistent(s: AppState, events: seq<Event>)
    requires Consistent(s)
    requires forall k :: 0 <= k < |events| ==> Live(events[k])
    ensures Consistent(Run(s, events))
    decreases events
  {
    if events != [] {
      StepConsistent(s, events[0]);
      RunConsistent(Step(s, events[0]), events[1..]);
    }
  }

  /** From the first render, whatever the user does, the main area is never
      blank: the details view always has its course. */
  lemma NeverBlank(events: seq<Event>)
    requires forall k :: 0 <= k < |events| ==> Live(events[k])
    ensures RenderContent(Run(Initial, events)) != Blank
    ensures |Run(Initial, events).dialog.otp| == OtpSlots
  {
    RunConsistent(Initial, events);
  }

  function GatedAll(targets: seq<View>): (events: seq<Event>)
    ensures |events| == |targets|
    ensures forall k :: 0 <= k < |targets| ==> events[k] == Gated(targets[k])
  {
    seq(|targets|, k requires 0 <= k < |targets| => Gated(targets[k]))
  }

  /** Repeated gated requests while logged out: the dialog is open in login
      view, the screen has not moved, and the slot holds the last request. */
  lemma {:induction false} LastRequestWins(s: AppState, targets: seq<View>)
    requires !s.loggedIn && |targets| > 0
    ensures Run(s, GatedAll(targets)).pending == Some(targets[|targets| - 1])
    ensures Run(s, GatedAll(targets)).authOpen && Run(s, GatedAll(targets)).authView == Login
    ensures Run(s, GatedAll(targets)).view == s.view && !Run(s, GatedAll(targets)).loggedIn
    decreases |targets|
  {
    var events := GatedAll(targets);
    var s1 := Step(s, events[0]);
    assert events == [events[0]] + events[1..];
    RunCons(s, events[0], events[1..]);
    if |targets| == 1 {
      assert events[1..] == [];
    } else {
      assert events[1..] == GatedAll(targets[1..]);
      LastRequestWins(s1, targets[1..]);
    }
  }

  /** Gate, then log in: a logged-out request for `t` with the dialog closed,
      followed by a login submit, ends logged in on `t` with the slot empty. */
  lemma GateThenLogin(s: AppState, t: View)
    requires !s.loggedIn && !s.authOpen
    ensures var r := Run(s, [Gated(t), Submit]);
      r.view == t && r.loggedIn && !r.authOpen && r.pending == None
  {
    RunCons(s, Gated(t), [Submit]);
    RunCons(Step(s, Gated(t)), Submit, []);
  }

  /** Gate, then sign up: the first submit only moves to the code step and
      does not resolve the request; the code submit does. Whatever is typed
      into a code slot in between (`v` into slot `i`) is never checked. */
  lemma GateThenSignup(s: AppState, t: View, i: nat, v: string)
    requires !s.loggedIn && !s.authOpen && i < OtpSlots
    ensures var r := Run(s, [Gated(t), ToggleMode, Submit]);
      r.view == s.view && r.pending == Some(t) && !r.loggedIn && r.authOpen && r.dialog.step == Otp
    ensures var r := Run(s, [Gated(t), ToggleMode, Submit, OtpInput(i, v), Submit]);
      r.view == t && r.loggedIn && !r.authOpen && r.pending == None
  {
    var s1 := Step(s, Gated(t));
    var s2 := Step(s1, ToggleMode);
    var s3 := Step(s2, Submit);
    assert s3.view == s.view && s3.pending == Some(t) && s3.authOpen && s3.dialog.step == Otp;
    assert s3.dialog.mode == Signup && |s3.dialog.otp| == OtpSlots;
    var s4 := Step(s3, OtpInput(i, v));
    assert s4.pending == Some(t) && s4.authOpen && s4.dialog.step == Otp;
    RunCons(s, Gated(t), [ToggleMode, Submit]);
    RunCons(s1, ToggleMode, [Submit]);
    RunCons(s2, Submit, []);
    RunCons(s, Gated(t), [ToggleMode, Submit, OtpInput(i, v), Submit]);
    RunCons(s1, ToggleMode, [Submit, OtpInput(i, v), Submit]);
    RunCons(s2, Submit, [OtpInput(i, v), Submit]);
    RunCons(s3, OtpInput(i, v), [Submit]);
    RunCons(s4, Submit, []);
  }

  /** The pending route is replayed once: after it has been, a second login
      does not move the screen. */
  lemma ReplayedOnce(s: AppState)
    ensures AuthSuccess(AuthSuccess(s)).view == AuthSuccess(s).view
    ensures AuthSuccess(AuthSuccess(s)) == AuthSuccess(s)
  {
  }

  /** After gate and login, going home and logging in again stays home. */
  lemma NoSecondReplay(s: AppState, t: View)
    requires !s.loggedIn && !s.authOpen
    ensures Run(s, [Gated(t), Submit, LogoClick, LoginClick, Submit]).view == Home
  {
    var s1 := Step(s, Gated(t));
    var s2 := Step(s1, Submit);
    var s3 := Step(s2, LogoClick);
    var s4 := Step(s3, LoginClick);
    assert s2.pending == None && !s2.authOpen;
    assert s4.dialog == Reset(Login) && s4.authOpen && s4.pending == None && s4.view == Home;
    RunCons(s, Gated(t), [Submit, LogoClick, LoginClick, Submit]);
    RunCons(s1, Submit, [LogoClick, LoginClick, Submit]);
    RunCons(s2, LogoClick, [LoginClick, Submit]);
    RunCons(s3, LoginClick, [Submit]);
    RunCons(s4, Submit, []);
  }

  /** Only a gated request fills the pending-route slot: from an empty slot,
      any run of events without one leaves it empty. */
  lemma {:induction false} NoGateKeepsSlotEmpty(s: AppState, events: seq<Event>)
    requires s.pending == None
    requires forall k :: 0 <= k < |events| ==> !events[k].Gated?
    ensures Run(s, events).pending == None
    decreases events
  {
    if events != [] {
      var s1 := Step(s, events[0]);
      assert s1.pending == None;
      NoGateKeepsSlotEmpty(s1, events[1..]);
    }
  }

  /** After a login has replayed the pending route, no later login moves the
      screen, whatever happened in between, unless a new gated request came. */
  lemma ReplayOnceAfterAnyEvents(s: AppState, events: seq<Event>)
    requires forall k :: 0 <= k < |events| ==> !events[k].Gated?
    ensures var r := Run(AuthSuccess(s), events); AuthSuccess(r).view == r.view
  {
    NoGateKeepsSlotEmpty(AuthSuccess(s), events);
  }

  /** Closing the dialog keeps the pending route, so a later, unrelated login
      still redirects to it. */
  lemma StaleRouteAfterClose(s: AppState, t: View)
    requires s.authOpen && s.pending == Some(t)
    ensures Run(s, [DialogClose]).pending == Some(t)
    ensures Run(s, [DialogClose, LoginClick, Submit]).view == t
    ensures Run(s, [DialogClose, SignupClick, Submit, Submit]).view == t
  {
    var c := Step(s, DialogClose);
    RunCons(s, DialogClose, []);
    var l := Step(c, LoginClick);
    assert l.dialog == Reset(Login);
    RunCons(s, DialogClose, [LoginClick, Submit]);
    RunCons(c, LoginClick, [Submit]);
    RunCons(l, Submit, []);
    var g := Step(c, SignupClick);
    var g2 := Step(g, Submit);
    assert g.dialog == Reset(Signup) && g2.dialog.step == Otp && g2.authOpen && g2.pending == Some(t);
    RunCons(s, DialogClose, [SignupClick, Submit, Submit]);
    RunCons(c, SignupClick, [Submit, Submit]);
    RunCons(g, Submit, [Submit]);
    RunCons(g2, Submit, []);
  }

  /** The mode link is not on screen at the code step, so it does nothing there. */
  lemma ToggleOnlyAtForm(s: AppState)
    requires s.dialog.step == Otp
    ensures Step(s, ToggleMode) == s
  {
  }

  /** Whether a submit signals success never depends on the code entered. */
  lemma SubmitIgnoresCode(d: DialogState, code: seq<string>)
    ensures SubmitStep(d.(otp := code)).1 == SubmitStep(d).1
  {
  }

  /** Opening the dialog in login view right after sign-up view, without a
      close in between, resets the step and the code. */
  lemma ReopenResets(s: AppState)
    ensures Step(Step(s, SignupClick), LoginClick).dialog == Reset(Login)
  {
  }
}
