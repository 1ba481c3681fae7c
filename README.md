# Storefront navigation, login gate, login dialog and cart pricing

A model of the logic inside a single-page storefront for video-prompt
packages. Most of the storefront is display-only. Three pieces hold logic, and
this project models them:

- **The top-level controller.** It tracks the current view (home, details,
  profile, payment), the selected course, the login dialog's open flag and
  initial view, the login flag, and one pending-route slot. A request for a
  login-protected view made while logged out is stored in that slot, and the
  login dialog opens. The next successful login replays the stored route once.
- **The login dialog.** It has a login/sign-up mode, a credentials step
  followed by a one-time-code step, and a four-slot code edited one slot at a
  time. It resets itself when it is opened, and when its initial view
  changes while it is open.
- **The cart price summary.** The subtotal is the sum of the discounted
  prices. Tax is 8 % of the subtotal, and the total is subtotal plus tax.

How the files map to the source:

- `catalog.dfy`: the `Course` record.
- `cart.dfy`: pure pricing functions and their lemmas. Prices are exact `real`s.
- `auth_modal.dfy`: the dialog. Pure functions on `DialogState` give the
  meaning of each handler. Class `AuthDialog` keeps the same state in
  fields, and each of its methods is proved against those functions. The
  one-slot rule counts the input's length in UTF-16 units, as the browser
  does (`Utf16Length`), not in characters.
- `navigation.dfy`: the controller as values. `AppState` holds the
  controller's fields together with the dialog's state. There is one function
  per handler. `Step` applies one user event and `Run` applies a list of
  events. The lemmas state the gate-then-replay protocol over event lists.
- `app.dfy`: class `Storefront`. It has the controller's fields, owns an
  `AuthDialog`, and has one method per handler. Each method is proved to
  change `State()` exactly as the matching `Navigation` function does. The
  dialog methods require the condition under which their control is on
  screen, and under it each method also changes `State()` as `Step` does.

The dialog's reset (a React effect that depends on the open flag and the
initial view) is written out as `OpenEffect`. Every handler that can open the
dialog or change its initial view runs it. The dialog's success callback is
wired to `HandleAuthSuccess`, and its close callback clears only the open
flag, as in src/App.tsx:167-172.

Three behaviours are modelled as the code has them, although a reader might expect otherwise:

- Reopening the dialog while it is already open resets it only if the
  initial view changes. The effect runs only when one of its dependencies
  changes (src/components/AuthModel.tsx:19-25). `OpenAuth` states both cases.
- Closing the dialog keeps the pending route. A later, unrelated login then
  still goes to that route (`StaleRouteAfterClose`).
- At the code step the mode link is not on screen, so a toggle does nothing
  there (`ToggleOnlyAtForm`). The Back button returns to the credentials step
  and keeps the code.

## Model

| member | source | states |
|---|---|---|
| Cart.FoldPrices | src/components/Cart.tsx:15 | the `reduce` fold from accumulator `acc` equals `acc` plus the sum of the discounted prices |
| Cart.Subtotal | src/components/Cart.tsx:15 | the subtotal is the sum of the discounted prices; the empty list gives 0 |
| Cart.Summary | src/components/Cart.tsx:15-17 | subtotal = sum of prices, tax = subtotal × 8/100, total = subtotal + tax = subtotal × 108/100; empty cart gives 0, 0, 0 |
| Cart.CartBody | src/components/Cart.tsx:33-48 | the empty-state panel is shown exactly when there are no items; otherwise the summary panel shows the summary |
| Cart.SubtotalAppend | src/components/Cart.tsx:15 | fold step: subtotal(items + [x]) = subtotal(items) + x.discountPrice |
| Cart.SummaryOrderIndependent | src/components/Cart.tsx:15-17 | two lists holding the same items (same multiset), in any order, have the same summary |
| Cart.SummaryBounds | src/components/Cart.tsx:15-17 | with non-negative prices, 0 ≤ tax and 0 ≤ subtotal ≤ total |
| Cart.TwoItemExample | src/components/Cart.tsx:15-17 | items at 49.99 and 29.99 give subtotal 79.98, tax 6.3984, total 86.3784 |
| AuthModal.SubmitStep | src/components/AuthModel.tsx:27-35 | success is signalled iff the mode is login or the step is the code step; otherwise the step becomes the code step; mode and code never change |
| AuthModal.Utf16Length | src/components/AuthModel.tsx:38 | the browser's `length` of a string: at least its number of characters and at most twice that, and 0 exactly for the empty string |
| AuthModal.ChangeOtp | src/components/AuthModel.tsx:37-41 | input longer than one UTF-16 unit leaves the code unchanged; otherwise slot i becomes v, every other slot is kept, and the length is kept |
| AuthModal.FocusAfterChange | src/components/AuthModel.tsx:43-47 | the focus moves iff exactly one UTF-16 unit was entered and i < 3, and then it moves to slot i + 1 |
| AuthModal.FocusAfterKey | src/components/AuthModel.tsx:50-55 | the focus moves iff the key is Backspace, slot i is empty and i > 0, and then it moves to slot i − 1 |
| AuthModal.TypeKeys | src/components/AuthModel.tsx:37-47 | typing a string of keys, each into the focused slot, keeps the code at four slots and the focus in range |
| AuthModal.TypeKeysFills | src/components/AuthModel.tsx:37-47 | typing single characters from slot f fills slots f, f+1, … in order, and the focus ends after the last slot typed, or on slot 3 |
| AuthModal.EnterFourDigits | src/components/AuthModel.tsx:37-47 | entering "1","2","3","4" from slot 0 of a cleared code gives ["1","2","3","4"] with the focus on slot 3 |
| AuthModal.OverlongRejected | src/components/AuthModel.tsx:38 | a string of two or more characters changes neither the code nor the focus |
| AuthModal.AstralCharRejected | src/components/AuthModel.tsx:38 | a single character above U+FFFF (two UTF-16 units, e.g. U+1F600) changes neither the code nor the focus |
| AuthModal.AuthDialog.constructor | src/components/AuthModel.tsx:14-16 | the first render has mode = initial view, the credentials step and four empty slots |
| AuthModal.AuthDialog.Open | src/components/AuthModel.tsx:19-25 | the reset: mode = initial view, credentials step, cleared code |
| AuthModal.AuthDialog.Submit | src/components/AuthModel.tsx:27-35 | it moves to the code step without success in sign-up mode at the credentials step; in every other case it returns success and changes nothing |
| AuthModal.AuthDialog.OtpChange | src/components/AuthModel.tsx:37-48 | the code becomes `ChangeOtp(old code, i, v)` and the returned focus move is `FocusAfterChange(i, v)` |
| AuthModal.AuthDialog.KeyDown | src/components/AuthModel.tsx:50-55 | it returns a move to slot i − 1 iff Backspace hits an empty slot i > 0, and it modifies nothing |
| AuthModal.AuthDialog.ToggleView | src/components/AuthModel.tsx:180 | it flips login and sign-up, and keeps the step and the code |
| AuthModal.AuthDialog.Back | src/components/AuthModel.tsx:196 | it returns to the credentials step, and keeps the mode and the code |
| Navigation.OpenEffect | src/components/AuthModel.tsx:19-25 | only the dialog state can change; it is reset to the initial view when the dialog is open and was closed before, or is open and had another initial view; an open dialog whose initial view is unchanged, and a closed dialog, are left alone |
| Navigation.NavigateToHome | src/App.tsx:39-43 | view = home, no selection; login flag, dialog and pending route unchanged |
| Navigation.CourseSelect | src/App.tsx:45-49 | view = details, selection = the course; login flag, dialog and pending route unchanged |
| Navigation.NavigateToProfile | src/App.tsx:51-54 | view = profile in every state, logged in or not; nothing else changes |
| Navigation.OpenAuth | src/App.tsx:57-65 | the dialog is open with the requested initial view; it is reset unless it was already open with that view; view, selection, login flag and pending route are unchanged |
| Navigation.OpenLogin | src/App.tsx:57-60 | the dialog is open in login view; it is reset to login unless it was already open in login view; view, selection, login flag and pending route are unchanged |
| Navigation.OpenSignup | src/App.tsx:62-65 | the dialog is open in sign-up view; it is reset to sign-up unless it was already open in sign-up view; view, selection, login flag and pending route are unchanged |
| Navigation.AuthSuccess | src/App.tsx:67-76 | logged in, dialog closed, pending route cleared; view = the pending route if there was one, otherwise unchanged |
| Navigation.ProtectedAction | src/App.tsx:79-87 | logged in: only the view changes, to the target; logged out: pending = target, the dialog opens in login view and is reset to login unless it was already open in login view, and view and login flag are unchanged |
| Navigation.CloseDialog | src/App.tsx:169 | only the open flag changes, to false; the pending route survives |
| Navigation.DialogSubmit | src/App.tsx:167-172 | a submit that signals success is exactly `AuthSuccess`; otherwise the dialog only moves to the code step |
| Navigation.DialogOtpChange | src/components/AuthModel.tsx:37-41 | only the dialog's code changes, as `ChangeOtp` says |
| Navigation.DialogToggle | src/components/AuthModel.tsx:180 | only the dialog's mode changes, to the other mode |
| Navigation.DialogBack | src/components/AuthModel.tsx:196 | only the dialog's step changes, to credentials; the code is kept |
| Navigation.RenderContent | src/App.tsx:103-137 | each view maps to its screen; the details view shows the selected course, and shows nothing exactly when there is no selection |
| Navigation.Step | src/App.tsx:96-172 | payment success is the profile navigation; a gated request is `ProtectedAction`; close and submit do nothing while the dialog is closed, the mode link nothing unless it is open at the credentials step, the code inputs and Back nothing unless it is open at the code step; otherwise submit and code input are the dialog handlers |
| Navigation.LoggedInStays | src/App.tsx:39-100 | once logged in, no sequence of events logs the user out |
| Navigation.PaymentLandsOnProfile | src/App.tsx:97-100 | payment success always ends on the profile screen |
| Navigation.StepConsistent | src/App.tsx:39-100 | every event except a gated request for details keeps the invariant: the details view has a selection, the pending route is not details, and the code has four slots |
| Navigation.RunConsistent | src/App.tsx:39-100 | the invariant holds after any list of such events |
| Navigation.NeverBlank | src/App.tsx:119-126 | from the first render, no event list made of the storefront's own requests reaches a blank details screen, and the code keeps four slots |
| Navigation.LastRequestWins | src/App.tsx:79-87 | one or more gated requests while logged out leave the dialog open in login view, the view unchanged, and the last target in the slot |
| Navigation.GateThenLogin | src/App.tsx:67-87 | a logged-out gated request for t with the dialog closed, then a login submit, ends logged in on t with the slot empty and the dialog closed |
| Navigation.GateThenSignup | src/App.tsx:67-87 | on the sign-up path, the first submit only moves to the code step, keeps the request and stays logged out; after any input v into a code slot, the code submit lands on t |
| Navigation.ReplayedOnce | src/App.tsx:67-76 | a second success right after a first changes nothing, including the view |
| Navigation.NoSecondReplay | src/App.tsx:72-75 | after gate, login and a return home, logging in again stays on home |
| Navigation.NoGateKeepsSlotEmpty | src/App.tsx:67-87 | from an empty pending slot, any list of events without a gated request leaves the slot empty |
| Navigation.ReplayOnceAfterAnyEvents | src/App.tsx:72-75 | after a login, any list of events without a new gated request, followed by another login, leaves the view where those events put it |
| Navigation.StaleRouteAfterClose | src/App.tsx:57-76 | closing the dialog keeps the pending route; a later login, or a sign-up and code submit, still goes to it |
| Navigation.ToggleOnlyAtForm | src/components/AuthModel.tsx:90 | at the code step the mode toggle has no effect |
| Navigation.SubmitIgnoresCode | src/components/AuthModel.tsx:31-34 | whether a submit succeeds never depends on the code entered |
| Navigation.ReopenResets | src/components/AuthModel.tsx:19-25 | opening in login view right after sign-up view, with no close between, resets the step and the code |
| App.Storefront.constructor | src/App.tsx:27-36 | the initial state: home, no selection, dialog closed with login view, logged out, no pending route |
| App.Storefront.RunOpenEffect | src/components/AuthModel.tsx:19-25 | the state becomes `OpenEffect` of the flags before the handler and the state after it |
| App.Storefront.NavigateToHome | src/App.tsx:39-43 | the state changes as `Navigation.NavigateToHome`, which is `Step` of the logo click |
| App.Storefront.HandleCourseSelect | src/App.tsx:45-49 | the state changes as `Navigation.CourseSelect`, which is `Step` of the course selection |
| App.Storefront.NavigateToProfile | src/App.tsx:51-54 | the state changes as `Navigation.NavigateToProfile`, which is `Step` of the profile click; view = profile |
| App.Storefront.OpenLogin | src/App.tsx:57-60 | the state changes as `Navigation.OpenLogin`, which is `Step` of the login click: open, login view, dialog reset as the effect says |
| App.Storefront.OpenSignup | src/App.tsx:62-65 | the state changes as `Navigation.OpenSignup`, which is `Step` of the sign-up click: open, sign-up view, dialog reset as the effect says |
| App.Storefront.HandleAuthSuccess | src/App.tsx:67-76 | the state changes as `Navigation.AuthSuccess`: logged in, closed, slot cleared, view = old slot or old view |
| App.Storefront.HandleProtectedAction | src/App.tsx:79-87 | the state changes as `Navigation.ProtectedAction`, covering both the logged-in and the logged-out branch, which is `Step` of the gated request |
| App.Storefront.HandleEnroll | src/App.tsx:89-91 | a gated request for the payment view, as `ProtectedAction` and as `Step` |
| App.Storefront.HandleOrderClick | src/App.tsx:93-95 | a gated request for the payment view, as `ProtectedAction` and as `Step` |
| App.Storefront.HandlePaymentSuccess | src/App.tsx:97-100 | the state changes as the payment-success event does; view = profile |
| App.Storefront.CloseDialog | src/App.tsx:169 | called while the dialog is open, the state changes as `Navigation.CloseDialog` and as `Step` of the close event; the pending route is kept |
| App.Storefront.DialogSubmit | src/App.tsx:171 | called while the dialog is open, the dialog's submit followed by `HandleAuthSuccess` when it signals success gives `Navigation.DialogSubmit`, and `Step` of the submit event |
| App.Storefront.DialogOtpChange | src/components/AuthModel.tsx:37-48 | called at the code step, the state changes as `Navigation.DialogOtpChange` and as `Step` of the code input, and the focus move is returned |
| App.Storefront.DialogKeyDown | src/components/AuthModel.tsx:50-55 | called at the code step, it returns the backspace focus move and changes nothing |
| App.Storefront.DialogToggle | src/components/AuthModel.tsx:180 | called at the credentials step, the state changes as `Navigation.DialogToggle` and as `Step` of the mode link |
| App.Storefront.DialogBack | src/components/AuthModel.tsx:196 | called at the code step, the state changes as `Navigation.DialogBack` and as `Step` of the Back button |
| App.OrderThenLogin | src/App.tsx:67-95 | on the object: a logged-out order click followed by a login submit ends logged in on the payment view |

## Left out

- Rendering is not modelled: layout, styling, animation and icons. This covers the hero, about, footer, profile and course-details screens.
- The navigation bar's scroll listener and mobile menu are not modelled.
- The navigation bar shows login and sign-up only when logged out, and profile only when logged in. `Step` does not model this, so it accepts more event lists than the page allows. The lemmas over `Run` hold for this larger set.
- While the dialog is open, its backdrop covers the page. `Step` still accepts page events at that point, again a superset of what the page allows.
- Browser side effects are not modelled: `window.scrollTo`, the payment confirmation `alert`, and moving DOM focus. Focus is a returned slot index instead.
- React's effect scheduling and batching of state updates are not modelled. The reset effect is an explicit step run after each handler.
- The display rounding `toFixed(2)` is not modelled, and neither is IEEE-754 arithmetic. Prices are exact reals.
- The payment form is not modelled. It only calls its success callback, and its inputs hold no state.
- Static data is not modelled: the mock user record and the featured course.
- There is no cart store. The cart screen has no add or remove logic of its own, and the cart is not mounted by the top-level component. Pricing is modelled as pure functions over a list.
- The "Resend" and "Forgot Password?" buttons have no handlers in the source.
- The credential inputs are uncontrolled and hold no state the logic reads.
- AuthModal.ChangeOtp: requires the slot index to be within the code. The inputs are generated from the four slots, so no other index reaches the handler. For an index past the end, the source would grow the array.
- AuthModal.Utf16Length: a Dafny string is a sequence of Unicode scalar values, so a lone UTF-16 surrogate, which a JavaScript string can hold, cannot be given to the model.
- App.Storefront.CloseDialog, App.Storefront.DialogSubmit, App.Storefront.DialogOtpChange, App.Storefront.DialogKeyDown, App.Storefront.DialogToggle and App.Storefront.DialogBack require the dialog to be open, and the step at which their control is rendered (src/components/AuthModel.tsx:59, 90, 180, 188-226). The page cannot call them otherwise. `AuthModal.AuthDialog`'s methods carry no such guard.
