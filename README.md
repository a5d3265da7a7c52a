# Two-step authentication gate — a Dafny model

This project models the "second step" gate of a small Rails application. Devise
handles primary login. After that, a user must submit the value `Foo` before
actions behind `authenticate_user_with_second_step!` let them through. The gate
uses two values:

- the user record's `second_step_token`, assigned once by a `before_save`
  callback;
- the session's `session[:second_step_token]`, cleared by `SecondStepsController#new`
  and set to the user's token by a correct `SecondStepsController#create`.

The guard lets a request through when the two are equal by value.

Modules, one per source file plus two shared ones:

- `Tokens`: `Option`, Ruby's `String#blank?` (`Blank`), and the attribute
  query `second_step_token?` (`Present`: not `nil` and not blank). It also
  defines `Uuid`, the non-blank string that `SecureRandom.uuid` stands for.
- `Users` (app/models/user.rb): class `User`. Its `Save` runs the
  `generate_second_step_token` callback. It is specified by the function
  `TokenAfterSave`.
- `ApplicationController` (app/controllers/application_controller.rb): the
  guard as pure functions returning an `Outcome`. Devise's
  `authenticate_user!` is `AuthenticateUser`, which either lets the request
  on or halts it with `RedirectLogin`.
- `Sessions`: class `Session` (the token and the flash) and its value
  `SessionState`.
- `SecondSteps` (app/controllers/second_steps_controller.rb): methods `New`
  and `Create`, which update a `Session` in place. Each is proved equal to a
  specification function (`NewAction`, `CreateAction`). Both run behind
  `before_action :authenticate_user!`.
- `Scenarios`: traces of events (visit `new`, submit `create`, hit a
  protected action, save the user) over a `World`. The main theorems are
  proved by induction over traces:
  - for a signed-in user whose token is present, starting from a session
    without a token, the guard passes exactly when a correct confirmation
    came after the last visit to `new` (`GuardPassesIffElevated`);
  - starting from a session without a token, for any user and whether or
    not anyone is signed in, only such a confirmation can put a token into
    the session (`OnlyConfirmationElevates`);
  - wrong attempts are unlimited and change nothing after the first
    (`WrongAttemptsUnlimited`).

Edge cases of the code that the model keeps as written:

- The guard compares with Ruby `==`, so a user whose token is still `nil`
  passes with a session that has no token
  (`UnsavedUserPassesWithoutSecondStep`). A saved user always has a present
  token, so this case disappears at the first save (`SaveClosesUnsavedGap`,
  `SavedUserPassNeedsToken`).
- A wrong `create` leaves the session token unchanged, whatever it held.
  After a wrong `create` the token is absent exactly when it was absent
  before, for example right after `new` or in a fresh session.
- `second_step_token?` is false for a blank string as well as for `nil`
  (`PresentIffSomeNonSpace`), so a blank token is replaced on save. A
  correct `create` copies whatever token the user holds, blank or `nil`
  included.

## Model

| member | source | states |
|---|---|---|
| `Tokens.Present` | app/models/user.rb:11 | the `second_step_token?` query: false for `nil` and for blank strings, so a present token is a non-empty string |
| `Tokens.BlankIffAllSpace` | app/models/user.rb:11 | for every string, `Blank` holds exactly when every character is white space (the `[[:space:]]*` reading of `String#blank?`) |
| `Tokens.PresentIffSomeNonSpace` | app/models/user.rb:11 | for every optional string, `second_step_token?` holds exactly when it is not `nil` and has a character that is not white space |
| `Users.TokenAfterSave` | app/models/user.rb:7-12 | after any successful save the token is present; a present token is kept; otherwise the fresh UUID is taken |
| `Users.SaveIdempotent` | app/models/user.rb:7-11 | two consecutive saves leave the token one save leaves |
| `Users.TokenStableAcrossSaves` | app/models/user.rb:7-11 | a present token survives any number of saves, whatever UUIDs are drawn |
| `Users.User.Save` | app/models/user.rb:7-12 | a successful save leaves the token column equal to the callback's result, and it is present; no other field is written (``modifies this`secondStepToken``) |
| `ApplicationController.AuthenticateUser` | app/controllers/application_controller.rb:7 | the request goes on exactly when the caller is signed in; otherwise it halts with a login redirect |
| `ApplicationController.AuthenticationSecondStep` | app/controllers/application_controller.rb:11-15 | login redirect iff not signed in; pass iff signed in and session token equals the user token by value; second-step redirect iff signed in and they differ (including a `nil` session token) |
| `ApplicationController.AuthenticateUserWithSecondStep` | app/controllers/application_controller.rb:6-9 | primary authentication decides first (not signed in gives a login redirect); after it, the result is the second-step guard's |
| `ApplicationController.StaleTokenRejected` | app/controllers/application_controller.rb:13 | a session token copied from an earlier value fails once the user's token differs |
| `ApplicationController.SavedUserPassNeedsToken` | app/controllers/application_controller.rb:13 | for a user with a present token, pass iff signed in and the session holds that non-blank token |
| `ApplicationController.UnsavedUserPassesWithoutSecondStep` | app/controllers/application_controller.rb:13 | `nil == nil`: a user without a token passes with a token-less session |
| `SecondSteps.NewAction` | app/controllers/second_steps_controller.rb:2-6 | signed out: login redirect, token untouched; signed in: token cleared whatever its value, form rendered; the action itself writes no flash |
| `SecondSteps.CreateAction` | app/controllers/second_steps_controller.rb:8-16 | signed out: login redirect, token untouched; `foo == "Foo"`: token becomes exactly the user's, notice set, redirect home; otherwise the token is unchanged, the alert "That wasn't 'Foo'" is set and `new` is rendered |
| `SecondSteps.WrongCreateRepeatable` | app/controllers/second_steps_controller.rb:8-15 | a second wrong `create` gives the same session and outcome as the first (no counter) |
| `SecondSteps.New` | app/controllers/second_steps_controller.rb:2-6 | updates the session object in place exactly as `NewAction` says |
| `SecondSteps.Create` | app/controllers/second_steps_controller.rb:2-16 | updates the session object in place exactly as `CreateAction` says, reading the current user's token |
| `Scenarios.Step` | app/controllers/second_steps_controller.rb:2-16 | no event changes sign-in; only saves touch the user; a present token survives; the guard writes nothing; a signed-out caller gets a login redirect and its session token is untouched |
| `Scenarios.RunFrame` | app/controllers/second_steps_controller.rb:2-16 | along any trace of `new`, `create`, guarded requests (application_controller.rb:6-15) and saves (user.rb:11), sign-in is unchanged, and without saves the user token is unchanged |
| `Scenarios.SessionTokenAlongTrace` | app/controllers/second_steps_controller.rb:5-10 | signed in, present user token, fresh session: after any trace the session holds the user token if a correct `create` followed the last `new`, and nothing otherwise |
| `Scenarios.GuardPassesIffElevated` | app/controllers/application_controller.rb:13-14 | under the same conditions the guard passes iff the second step was completed and not revoked, and otherwise redirects to it |
| `Scenarios.OnlyConfirmationElevates` | app/controllers/second_steps_controller.rb:5-14 | from a fresh session, any user, signed in or not: a session token appears only after an unrevoked correct `create` |
| `Scenarios.PassImpliesElevated` | app/controllers/application_controller.rb:13 | from a session without a token: if the guard passes and the user's token is present, the trace completed the second step |
| `Scenarios.SignedOutChangesNothing` | app/controllers/second_steps_controller.rb:2 | a signed-out caller never changes the session token, and the guard sends it to login |
| `Scenarios.WrongAttemptsUnlimited` | app/controllers/second_steps_controller.rb:8-15 | any number n >= 1 of wrong submissions leaves the world one leaves |
| `Scenarios.CorrectAfterWrongAttempts` | app/controllers/second_steps_controller.rb:9-14 | for a signed-in caller: after any number of wrong submissions a correct one still sets the session token to the user's (no lockout) |
| `Scenarios.FreshSessionRedirected` | app/controllers/application_controller.rb:13-14 | a fresh session of a signed-in user with a token is redirected to the second step |
| `Scenarios.CorrectConfirmationPasses` | app/controllers/second_steps_controller.rb:5-10 | for a signed-in caller: `new`, then "Foo", then the guard passes (for every user token, `nil` included) |
| `Scenarios.WrongConfirmationRedirects` | app/controllers/second_steps_controller.rb:5-14 | for a signed-in caller: `new`, then a wrong value, then the guard redirects to the second step, for a non-`nil` user token |
| `Scenarios.RevisitingNewRevokes` | app/controllers/second_steps_controller.rb:5 | for a signed-in caller with a non-`nil` token: after a completed second step, visiting `new` again makes the guard redirect |
| `Scenarios.GuardTwiceSameOutcome` | app/controllers/application_controller.rb:11-15 | calling the guard twice in the same state gives the same outcome and state |
| `Scenarios.SaveClosesUnsavedGap` | app/models/user.rb:11 | a token-less user passes with a token-less session, but no longer does after one save |

## Left out

- Devise (`devise` modules, `authenticate_user!`, `user_signed_in?`, `current_user`): these are reduced to a signed-in flag and the current user's token. Password hashing, registration, recovery, remember-me and tracking are not modelled.
- SecondSteps.NewAction: for a signed-out caller, the model does not include the writes made by the failure response of Devise's login redirect. That response sets `flash[:alert]` to the sign-in message and, on GET, stores `session["user_return_to"]`. The model leaves the whole session value as it was.
- SecondSteps.CreateAction: for a signed-out caller, Devise's failure response sets `flash[:alert]`, and that write is not modelled. The model leaves the whole session value as it was.
- Scenarios.Step: for a signed-out request, the flash and return-to writes of Devise's login redirect are not modelled. Its "changes nothing" clause covers the modelled state only.
- Scenarios.SignedOutChangesNothing: its session equality covers the modelled state only. Devise's login redirect also writes `flash[:alert]` and `session["user_return_to"]`, and neither is modelled.
- Signing in and out inside a trace: sign-in status is fixed for each trace. Devise's session reset on sign-out is not modelled.
- `protect_from_forgery` (CSRF protection) is framework plumbing with no bearing on the gate.
- `SecureRandom.uuid`: modelled as a parameter that can be any non-blank string. Its format and uniqueness come from a library that is not part of this model.
- Users.User.Save: stands for a save that passes validation. A save that Devise's `:validatable` rejects returns false and runs no `before_save` callback, so the token stays as it was. The `SaveUser` event of `Scenarios.Step` is such a successful save too.
- ActiveRecord persistence and every other callback: only the `before_save` assignment is modelled. `User` stands for the other columns with a single `email` field.
- `Tokens.IsSpace`: treats `[[:space:]]` as exactly the Unicode White_Space characters. The Ruby regex engine's own tables are not part of this model.
- config/routes.rb is route declarations with no logic. Path helpers appear only as outcome names.
- View rendering, HTTP redirect mechanics, and the sweeping of the flash between requests: a request's effect is its `Outcome` plus the flash entries it writes.
- Request parameters that are not strings (arrays, hashes): `params[:foo]` is modelled as an optional string.
- The `things` controller behind `root_path` is not part of this model. "A protected action" is any action guarded by `authenticate_user_with_second_step!`.
- Concurrency between requests of the same session: each request is handled in sequence.
