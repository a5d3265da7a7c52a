/** The base controller of app/controllers/application_controller.rb: the
    primary-authentication check and the second-step guard. Both only
    choose an outcome; neither writes the session or the user, so they are
    functions of the values they read. */
module ApplicationController {
  import opened Tokens

  /** How a request ends, with flash and view rendering abstracted away. */
  datatype Outcome =
    | Pass                               // the action runs
    | RedirectLogin                      // Devise sends the caller to sign in
    | RedirectSecondStep                 // redirect to new_second_step_path
    | RenderNew                          // the `new` template is rendered
    | RedirectRootWithNotice(notice: string)
    | RenderNewWithAlert(alert: string)

  /** Devise's `authenticate_user!`: `None` lets the request go on, a
      value is the response with which it halts the request. */
  function AuthenticateUser(signedIn: bool): (r: Option<Outcome>)
    ensures r.None? <==> signedIn
    ensures r.Some? ==> r.value == RedirectLogin
  {
    if signedIn then None else Some(RedirectLogin)
  }

  /** `authentication_second_step!`: primary authentication first when the
      caller is not signed in, then a comparison by value of the user's
      token with the session's. */
  function AuthenticationSecondStep(signedIn: bool, userToken: Option<string>,
                                    sessionToken: Option<string>): (r: Outcome)
    // an unauthenticated caller sees the login prompt, never the second step
    ensures r == RedirectLogin <==> !signedIn
    ensures r == Pass <==> signedIn && sessionToken == userToken
    ensures r == RedirectSecondStep <==> signedIn && sessionToken != userToken
  {
    match AuthenticateUser(signedIn)
    case Some(halt) => halt
    case None => if userToken == sessionToken then Pass else RedirectSecondStep
  }

  /** `authenticate_user_with_second_step!`: primary authentication, then the
      second-step guard. */
  function AuthenticateUserWithSecondStep(signedIn: bool, userToken: Option<string>,
                                          sessionToken: Option<string>): (r: Outcome)
    // the leading authenticate_user! halts before any comparison...
    ensures !signedIn ==> r == RedirectLogin
    // ...and once it lets the request go on, the guard alone decides
    ensures r == AuthenticationSecondStep(signedIn, userToken, sessionToken)
  {
    match AuthenticateUser(signedIn)
    case Some(halt) => halt
    case None => AuthenticationSecondStep(signedIn, userToken, sessionToken)
  }

  /** The comparison is with the user's current token: a session token
      copied from an earlier token value no longer passes. */
  lemma StaleTokenRejected(signedIn: bool, earlier: string, current: string)
    requires signedIn && earlier != current
    ensures AuthenticationSecondStep(signedIn, Some(current), Some(earlier)) == RedirectSecondStep
  {
  }

  /** For a user that has been saved (its token is present) the guard passes
      only for a session holding that very, non-blank, token. */
  lemma SavedUserPassNeedsToken(signedIn: bool, userToken: Option<string>, sessionToken: Option<string>)
    requires Present(userToken)
    ensures AuthenticationSecondStep(signedIn, userToken, sessionToken) == Pass
            <==> signedIn && Present(sessionToken) && sessionToken == userToken
  {
  }

  /** Ruby's `nil == nil` is true: a signed-in user whose token was never
      generated passes the guard with a session that never went through
      the second step. */
  lemma UnsavedUserPassesWithoutSecondStep()
    ensures AuthenticationSecondStep(true, None, None) == Pass
  {
  }
}
