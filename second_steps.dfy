/** The controller of app/controllers/second_steps_controller.rb: `new`
    clears the session's second-step token, `create` checks the submitted
    `foo` parameter against the literal "Foo" and, on a match, copies the
    user's token into the session. Both run behind
    `before_action :authenticate_user!`. */
module SecondSteps {
  import opened Tokens
  import opened Users
  import opened Sessions
  import opened ApplicationController

  /** The one value `create` accepts. */
  const ExpectedFoo: string := "Foo"
  /** The notice of a completed second step. */
  const CompletedNotice: string := "Second authentication step completed"
  /** The alert of a wrong submission. */
  const WrongFooAlert: string := "That wasn't 'Foo'"

  /** The session a request leaves behind and how the request ends. */
  datatype Response = Response(session: SessionState, outcome: Outcome)

  /** What `new` does to a session that holds `s`. */
  function NewAction(signedIn: bool, s: SessionState): (r: Response)
    // the before_action turns an unauthenticated caller away, leaving the
    // session token untouched; Devise's own writes are not modelled
    ensures !signedIn ==> r == Response(s, RedirectLogin)
    // otherwise the token is gone, whatever it was, and the form is shown
    ensures signedIn ==> r.session.secondStepToken == None && r.outcome == RenderNew
    // the flash is not touched
    ensures r.session.flash == s.flash
  {
    match AuthenticateUser(signedIn)
    case Some(halt) => Response(s, halt)
    case None => Response(s.(secondStepToken := None), RenderNew)
  }

  /** What `create` does to a session that holds `s`, for a current user
      holding `userToken`, given the `foo` parameter (`None` when absent). */
  function CreateAction(signedIn: bool, userToken: Option<string>, foo: Option<string>,
                        s: SessionState): (r: Response)
    ensures !signedIn ==> r == Response(s, RedirectLogin)
    // the correct value elevates the session to exactly the user's token
    ensures signedIn && foo == Some(ExpectedFoo) ==>
      r.session.secondStepToken == userToken
      && r.session.flash == s.flash[Notice := CompletedNotice]
      && r.outcome == RedirectRootWithNotice(CompletedNotice)
    // any other value leaves the token alone and re-renders with an alert
    ensures signedIn && foo != Some(ExpectedFoo) ==>
      r.session.secondStepToken == s.secondStepToken
      && r.session.flash == s.flash[Alert := WrongFooAlert]
      && r.outcome == RenderNewWithAlert(WrongFooAlert)
  {
    match AuthenticateUser(signedIn)
    case Some(halt) => Response(s, halt)
    case None =>
      if foo == Some(ExpectedFoo) then
        Response(SessionState(userToken, s.flash[Notice := CompletedNotice]),
                 RedirectRootWithNotice(CompletedNotice))
      else
        Response(s.(flash := s.flash[Alert := WrongFooAlert]), RenderNewWithAlert(WrongFooAlert))
  }

  /** A wrong submission is a fixed point: no counter, no lockout. */
  lemma WrongCreateRepeatable(signedIn: bool, userToken: Option<string>, foo: Option<string>,
                              s: SessionState)
    requires foo != Some(ExpectedFoo)
    ensures CreateAction(signedIn, userToken, foo, CreateAction(signedIn, userToken, foo, s).session)
            == CreateAction(signedIn, userToken, foo, s)
  {
  }

  /** The `new` action on the request's session. */
  method New(signedIn: bool, session: Session) returns (o: Outcome)
    modifies session
    ensures Response(session.State(), o) == NewAction(signedIn, old(session.State()))
    ensures signedIn ==> session.secondStepToken == None
  {
    var halt := AuthenticateUser(signedIn);
    if halt.Some? {
      return halt.value;
    }
    session.secondStepToken := None;
    o := RenderNew;
  }

  /** The `create` action on the request's session, for `currentUser`. */
  method Create(signedIn: bool, currentUser: User, foo: Option<string>, session: Session)
    returns (o: Outcome)
    modifies session
    ensures Response(session.State(), o)
            == CreateAction(signedIn, currentUser.secondStepToken, foo, old(session.State()))
  {
    var halt := AuthenticateUser(signedIn);
    if halt.Some? {
      return halt.value;
    }
    if foo == Some(ExpectedFoo) {
      session.secondStepToken := currentUser.secondStepToken;
      session.flash := session.flash[Notice := CompletedNotice];
      o := RedirectRootWithNotice(CompletedNotice);
    } else {
      session.flash := session.flash[Alert := WrongFooAlert];
      o := RenderNewWithAlert(WrongFooAlert);
    }
  }
}
