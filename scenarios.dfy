/** Sequences of requests against one signed-in (or signed-out) browser
    session and one user record: what the three core files do together. */
module Scenarios {
  import opened Tokens
  import opened Users
  import opened Sessions
  import opened ApplicationController
  import opened SecondSteps

  /** One thing that can happen between two looks at the guard. */
  datatype Event =
    | VisitNew                       // GET new_second_step_path
    | SubmitCreate(foo: Option<string>) // POST second_steps with params[:foo]
    | VisitProtected                 // an action behind authenticate_user_with_second_step!
    | SaveUser(uuid: Uuid)           // the user record is saved (e.g. Devise tracking on sign in)

  /** Everything the core reads: sign-in status, the user's token and the session. */
  datatype World = World(signedIn: bool, userToken: Option<string>, session: SessionState)

  /** The world after an event, and the response if the event was a request. */
  datatype Transition = Transition(world: World, outcome: Option<Outcome>)

  function Step(w: World, e: Event): (t: Transition)
    // sign-in status is not changed by the core
    ensures t.world.signedIn == w.signedIn
    // only a save touches the user record, and a present token survives it
    ensures !e.SaveUser? ==> t.world.userToken == w.userToken
    ensures Present(w.userToken) ==> t.world.userToken == w.userToken
    // the guard writes nothing
    ensures e.VisitProtected? ==> t.world == w
    // a signed-out caller reaches neither controller action
    ensures !w.signedIn && !e.SaveUser? ==> t.world == w && t.outcome == Some(RedirectLogin)
  {
    match e
    case VisitNew =>
      var r := NewAction(w.signedIn, w.session);
      Transition(w.(session := r.session), Some(r.outcome))
    case SubmitCreate(foo) =>
      var r := CreateAction(w.signedIn, w.userToken, foo, w.session);
      Transition(w.(session := r.session), Some(r.outcome))
    case VisitProtected =>
      Transition(w, Some(Guard(w)))
    case SaveUser(uuid) =>
      Transition(w.(userToken := TokenAfterSave(w.userToken, uuid)), None)
  }

  /** The world after the events of `trace`, in order. */
  function Run(w: World, trace: seq<Event>): World
  {
    if trace == [] then w else Step(Run(w, trace[..|trace| - 1]), trace[|trace| - 1]).world
  }

  /** The guard's verdict on a world. */
  function Guard(w: World): Outcome
  {
    AuthenticateUserWithSecondStep(w.signedIn, w.userToken, w.session.secondStepToken)
  }

  /** A correct confirmation happened and no visit to `new` came after it. */
  ghost predicate ElevatedBy(trace: seq<Event>)
  {
    exists i :: 0 <= i < |trace| && trace[i] == SubmitCreate(Some(ExpectedFoo))
                && forall j :: i < j < |trace| ==> !trace[j].VisitNew?
  }

  /** How one more event changes ElevatedBy. */
  lemma ElevatedBySnoc(p: seq<Event>, e: Event)
    ensures ElevatedBy(p + [e]) ==
            if e.VisitNew? then false
            else if e == SubmitCreate(Some(ExpectedFoo)) then true
            else ElevatedBy(p)
  {
    var t := p + [e];
    assert t[|p|] == e;
    if e.VisitNew? || e == SubmitCreate(Some(ExpectedFoo)) {
    } else {
      if ElevatedBy(t) {
        var i :| 0 <= i < |t| && t[i] == SubmitCreate(Some(ExpectedFoo))
                 && forall j :: i < j < |t| ==> !t[j].VisitNew?;
        assert i < |p|;
        assert p[i] == t[i];
        assert forall j :: i < j < |p| ==> p[j] == t[j];
      }
      if ElevatedBy(p) {
        var i :| 0 <= i < |p| && p[i] == SubmitCreate(Some(ExpectedFoo))
                 && forall j :: i < j < |p| ==> !p[j].VisitNew?;
        assert t[i] == p[i];
        assert forall j :: i < j < |p| ==> p[j] == t[j];
      }
    }
  }

  /** Splitting a non-empty trace into its prefix and its last event. */
  lemma LastSplit(trace: seq<Event>)
    requires trace != []
    ensures trace == trace[..|trace| - 1] + [trace[|trace| - 1]]
  {
  }

  /** No event signs the caller in or out, and only saves touch the user
      record. */
  lemma {:induction false} RunFrame(w: World, trace: seq<Event>)
    ensures Run(w, trace).signedIn == w.signedIn
    ensures (forall i :: 0 <= i < |trace| ==> !trace[i].SaveUser?) ==> Run(w, trace).userToken == w.userToken
  {
    if trace != [] {
      RunFrame(w, trace[..|trace| - 1]);
    }
  }

  /** The core's whole state along a trace, for a signed-in user whose
      token is present, starting from a session without a token: the user
      token never changes, and the session holds it exactly when a correct
      confirmation came after the last visit to `new`, and nothing
      otherwise. */
  lemma {:induction false} SessionTokenAlongTrace(w: World, trace: seq<Event>)
    requires w.signedIn && Present(w.userToken) && w.session.secondStepToken == None
    ensures Run(w, trace).signedIn
    ensures Run(w, trace).userToken == w.userToken
    ensures Run(w, trace).session.secondStepToken == if ElevatedBy(trace) then w.userToken else None
  {
    if trace != [] {
      var p, e := trace[..|trace| - 1], trace[|trace| - 1];
      SessionTokenAlongTrace(w, p);
      LastSplit(trace);
      ElevatedBySnoc(p, e);
    }
  }

  /** The guard passes at the end of a trace exactly when the second step
      was completed and not revoked by a later visit to `new`. */
  lemma GuardPassesIffElevated(w: World, trace: seq<Event>)
    requires w.signedIn && Present(w.userToken) && w.session.secondStepToken == None
    ensures Guard(Run(w, trace)) == Pass <==> ElevatedBy(trace)
    ensures !ElevatedBy(trace) ==> Guard(Run(w, trace)) == RedirectSecondStep
  {
    SessionTokenAlongTrace(w, trace);
  }

  /** Starting from a session without a token, only a correct confirmation
      that no later `new` revoked can put a token into the session, whoever
      the user is and whether or not anyone is signed in. */
  lemma {:induction false} OnlyConfirmationElevates(w: World, trace: seq<Event>)
    requires w.session.secondStepToken == None
    ensures Run(w, trace).session.secondStepToken.Some? ==> ElevatedBy(trace)
  {
    if !w.signedIn {
      SignedOutChangesNothing(w, trace);
    } else if trace != [] {
      var p, e := trace[..|trace| - 1], trace[|trace| - 1];
      OnlyConfirmationElevates(w, p);
      RunFrame(w, p);
      LastSplit(trace);
      ElevatedBySnoc(p, e);
      var before := Run(w, p);
      assert Run(w, trace) == Step(before, e).world;
      match e
      case SubmitCreate(foo) =>
        var r := CreateAction(before.signedIn, before.userToken, foo, before.session);
        assert r.session.secondStepToken.Some? && foo != Some(ExpectedFoo)
               ==> before.session.secondStepToken.Some?;
      case _ =>
    }
  }

  /** Hence the guard passes for a user with a present token only after a
      confirmation that was not revoked. */
  lemma PassImpliesElevated(w: World, trace: seq<Event>)
    requires w.session.secondStepToken == None
    requires Present(Run(w, trace).userToken)
    requires Guard(Run(w, trace)) == Pass
    ensures ElevatedBy(trace)
  {
    OnlyConfirmationElevates(w, trace);
  }

  /** A signed-out caller leaves the session token untouched, whatever it
      requests; Devise's own writes are not modelled. */
  lemma {:induction false} SignedOutChangesNothing(w: World, trace: seq<Event>)
    requires !w.signedIn
    ensures !Run(w, trace).signedIn
    ensures Run(w, trace).session == w.session
    ensures Guard(Run(w, trace)) == RedirectLogin
  {
    if trace != [] {
      SignedOutChangesNothing(w, trace[..|trace| - 1]);
    }
  }

  /** `n` submissions of the same value. */
  function Attempts(foo: Option<string>, n: nat): seq<Event>
  {
    seq(n, _ => SubmitCreate(foo))
  }

  /** Any number of wrong submissions leaves the world as one does. */
  lemma {:induction false} WrongAttemptsUnlimited(w: World, foo: Option<string>, n: nat)
    requires foo != Some(ExpectedFoo) && n >= 1
    ensures Run(w, Attempts(foo, n)) == Step(w, SubmitCreate(foo)).world
  {
    if n > 1 {
      WrongAttemptsUnlimited(w, foo, n - 1);
      assert Attempts(foo, n)[..n - 1] == Attempts(foo, n - 1);
    } else {
      assert Attempts(foo, 1)[..0] == [];
    }
  }

  /** No lockout: after any number of wrong submissions a correct one still
      elevates the session to the user's token. */
  lemma CorrectAfterWrongAttempts(w: World, foo: Option<string>, n: nat)
    requires w.signedIn && foo != Some(ExpectedFoo)
    ensures Run(w, Attempts(foo, n) + [SubmitCreate(Some(ExpectedFoo))]).session.secondStepToken
            == w.userToken
  {
    var t := Attempts(foo, n) + [SubmitCreate(Some(ExpectedFoo))];
    assert t[..|t| - 1] == Attempts(foo, n);
    if n >= 1 {
      WrongAttemptsUnlimited(w, foo, n);
    }
  }

  /** A fresh session of a user with a token is sent to the second step. */
  lemma FreshSessionRedirected(token: string)
    ensures Guard(World(true, Some(token), SessionState(None, map[]))) == RedirectSecondStep
  {
  }

  /** `new`, then "Foo", then the guard passes. With the comparison as
      written this holds for every user token, `nil` included. */
  lemma CorrectConfirmationPasses(userToken: Option<string>, s: SessionState)
    ensures Guard(Run(World(true, userToken, s), [VisitNew, SubmitCreate(Some(ExpectedFoo))])) == Pass
  {
    var w := World(true, userToken, s);
    assert [VisitNew, SubmitCreate(Some(ExpectedFoo))][..1] == [VisitNew];
    assert [VisitNew][..0] == [];
    assert Run(w, [VisitNew]) == Step(w, VisitNew).world;
  }

  /** `new`, then a wrong value, then the guard still redirects, for a user
      whose token is not `nil`. */
  lemma WrongConfirmationRedirects(token: string, foo: Option<string>, s: SessionState)
    requires foo != Some(ExpectedFoo)
    ensures Guard(Run(World(true, Some(token), s), [VisitNew, SubmitCreate(foo)])) == RedirectSecondStep
  {
    var w := World(true, Some(token), s);
    assert [VisitNew, SubmitCreate(foo)][..1] == [VisitNew];
    assert [VisitNew][..0] == [];
    assert Run(w, [VisitNew]) == Step(w, VisitNew).world;
  }

  /** After a completed second step, visiting `new` again revokes it. */
  lemma RevisitingNewRevokes(token: string, s: SessionState)
    ensures Guard(Run(World(true, Some(token), s),
                      [VisitNew, SubmitCreate(Some(ExpectedFoo)), VisitNew])) == RedirectSecondStep
  {
    var w := World(true, Some(token), s);
    var t := [VisitNew, SubmitCreate(Some(ExpectedFoo)), VisitNew];
    var before := Run(w, t[..2]);
    RunFrame(w, t[..2]);
    assert t[..|t| - 1] == t[..2] && t[|t| - 1] == VisitNew;
    assert Run(w, t) == Step(before, VisitNew).world;
    assert Run(w, t).session.secondStepToken == None;
  }

  /** The guard writes nothing, so asking it twice gives the same answer. */
  lemma GuardTwiceSameOutcome(w: World)
    ensures Step(Step(w, VisitProtected).world, VisitProtected) == Step(w, VisitProtected)
  {
  }

  /** The first save closes the `nil == nil` gap: a user saved once no
      longer passes with a session that has no token. */
  lemma SaveClosesUnsavedGap(uuid: Uuid)
    ensures Guard(World(true, None, SessionState(None, map[]))) == Pass
    ensures Guard(Step(World(true, None, SessionState(None, map[])), SaveUser(uuid)).world)
            == RedirectSecondStep
  {
  }
}
