/** The user record of app/models/user.rb: a row whose `before_save`
    callback `generate_second_step_token` assigns a fresh token when none
    is present. */
module Users {
  import opened Tokens

  /** The token a record holds after the `before_save` callback ran on a
      record holding `token`, where `uuid` is the value the random source
      would produce. */
  function TokenAfterSave(token: Option<string>, uuid: Uuid): (r: Option<string>)
    // after any successful save the token is present
    ensures Present(r)
    // a present token is never regenerated
    ensures Present(token) ==> r == token
    // the only other possibility is the fresh value
    ensures r == token || r == Option<string>.Some(uuid)
  {
    if Present(token) then token else Option<string>.Some(uuid)
  }

  /** Saving twice leaves the token the first save left, whatever the
      random source produces the second time. */
  lemma SaveIdempotent(token: Option<string>, first: Uuid, second: Uuid)
    ensures TokenAfterSave(TokenAfterSave(token, first), second) == TokenAfterSave(token, first)
  {
  }

  /** A record that was saved at least once keeps its token over any number
      of further saves. */
  lemma {:induction false} TokenStableAcrossSaves(token: Option<string>, uuids: seq<Uuid>)
    requires Present(token)
    ensures TokenAfterSaves(token, uuids) == token
  {
    if uuids != [] {
      TokenStableAcrossSaves(token, uuids[..|uuids| - 1]);
    }
  }

  /** The token after saving once per element of `uuids`, in order. */
  function TokenAfterSaves(token: Option<string>, uuids: seq<Uuid>): Option<string>
  {
    if uuids == [] then token
    else TokenAfterSave(TokenAfterSaves(token, uuids[..|uuids| - 1]), uuids[|uuids| - 1])
  }

  class User {
    /** The `second_step_token` column; `None` until the first save. */
    var secondStepToken: Option<string>
    /** Stands for every column Devise manages (email, password digest,
        tracking columns); none of them is modelled beyond existing. */
    var email: string

    constructor (email: string)
      ensures this.email == email && secondStepToken == None
    {
      this.email := email;
      secondStepToken := None;
    }

    /** A `save` that passes validation, of which only the `before_save` callback
        `generate_second_step_token` is modelled: it may write the token
        column and nothing else. */
    method Save(uuid: Uuid)
      modifies this`secondStepToken
      ensures secondStepToken == TokenAfterSave(old(secondStepToken), uuid)
      ensures Present(secondStepToken)
      ensures Present(old(secondStepToken)) ==> secondStepToken == old(secondStepToken)
    {
      if !Present(secondStepToken) {
        secondStepToken := Some(uuid);
      }
    }
  }
}
