/** The part of the Rails session (and the flash kept in it) that the core
    reads and writes. */
module Sessions {
  import opened Tokens

  /** The flash entries the second-step controller writes. */
  datatype FlashKey = Notice | Alert

  /** The value of a session as this model sees it. */
  datatype SessionState = SessionState(secondStepToken: Option<string>, flash: map<FlashKey, string>)

  /** The session object a request handler updates in place. */
  class Session {
    /** `session[:second_step_token]`. */
    var secondStepToken: Option<string>
    /** `flash`. */
    var flash: map<FlashKey, string>

    /** A fresh browser session: no token, an empty flash. */
    constructor ()
      ensures secondStepToken == None && flash == map[]
    {
      secondStepToken := None;
      flash := map[];
    }

    /** The value the session currently holds. */
    function State(): SessionState
      reads this
    {
      SessionState(secondStepToken, flash)
    }
  }
}
