/** The inline `EmailSubscriptionForm` in src/App.jsx (hero and footer variants). */
module AppSubscribeForm {
  import opened Js
  import opened Subscription

  class InlineForm {
    var email: string
    var status: Status

    constructor ()
      ensures email == "" && status == Idle
    {
      email := "";
      status := Idle;
    }

    /** On success the form is replaced by a confirmation message. */
    function ShowsConfirmation(): bool
      reads this
    {
      status == Success
    }

    /** Both the input and the button are disabled while a request is pending. */
    function ControlsDisabled(): bool
      reads this
    {
      status == Loading
    }

    /** `onChange`: takes the new value, and leaves the error state for idle. */
    method Edit(value: string)
      modifies this
      ensures email == value
      ensures status == if old(status) == Error then Idle else old(status)
    {
      email := value;
      if status == Error {
        status := Idle;
      }
    }

    /** `handleSubmit` up to the `await`: an empty address or one without '@'
        sets `error` and sends nothing; otherwise the status becomes `loading`
        and the field's value is sent as it stands. */
    method Submit() returns (request: Option<string>)
      modifies this
      ensures email == old(email)
      ensures request.Some? <==> LooksLikeEmail(old(email))
      ensures request.Some? ==> request.value == old(email) && status == Loading
      ensures request.None? ==> status == Error
    {
      if email == "" || '@' !in email {
        status := Error;
        return None;
      }
      status := Loading;
      request := Some(email);
    }

    /** `handleSubmit` after the `await`: an ok response ends in `success`
        with the field cleared; a failed response or a thrown error ends in
        `error` with the field kept. */
    method Settle(reply: Reply)
      modifies this
      ensures reply == Replied(true) ==> status == Success && email == ""
      ensures reply != Replied(true) ==> status == Error && email == old(email)
    {
      if reply.Replied? && reply.ok {
        status := Success;
        email := "";
      } else {
        status := Error;
      }
    }
  }
}
