/** src/components/ui/EmailSubscriptionForm.jsx: the stand-alone copy of the form. */
module SubscriptionForm {
  import opened Js
  import opened Subscription
  import AppSubscribeForm

  class SubscriptionForm {
    var email: string
    var status: Status

    constructor ()
      ensures email == "" && status == Idle
    {
      email := "";
      status := Idle;
    }

    /** On success the form is replaced by a confirmation message. */
    function ShowsConfirmation(): bool
      reads this
    {
      status == Success
    }

    /** Only the button is disabled while a request is pending; the input is not. */
    function SubmitDisabled(): bool
      reads this
    {
      status == Loading
    }

    /** `onChange`: changes the email only, never the status (an error stays shown). */
    method Edit(value: string)
      modifies this
      ensures email == value && status == old(status)
    {
      email := value;
    }

    /** `handleSubmit` up to the `await`, as in the inline form. */
    method Submit() returns (request: Option<string>)
      modifies this
      ensures email == old(email)
      ensures request.Some? <==> LooksLikeEmail(old(email))
      ensures request.Some? ==> request.value == old(email) && status == Loading
      ensures request.None? ==> status == Error
    {
      if email == "" || '@' !in email {
        status := Error;
        return None;
      }
      status := Loading;
      request := Some(email);
    }

    /** `handleSubmit` after the `await`, as in the inline form. */
    method Settle(reply: Reply)
      modifies this
      ensures reply == Replied(true) ==> status == Success && email == ""
      ensures reply != Replied(true) ==> status == Error && email == old(email)
    {
      if reply.Replied? && reply.ok {
        status := Success;
        email := "";
      } else {
        status := Error;
      }
    }
  }

  /** Where the two copies part ways: after any failed submission, typing into
      the inline form clears the error, while this form keeps showing it. */
  method EditAfterFailure(typed: string, reply: Reply, retyped: string)
    returns (inlineStatus: Status, formStatus: Status)
    requires reply != Replied(true)
    ensures inlineStatus == Idle && formStatus == Error
  {
    var inline := new AppSubscribeForm.InlineForm();
    var form := new SubscriptionForm();
    inline.Edit(typed);
    form.Edit(typed);
    var sentInline := inline.Submit();
    var sentForm := form.Submit();
    if sentInline.Some? {
      inline.Settle(reply);
    }
    if sentForm.Some? {
      form.Settle(reply);
    }
    inline.Edit(retyped);
    form.Edit(retyped);
    inlineStatus, formStatus := inline.status, form.status;
  }
}
