/**
 * The newsletter sign-up (components/newsletter-signup.tsx): the address
 * field, a submit that is ignored while the field is empty, a one-second
 * wait after which the visitor counts as subscribed and the field is
 * cleared, and a later reset that brings the form back.
 *
 * The two `setTimeout` waits are the transitions `CompleteSubmit` (the
 * awaited one second) and `ResetTimerFires` (the three-second reset).
 */
module Newsletter {

  class Signup {
    var email: string
    var isSubmitting: bool
    var isSubscribed: bool

    constructor ()
      ensures email == "" && !isSubmitting && !isSubscribed
    {
      email, isSubmitting, isSubscribed := "", false, false;
    }

    /** `isSubscribed ? <thanks/> : <form/>`: the form is on screen only while not subscribed. */
    predicate FormRendered()
      reads this
    {
      !isSubscribed
    }

    /** `disabled={isSubmitting}`. */
    predicate ButtonDisabled()
      reads this
    {
      isSubmitting
    }

    /** The button's caption: "..." while submitting, "Subscribe" otherwise. */
    function ButtonLabel(): (r: string)
      reads this
      ensures r == "..." <==> ButtonDisabled()
      ensures r == "Subscribe" <==> !ButtonDisabled()
    {
      if isSubmitting then "..." else "Subscribe"
    }

    /** The input's `onChange`: the field takes the typed value. */
    method SetEmail(value: string)
      modifies this
      ensures email == value && isSubmitting == old(isSubmitting) && isSubscribed == old(isSubscribed)
    {
      email := value;
    }

    /**
     * `handleSubmit` up to the wait: an empty field returns at once and
     * changes nothing; otherwise submitting starts.
     */
    method Submit() returns (started: bool)
      modifies this
      ensures started <==> old(email) != ""
      ensures !started ==> email == old(email) && isSubmitting == old(isSubmitting) && isSubscribed == old(isSubscribed)
      ensures started ==> isSubmitting && ButtonDisabled() && email == old(email) && isSubscribed == old(isSubscribed)
    {
      if email == "" {
        return false;
      }
      isSubmitting := true;
      started := true;
    }

    /** After the one-second wait: submitting ends, the visitor is subscribed and the field is cleared. */
    method CompleteSubmit()
      modifies this
      ensures !isSubmitting && isSubscribed && email == ""
      ensures !FormRendered() && !ButtonDisabled()
    {
      isSubmitting := false;
      isSubscribed := true;
      email := "";
    }

    /** Three seconds later: `setIsSubscribed(false)`, and the form is back. */
    method ResetTimerFires()
      modifies this
      ensures !isSubscribed && FormRendered()
      ensures email == old(email) && isSubmitting == old(isSubmitting)
    {
      isSubscribed := false;
    }
  }

  /**
   * One whole round from a fresh component: type, submit, wait, reset. The
   * component ends as it began, with an empty field and the form shown.
   */
  method SubscribeRound(address: string) returns (s: Signup)
    requires address != ""
    ensures fresh(s)
    ensures s.email == "" && !s.isSubmitting && !s.isSubscribed && s.FormRendered()
  {
    s := new Signup();
    s.SetEmail(address);
    var started := s.Submit();
    assert started && s.ButtonDisabled();
    s.CompleteSubmit();
    assert !s.FormRendered();
    s.ResetTimerFires();
  }
}
