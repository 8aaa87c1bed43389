/** What the subscription forms and the subscribe endpoint share: the
    "looks like an email" test and the form's status values. */
module Subscription {
  import opened Js

  /** `!email || !email.includes("@")` rejects; this is its negation. */
  predicate LooksLikeEmail(s: string) {
    s != "" && '@' in s
  }

  /** The form's `status` state. */
  datatype Status = Idle | Loading | Success | Error

  /** How the `fetch` to the subscribe endpoint settled: a response with its
      `ok` flag, or a thrown error. */
  datatype Reply = Replied(ok: bool) | Threw

  /** The forms test the raw field and the endpoint tests the trimmed value;
      the two tests agree on every input, so an address the form lets through
      is never refused by the endpoint as "Invalid email", and the other way round. */
  lemma {:induction false} CheckAgreesAfterTrim(s: string)
    ensures LooksLikeEmail(Trim(s)) <==> LooksLikeEmail(s)
  {
    assert !IsSpace('@');
    TrimKeepsNonSpace(s, '@');
  }
}
