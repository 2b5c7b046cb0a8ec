/** The 3-D Secure (step-up) policy applied to a freshly created nonce. */
module StepUp {
  import opened DropInTypes

  /** Whether a nonce can go through 3-D Secure: every card nonce, and a Google Pay card
      nonce only when the wallet did not already back it with a network token. */
  function CanPerformThreeDSecureVerification(n: PaymentMethodNonce): (eligible: bool)
    ensures n.kind.CardNonce? ==> eligible
    ensures n.kind.GooglePaymentCardNonce? ==> (eligible <==> !n.kind.isNetworkTokenized)
    ensures !n.kind.CardNonce? && !n.kind.GooglePaymentCardNonce? ==> !eligible
  {
    match n.kind
    case CardNonce => true
    case GooglePaymentCardNonce(networkTokenized) => networkTokenized == false
    case _ => false
  }

  /** Whether a created nonce is sent to 3-D Secure rather than returned: only on the first
      attempt of the cycle, for an eligible nonce, and when the merchant asked for it. */
  predicate StartsStepUp(performedThreeDSecureVerification: bool, n: PaymentMethodNonce, requested: bool)
  {
    !performedThreeDSecureVerification && CanPerformThreeDSecureVerification(n) && requested
  }

  /** The request handed to 3-D Secure: the configured one, or a new one carrying the checkout
      amount; a missing amount is filled in from the checkout amount; the nonce is attached. */
  function ResolveThreeDSecureRequest(configured: Option<ThreeDSecureRequest>, checkoutAmount: Option<string>,
                                      nonce: string): (r: ThreeDSecureRequest)
    ensures r.nonce == Some(nonce)
    ensures configured.None? ==> r.amount == checkoutAmount
    ensures configured.Some? && configured.value.amount.Some? ==> r.amount == configured.value.amount
    ensures configured.Some? && configured.value.amount.None? ==> r.amount == checkoutAmount
    ensures r.amount.None? <==> checkoutAmount.None? && (configured.None? || configured.value.amount.None?)
  {
    var created := if configured.None? then ThreeDSecureRequest(checkoutAmount, None) else configured.value;
    var filled := if created.amount.None? && checkoutAmount.Some? then created.(amount := checkoutAmount) else created;
    filled.(nonce := Some(nonce))
  }
}
