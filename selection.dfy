/** Routing a tap on the selection sheet to the flow that tokenizes that payment method. */
module Selection {
  import opened DropInTypes

  /** The request used when the merchant configured none: a fresh one, without an amount. */
  const DefaultPayPalRequest: PayPalRequest := PayPalRequest(None)

  /** The PayPal flow: one-time payment when the request carries an amount, otherwise a
      billing agreement; either way with the configured request or the default one. */
  function PayPalFlow(configured: Option<PayPalRequest>): (launch: Action)
    ensures launch.RequestOneTimePayment? || launch.RequestBillingAgreement?
    ensures launch.RequestOneTimePayment? <==> configured.Some? && configured.value.amount.Some?
    ensures launch.payPalRequest == configured.GetOr(DefaultPayPalRequest)
  {
    var payPalRequest := if configured.None? then DefaultPayPalRequest else configured.value;
    if payPalRequest.amount.Some? then RequestOneTimePayment(payPalRequest)
    else RequestBillingAgreement(payPalRequest)
  }

  /** Which selectable method a launched flow belongs to, if the action launches one. */
  function FlowOwner(a: Action): Option<PaymentMethodType>
  {
    match a
    case RequestOneTimePayment(_) => Some(PayPal)
    case RequestBillingAgreement(_) => Some(PayPal)
    case RequestGooglePayment => Some(GooglePayment)
    case AuthorizeVenmoAccount(_) => Some(PayWithVenmo)
    case StartAddCard => Some(Unknown)
    case _ => None
  }

  /** The effects of selecting a method: the four selectable methods each launch exactly one
      flow, their own; any other type launches nothing. */
  function SelectionEffects(request: DropInRequest, t: PaymentMethodType): (effects: seq<Action>)
    ensures |effects| <= 1
    ensures |effects| == 1 <==> t in {PayPal, GooglePayment, PayWithVenmo, Unknown}
    ensures forall a :: a in effects ==> FlowOwner(a) == Some(t)
    ensures t == PayPal ==> effects == [PayPalFlow(request.payPalRequest)]
    ensures t == PayWithVenmo ==> effects == [AuthorizeVenmoAccount(request.vaultVenmo)]
  {
    match t
    case PayPal => [PayPalFlow(request.payPalRequest)]
    case GooglePayment => [RequestGooglePayment]
    case PayWithVenmo => [AuthorizeVenmoAccount(request.vaultVenmo)]
    case Unknown => [StartAddCard]
    case _ => []
  }
}
