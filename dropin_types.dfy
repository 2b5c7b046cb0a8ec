/** Values the Drop-In checkout screen reads, writes and hands to its collaborators. */
module DropInTypes {

  /** A Java reference that may be null. */
  datatype Option<+T> = None | Some(value: T) {
    function GetOr(default: T): T {
      match this
      case Some(v) => v
      case None => default
    }
  }

  /** The subclasses of PaymentMethodNonce that the activity tells apart with instanceof. */
  datatype NonceKind =
    | CardNonce
    | GooglePaymentCardNonce(isNetworkTokenized: bool)
    | PayPalAccountNonce
    | VenmoAccountNonce
    | OtherNonce

  /** A tokenized payment method: its kind and its opaque nonce string. */
  datatype PaymentMethodNonce = PaymentMethodNonce(kind: NonceKind, nonce: string)

  /** The values of PaymentMethodType the activity names; card brands other than UnionPay
      are folded into OtherCardType, since no branch of the activity tells them apart. */
  datatype PaymentMethodType =
    | PayPal
    | PayWithVenmo
    | GooglePayment
    | Unknown
    | UnionPay
    | OtherCardType

  /** The exception classes the error handler tests for, plus everything else. */
  datatype ErrorKind =
    | AuthenticationException
    | AuthorizationException
    | UpgradeRequiredException
    | ConfigurationException
    | ServerException
    | UnexpectedException
    | DownForMaintenanceException
    | GoogleApiClientException
    | OtherException

  /** An exception object: its class and its message, handed back to the host unchanged. */
  datatype DropInError = DropInError(kind: ErrorKind, message: string)

  /** The 3-D Secure verification request: only the two fields the activity writes. */
  datatype ThreeDSecureRequest = ThreeDSecureRequest(amount: Option<string>, nonce: Option<string>)

  /** The PayPal request the merchant configured; only its amount steers the activity. */
  datatype PayPalRequest = PayPalRequest(amount: Option<string>)

  /** The merchant's checkout request (mDropInRequest). */
  datatype DropInRequest = DropInRequest(
    amount: Option<string>,
    threeDSecureRequest: Option<ThreeDSecureRequest>,
    payPalRequest: Option<PayPalRequest>,
    payPalEnabled: bool,
    venmoEnabled: bool,
    cardEnabled: bool,
    googlePaymentEnabled: bool,
    vaultVenmo: bool)

  /** The gateway configuration as far as the supported-method list uses it. venmoEnabled is
      what the Venmo configuration reports for this device. */
  datatype Configuration = Configuration(
    payPalEnabled: bool,
    venmoEnabled: bool,
    supportedCardTypes: set<string>,
    unionPayEnabled: bool)

  /** The result handed to the host on success. */
  datatype DropInResult = DropInResult(paymentMethodNonce: PaymentMethodNonce, deviceData: Option<string>)

  /** The extras of an activity-result intent the activity reads. */
  datatype ResultIntent = ResultIntent(
    dropInResult: Option<DropInResult>,
    paymentMethodNonces: Option<seq<PaymentMethodNonce>>)

  /** Effects the activity has on its collaborators, recorded in order. */
  datatype Action =
    | SendAnalyticsEvent(eventName: string)
    | PerformVerification(threeDSecureRequest: ThreeDSecureRequest)
    | GetPaymentMethodNonces
    | CheckReadyToPay(vaulted: seq<PaymentMethodNonce>)
    | ShowVaultedPaymentMethods(vaulted: seq<PaymentMethodNonce>, googlePayEnabled: bool)
    | SetLastUsedPaymentMethodType(lastUsed: PaymentMethodNonce)
    | FinishWithResult(result: DropInResult)
    | FinishWithError(error: DropInError)
    | SetResult(resultCode: int, data: Option<ResultIntent>)
    | Finish
    | RequestOneTimePayment(payPalRequest: PayPalRequest)
    | RequestBillingAgreement(payPalRequest: PayPalRequest)
    | RequestGooglePayment
    | AuthorizeVenmoAccount(vault: bool)
    | StartAddCard

  /** Android's activity result codes. */
  const ResultOk: int := -1
  const ResultCanceled: int := 0

  /** Request codes of the activities Drop-In starts for a result. */
  const AddCardRequestCode: int := 1
  const DeletePaymentMethodNonceCode: int := 2

  /** Analytics events sent when the screen exits without an error. */
  const SuccessEvent: string := "sdk.exit.success"
  const CanceledEvent: string := "sdk.exit.canceled"
}
