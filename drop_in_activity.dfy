/** The checkout screen as an object whose event handlers update its fields in place. Each
    handler is proved to leave the object in the state its Orchestration function describes. */
module Activity {
  import opened DropInTypes
  import StepUp
  import ErrorClassification
  import SupportedMethods
  import Selection
  import Orchestration

  class DropInActivity {
    /** The gateway configuration (mConfiguration) and whether 3-D Secure is asked for. */
    const configuration: Configuration
    const threeDSecureRequested: bool

    /** The merchant's request; its 3-D Secure request is completed in place. */
    var dropInRequest: DropInRequest
    var performedThreeDSecureVerification: bool
    var clientTokenPresent: bool
    var deviceData: Option<string>
    /** The SDK fragment's record of vaulted nonces. */
    var hasFetchedNonces: bool
    var cachedNonces: seq<PaymentMethodNonce>
    /** The list published to the selection sheet. */
    var availablePaymentMethods: seq<PaymentMethodType>
    /** Every call into a collaborator, in order. */
    var log: seq<Action>

    function Context(): Orchestration.Context
    {
      Orchestration.Context(configuration, threeDSecureRequested)
    }

    ghost function State(): Orchestration.Session
      reads this
    {
      Orchestration.Session(dropInRequest, performedThreeDSecureVerification, clientTokenPresent, deviceData,
                            hasFetchedNonces, cachedNonces, availablePaymentMethods, log)
    }

    /** A screen created with the merchant's request and the resolved authorization: no
        verification yet, nothing offered, nothing done. */
    constructor (request: DropInRequest, configuration: Configuration, threeDSecureRequested: bool,
                 clientTokenPresent: bool, deviceData: Option<string>,
                 hasFetchedNonces: bool, cachedNonces: seq<PaymentMethodNonce>)
      ensures this.configuration == configuration && this.threeDSecureRequested == threeDSecureRequested
      ensures State() == Orchestration.Session(request, false, clientTokenPresent, deviceData,
                                               hasFetchedNonces, cachedNonces, [], [])
    {
      this.configuration := configuration;
      this.threeDSecureRequested := threeDSecureRequested;
      dropInRequest := request;
      performedThreeDSecureVerification := false;
      this.clientTokenPresent := clientTokenPresent;
      this.deviceData := deviceData;
      this.hasFetchedNonces := hasFetchedNonces;
      this.cachedNonces := cachedNonces;
      availablePaymentMethods := [];
      log := [];
    }

    method OnPaymentMethodNoncesUpdated(nonces: seq<PaymentMethodNonce>)
      modifies this
      ensures State() == Orchestration.OnPaymentMethodNoncesUpdated(old(State()), nonces)
    {
      if |nonces| > 0 {
        if dropInRequest.googlePaymentEnabled {
          log := log + [CheckReadyToPay(nonces)];
        } else {
          log := log + [ShowVaultedPaymentMethods(nonces, false)];
        }
      }
    }

    method UpdateVaultedPaymentMethodNonces(refetch: bool)
      modifies this
      ensures State() == Orchestration.UpdateVaultedPaymentMethodNonces(old(State()), refetch)
    {
      if clientTokenPresent {
        if hasFetchedNonces && !refetch {
          OnPaymentMethodNoncesUpdated(cachedNonces);
        } else {
          log := log + [GetPaymentMethodNonces];
        }
      }
    }

    method HandleThreeDSecureFailure()
      modifies this
      ensures State() == Orchestration.HandleThreeDSecureFailure(old(State()))
    {
      if performedThreeDSecureVerification {
        performedThreeDSecureVerification := false;
        UpdateVaultedPaymentMethodNonces(true);
      }
    }

    method OnCancel(requestCode: int)
      modifies this
      ensures State() == Orchestration.OnCancel(old(State()), requestCode)
    {
      HandleThreeDSecureFailure();
    }

    method UpdateSupportedPaymentMethods(googlePayEnabled: bool)
      modifies this
      ensures State() == Orchestration.UpdateSupportedPaymentMethods(Context(), old(State()), googlePayEnabled)
    {
      availablePaymentMethods :=
        SupportedMethods.BuildAvailablePaymentMethods(dropInRequest, configuration, googlePayEnabled);
    }

    method OnError(error: DropInError)
      modifies this
      ensures State() == Orchestration.OnError(Context(), old(State()), error)
    {
      HandleThreeDSecureFailure();
      ghost var recovered := State();
      if error.kind == GoogleApiClientException {
        UpdateSupportedPaymentMethods(false);
      }
      var eventName := ErrorClassification.ExitAnalyticsEvent(error.kind);
      log := log + [SendAnalyticsEvent(eventName)];
      log := log + [FinishWithError(error)];
      assert log == recovered.log + [SendAnalyticsEvent(eventName), FinishWithError(error)];
    }

    method OnPaymentMethodNonceCreated(n: PaymentMethodNonce)
      modifies this
      ensures State() == Orchestration.OnPaymentMethodNonceCreated(Context(), old(State()), n)
    {
      if !performedThreeDSecureVerification && StepUp.CanPerformThreeDSecureVerification(n) &&
         threeDSecureRequested {
        performedThreeDSecureVerification := true;
        CompleteThreeDSecureRequest(n);
        log := log + [PerformVerification(dropInRequest.threeDSecureRequest.value)];
        return;
      }
      log := log + [SendAnalyticsEvent(SuccessEvent)];
      log := log + [SetLastUsedPaymentMethodType(n)];
      log := log + [FinishWithResult(DropInResult(n, deviceData))];
    }

    /** The in-place completion of the merchant's 3-D Secure request before verification. */
    method CompleteThreeDSecureRequest(n: PaymentMethodNonce)
      modifies this`dropInRequest
      ensures dropInRequest == old(dropInRequest).(threeDSecureRequest := Some(
                StepUp.ResolveThreeDSecureRequest(old(dropInRequest.threeDSecureRequest), old(dropInRequest.amount),
                                                  n.nonce)))
    {
      if dropInRequest.threeDSecureRequest.None? {
        var created := ThreeDSecureRequest(dropInRequest.amount, None);
        dropInRequest := dropInRequest.(threeDSecureRequest := Some(created));
      }
      var request := dropInRequest.threeDSecureRequest.value;
      if request.amount.None? && dropInRequest.amount.Some? {
        dropInRequest := dropInRequest.(threeDSecureRequest := Some(request.(amount := dropInRequest.amount)));
      }
      request := dropInRequest.threeDSecureRequest.value;
      dropInRequest := dropInRequest.(threeDSecureRequest := Some(request.(nonce := Some(n.nonce))));
    }

    method OnPaymentMethodSelected(t: PaymentMethodType)
      modifies this
      ensures State() == Orchestration.OnPaymentMethodSelected(old(State()), t)
    {
      match t
      case PayPal =>
        var payPalRequest := dropInRequest.payPalRequest.GetOr(Selection.DefaultPayPalRequest);
        if payPalRequest.amount.Some? {
          log := log + [RequestOneTimePayment(payPalRequest)];
        } else {
          log := log + [RequestBillingAgreement(payPalRequest)];
        }
      case GooglePayment =>
        log := log + [RequestGooglePayment];
      case PayWithVenmo =>
        log := log + [AuthorizeVenmoAccount(dropInRequest.vaultVenmo)];
      case Unknown =>
        log := log + [StartAddCard];
      case _ =>
    }

    method OnActivityResult(requestCode: int, resultCode: int, data: Option<ResultIntent>)
      requires Orchestration.ActivityResultReadable(requestCode, resultCode, data)
      modifies this
      ensures State() == Orchestration.OnActivityResult(old(State()), requestCode, resultCode, data)
    {
      if resultCode == ResultCanceled {
        if requestCode == AddCardRequestCode {
          UpdateVaultedPaymentMethodNonces(true);
        }
      } else if requestCode == AddCardRequestCode {
        var response: Option<ResultIntent>;
        if resultCode == ResultOk {
          var result := data.value.dropInResult.value;
          log := log + [SetLastUsedPaymentMethodType(result.paymentMethodNonce)];
          result := result.(deviceData := deviceData);
          response := Some(ResultIntent(Some(result), None));
        } else {
          response := data;
        }
        log := log + [SetResult(resultCode, response)];
        log := log + [Finish];
      } else if requestCode == DeletePaymentMethodNonceCode {
        if resultCode == ResultOk {
          if data.Some? {
            var nonces := data.value.paymentMethodNonces;
            if nonces.Some? {
              OnPaymentMethodNoncesUpdated(nonces.value);
            }
          }
          UpdateVaultedPaymentMethodNonces(true);
        }
      }
    }

    method OnBackPressed()
      modifies this
      ensures State() == Orchestration.OnBackPressed(old(State()))
    {
      log := log + [SendAnalyticsEvent(CanceledEvent)];
      log := log + [Finish];
    }
  }
}
