/** The event handlers of the checkout screen, as functions from the screen's state before an
    event to its state after it. The state records every effect on a collaborator in `log`. */
module Orchestration {
  import opened DropInTypes
  import StepUp
  import ErrorClassification
  import SupportedMethods
  import Selection

  /** What the screen reads besides its own state: the gateway configuration and whether the
      merchant's setup asks for 3-D Secure verification. */
  datatype Context = Context(configuration: Configuration, threeDSecureRequested: bool)

  /** The screen's state. hasFetchedNonces and cachedNonces belong to the SDK fragment; no
      handler changes them. */
  datatype Session = Session(
    dropInRequest: DropInRequest,
    performedThreeDSecureVerification: bool,
    clientTokenPresent: bool,
    deviceData: Option<string>,
    hasFetchedNonces: bool,
    cachedNonces: seq<PaymentMethodNonce>,
    availablePaymentMethods: seq<PaymentMethodType>,
    log: seq<Action>)

  /** The actions a handler appended to the log. */
  function Emitted(before: Session, after: Session): seq<Action>
    requires before.log <= after.log
  {
    after.log[|before.log|..]
  }

  /** `after` differs from `before` at most in its log, which only grew. */
  predicate OnlyLogGrew(before: Session, after: Session)
  {
    after == before.(log := after.log) && before.log <= after.log
  }

  /** The effects of receiving a vaulted-nonce list: nothing for an empty list; otherwise, when
      Google Pay is enabled, ask whether it is ready to pay before showing them, else show them
      with Google Pay marked unavailable. */
  function NoncesUpdatedEffects(request: DropInRequest, nonces: seq<PaymentMethodNonce>): (effects: seq<Action>)
    ensures |effects| <= 1
    ensures effects == [] <==> nonces == []
    ensures forall a :: a in effects ==> a == CheckReadyToPay(nonces) || a == ShowVaultedPaymentMethods(nonces, false)
    ensures effects == [CheckReadyToPay(nonces)] <==> nonces != [] && request.googlePaymentEnabled
    ensures effects == [ShowVaultedPaymentMethods(nonces, false)] <==> nonces != [] && !request.googlePaymentEnabled
  {
    if |nonces| > 0 then
      if request.googlePaymentEnabled then [CheckReadyToPay(nonces)]
      else [ShowVaultedPaymentMethods(nonces, false)]
    else []
  }

  /** onPaymentMethodNoncesUpdated. */
  function OnPaymentMethodNoncesUpdated(s: Session, nonces: seq<PaymentMethodNonce>): (r: Session)
    ensures OnlyLogGrew(s, r) && Emitted(s, r) == NoncesUpdatedEffects(s.dropInRequest, nonces)
  {
    s.(log := s.log + NoncesUpdatedEffects(s.dropInRequest, nonces))
  }

  /** updateVaultedPaymentMethodNonces: nothing without a client token; the cached list when it
      was fetched already and no refetch is asked for; a network fetch otherwise. */
  function UpdateVaultedPaymentMethodNonces(s: Session, refetch: bool): (r: Session)
    ensures OnlyLogGrew(s, r)
    ensures !s.clientTokenPresent ==> r == s
    ensures GetPaymentMethodNonces in Emitted(s, r) <==> s.clientTokenPresent && (refetch || !s.hasFetchedNonces)
    ensures s.clientTokenPresent && s.hasFetchedNonces && !refetch ==>
              Emitted(s, r) == NoncesUpdatedEffects(s.dropInRequest, s.cachedNonces)
    ensures s.clientTokenPresent && (refetch || !s.hasFetchedNonces) ==> Emitted(s, r) == [GetPaymentMethodNonces]
  {
    if s.clientTokenPresent then
      if s.hasFetchedNonces && !refetch then OnPaymentMethodNoncesUpdated(s, s.cachedNonces)
      else s.(log := s.log + [GetPaymentMethodNonces])
    else s
  }

  /** handleThreeDSecureFailure: when a verification was started, clear the flag and force a
      refetch of the vaulted list; otherwise change nothing. */
  function HandleThreeDSecureFailure(s: Session): (r: Session)
    ensures !r.performedThreeDSecureVerification
    ensures !s.performedThreeDSecureVerification ==> r == s
    ensures s.performedThreeDSecureVerification ==>
              r == s.(performedThreeDSecureVerification := false,
                      log := s.log + (if s.clientTokenPresent then [GetPaymentMethodNonces] else []))
  {
    if s.performedThreeDSecureVerification then
      UpdateVaultedPaymentMethodNonces(s.(performedThreeDSecureVerification := false), true)
    else s
  }

  /** onCancel: only the 3-D Secure recovery; a cancel outside a verification changes nothing. */
  function OnCancel(s: Session, requestCode: int): (r: Session)
    ensures !s.performedThreeDSecureVerification ==> r == s
    ensures s.performedThreeDSecureVerification ==>
              r == s.(performedThreeDSecureVerification := false, log := r.log) && s.log <= r.log &&
              Emitted(s, r) == (if s.clientTokenPresent then [GetPaymentMethodNonces] else [])
  {
    HandleThreeDSecureFailure(s)
  }

  /** updateSupportedPaymentMethods: replace the offered list. */
  function UpdateSupportedPaymentMethods(ctx: Context, s: Session, googlePayEnabled: bool): (r: Session)
    ensures r == s.(availablePaymentMethods := r.availablePaymentMethods)
    ensures r.availablePaymentMethods ==
              SupportedMethods.AvailablePaymentMethods(s.dropInRequest, ctx.configuration, googlePayEnabled)
  {
    s.(availablePaymentMethods :=
         SupportedMethods.AvailablePaymentMethods(s.dropInRequest, ctx.configuration, googlePayEnabled))
  }

  /** onError: the 3-D Secure recovery; a Google API client failure withdraws Google Pay from
      the sheet; then the exit event of the error's class is sent and the screen finishes with
      the very same error. */
  function OnError(ctx: Context, s: Session, error: DropInError): (r: Session)
    ensures r == s.(performedThreeDSecureVerification := false, availablePaymentMethods := r.availablePaymentMethods,
                    log := r.log)
    ensures s.log <= r.log
    ensures Emitted(s, r) == Emitted(s, HandleThreeDSecureFailure(s)) +
              [SendAnalyticsEvent(ErrorClassification.ExitAnalyticsEvent(error.kind)), FinishWithError(error)]
    ensures r.availablePaymentMethods ==
              if error.kind == GoogleApiClientException
              then SupportedMethods.AvailablePaymentMethods(s.dropInRequest, ctx.configuration, false)
              else s.availablePaymentMethods
  {
    var recovered := HandleThreeDSecureFailure(s);
    var refreshed :=
      if error.kind == GoogleApiClientException then UpdateSupportedPaymentMethods(ctx, recovered, false)
      else recovered;
    refreshed.(log := refreshed.log +
                 [SendAnalyticsEvent(ErrorClassification.ExitAnalyticsEvent(error.kind)), FinishWithError(error)])
  }

  /** The effects of returning a nonce to the host. */
  function SuccessEffects(s: Session, n: PaymentMethodNonce): seq<Action>
  {
    [SendAnalyticsEvent(SuccessEvent), SetLastUsedPaymentMethodType(n), FinishWithResult(DropInResult(n, s.deviceData))]
  }

  /** onPaymentMethodNonceCreated: either start 3-D Secure once (flag set, request completed
      from the checkout amount and the nonce, verification invoked, nothing returned), or
      return the nonce with the device data. */
  function OnPaymentMethodNonceCreated(ctx: Context, s: Session, n: PaymentMethodNonce): (r: Session)
    ensures s.log <= r.log
    ensures r.performedThreeDSecureVerification ==
              (s.performedThreeDSecureVerification ||
               StepUp.StartsStepUp(s.performedThreeDSecureVerification, n, ctx.threeDSecureRequested))
    ensures StepUp.StartsStepUp(s.performedThreeDSecureVerification, n, ctx.threeDSecureRequested) ==>
              var verified := StepUp.ResolveThreeDSecureRequest(s.dropInRequest.threeDSecureRequest,
                                                               s.dropInRequest.amount, n.nonce);
              r == s.(performedThreeDSecureVerification := true,
                      dropInRequest := s.dropInRequest.(threeDSecureRequest := Some(verified)), log := r.log) &&
              Emitted(s, r) == [PerformVerification(verified)]
    ensures !StepUp.StartsStepUp(s.performedThreeDSecureVerification, n, ctx.threeDSecureRequested) ==>
              OnlyLogGrew(s, r) && Emitted(s, r) == SuccessEffects(s, n)
  {
    if StepUp.StartsStepUp(s.performedThreeDSecureVerification, n, ctx.threeDSecureRequested) then
      var verified := StepUp.ResolveThreeDSecureRequest(s.dropInRequest.threeDSecureRequest,
                                                       s.dropInRequest.amount, n.nonce);
      s.(performedThreeDSecureVerification := true,
         dropInRequest := s.dropInRequest.(threeDSecureRequest := Some(verified)),
         log := s.log + [PerformVerification(verified)])
    else
      s.(log := s.log + SuccessEffects(s, n))
  }

  /** onPaymentMethodSelected. */
  function OnPaymentMethodSelected(s: Session, t: PaymentMethodType): (r: Session)
    ensures OnlyLogGrew(s, r) && Emitted(s, r) == Selection.SelectionEffects(s.dropInRequest, t)
  {
    s.(log := s.log + Selection.SelectionEffects(s.dropInRequest, t))
  }

  /** What the card-entry screen always hands back with RESULT_OK: an intent carrying a result
      (the handler reads it without a null check). */
  predicate ActivityResultReadable(requestCode: int, resultCode: int, data: Option<ResultIntent>)
  {
    requestCode == AddCardRequestCode && resultCode == ResultOk ==> data.Some? && data.value.dropInResult.Some?
  }

  /** The nonces a returning vault manager hands back; none when the intent or its list is missing. */
  function ReturnedNonces(data: Option<ResultIntent>): seq<PaymentMethodNonce>
  {
    if data.Some? && data.value.paymentMethodNonces.Some? then data.value.paymentMethodNonces.value else []
  }

  /** onActivityResult for the card-entry and vault-manager screens. */
  function OnActivityResult(s: Session, requestCode: int, resultCode: int, data: Option<ResultIntent>): (r: Session)
    requires ActivityResultReadable(requestCode, resultCode, data)
    ensures OnlyLogGrew(s, r)
    ensures resultCode == ResultCanceled && requestCode == AddCardRequestCode ==>
              r == UpdateVaultedPaymentMethodNonces(s, true)
    ensures resultCode != ResultCanceled && requestCode == AddCardRequestCode ==>
              Finish in Emitted(s, r) && Emitted(s, r)[|Emitted(s, r)| - 1] == Finish
    ensures resultCode == ResultOk && requestCode == AddCardRequestCode ==>
              var added := data.value.dropInResult.value;
              Emitted(s, r) == [SetLastUsedPaymentMethodType(added.paymentMethodNonce),
                                SetResult(ResultOk, Some(ResultIntent(Some(added.(deviceData := s.deviceData)), None))),
                                Finish]
    ensures resultCode != ResultOk && resultCode != ResultCanceled && requestCode == AddCardRequestCode ==>
              Emitted(s, r) == [SetResult(resultCode, data), Finish]
    ensures resultCode == ResultOk && requestCode == DeletePaymentMethodNonceCode ==>
              Emitted(s, r) == NoncesUpdatedEffects(s.dropInRequest, ReturnedNonces(data)) +
                               (if s.clientTokenPresent then [GetPaymentMethodNonces] else [])
    ensures requestCode != AddCardRequestCode && (requestCode != DeletePaymentMethodNonceCode || resultCode != ResultOk) ==>
              r == s
  {
    if resultCode == ResultCanceled then
      if requestCode == AddCardRequestCode then UpdateVaultedPaymentMethodNonces(s, true) else s
    else if requestCode == AddCardRequestCode then
      if resultCode == ResultOk then
        var result := data.value.dropInResult.value.(deviceData := s.deviceData);
        s.(log := s.log + [SetLastUsedPaymentMethodType(result.paymentMethodNonce),
                           SetResult(resultCode, Some(ResultIntent(Some(result), None))),
                           Finish])
      else
        s.(log := s.log + [SetResult(resultCode, data), Finish])
    else if requestCode == DeletePaymentMethodNonceCode then
      if resultCode == ResultOk then
        var updated :=
          if data.Some? && data.value.paymentMethodNonces.Some?
          then OnPaymentMethodNoncesUpdated(s, data.value.paymentMethodNonces.value)
          else s;
        UpdateVaultedPaymentMethodNonces(updated, true)
      else s
    else s
  }

  /** onBackPressed: the cancel event, then finish without a result (RESULT_CANCELED). */
  function OnBackPressed(s: Session): (r: Session)
    ensures OnlyLogGrew(s, r) && Emitted(s, r) == [SendAnalyticsEvent(CanceledEvent), Finish]
  {
    s.(log := s.log + [SendAnalyticsEvent(CanceledEvent), Finish])
  }

  /** The events the screen handles, one constructor per handler. */
  datatype Event =
    | NonceCreated(nonce: PaymentMethodNonce)
    | ErrorRaised(error: DropInError)
    | Canceled(requestCode: int)
    | MethodSelected(methodType: PaymentMethodType)
    | VaultRefresh(refetch: bool)
    | NoncesUpdated(nonces: seq<PaymentMethodNonce>)
    | ActivityResult(requestCode: int, resultCode: int, data: Option<ResultIntent>)
    | BackPressed
    | GooglePayReadiness(isReadyToPay: bool)

  predicate WellFormed(e: Event)
  {
    e.ActivityResult? ==> ActivityResultReadable(e.requestCode, e.resultCode, e.data)
  }

  /** Dispatch one event to its handler. */
  function Step(ctx: Context, s: Session, e: Event): Session
    requires WellFormed(e)
  {
    match e
    case NonceCreated(n) => OnPaymentMethodNonceCreated(ctx, s, n)
    case ErrorRaised(err) => OnError(ctx, s, err)
    case Canceled(code) => OnCancel(s, code)
    case MethodSelected(t) => OnPaymentMethodSelected(s, t)
    case VaultRefresh(refetch) => UpdateVaultedPaymentMethodNonces(s, refetch)
    case NoncesUpdated(nonces) => OnPaymentMethodNoncesUpdated(s, nonces)
    case ActivityResult(req, res, data) => OnActivityResult(s, req, res, data)
    case BackPressed => OnBackPressed(s)
    case GooglePayReadiness(ready) => UpdateSupportedPaymentMethods(ctx, s, ready)
  }

  /** Process events in arrival order. */
  function Run(ctx: Context, s: Session, events: seq<Event>): Session
    requires forall i :: 0 <= i < |events| ==> WellFormed(events[i])
    decreases |events|
  {
    if events == [] then s else Run(ctx, Step(ctx, s, events[0]), events[1..])
  }
}
