# Drop-In checkout screen: event handling, 3-D Secure step-up and the payment-method sheet

This project models the decision and state logic of `DropInActivity`. That is the Android
screen of the Braintree Drop-In SDK. It collects a payment method, may step it up with 3-D
Secure verification, and hands a result or an error back to the merchant's app.

The screen's collaborators are not modelled as code. These are PayPal, Venmo, Google Pay,
3-D Secure, the vaulted payment-method fetch, analytics, `setResult` and `finish`. Each call
into one of them is an `Action` appended to a log. Every handler is then judged by the
actions it appends and by the fields it changes.

Modules:

- `DropInTypes`: the values the screen works with. These are nonce kinds, payment-method
  types, error classes, the merchant's request, the gateway configuration, results and
  actions.
- `StepUp`: which nonces can be sent to 3-D Secure. It also covers how the verification
  request is completed from the checkout amount and the nonce.
- `ErrorClassification`: the `instanceof` chain that turns an error into one
  `sdk.exit.*` analytics event. It is checked against a reference table from error class to
  exit reason.
- `SupportedMethods`: the ordered list of payment methods offered on the sheet. The list is
  built by successive appends, as in the source. It is proved equal to a filter over the
  fixed order PayPal, Venmo, card (`Unknown`), Google Pay.
- `Selection`: which flow a selected payment method launches.
- `Orchestration`: each handler as a function from the screen's state (`Session`) before
  an event to its state after it. `Step` dispatches one event and `Run` processes a
  sequence of them.
- `SessionProperties`: properties over one event and over any sequence of events. The
  main one is the single-attempt rule for 3-D Secure: without a cancel or an error in
  between, verification is invoked at most once.
- `Activity`: the screen as a class whose fields the handlers update in place. Each
  method is proved to leave the object in exactly the state its `Orchestration` function
  describes.

Three behaviours of the code that a reader might not expect, all modelled as written:

- The code has no absorbing "finished" state. A nonce that cannot be stepped up and arrives
  after the screen has finished still calls finish with a result a second time
  (`SessionProperties.NoTerminalGuard`).
- A second eligible nonce arriving during a verification is not ignored. It goes straight
  to success (`SessionProperties.SecondNonceSkipsStepUp`).
- The unit tests send a `ServiceUnavailableException` and expect
  `sdk.exit.server-unavailable`. The handler itself tests for `DownForMaintenanceException`.
  The model follows the handler.

## Model

| member | source | states |
|---|---|---|
| StepUp.CanPerformThreeDSecureVerification | Drop-In/src/main/java/com/braintreepayments/api/DropInActivity.java:183-193 | Every card nonce is eligible for 3-D Secure. A Google Pay card nonce is eligible exactly when it is not network-tokenized. No other nonce kind is eligible. |
| StepUp.ResolveThreeDSecureRequest | Drop-In/src/main/java/com/braintreepayments/api/DropInActivity.java:162-171 | The verification request always carries the created nonce. With no request configured, the new one takes the checkout amount. A configured amount is never overwritten, and a missing one is taken from the checkout amount. The request has no amount exactly when neither side has one. |
| ErrorClassification.ExitAnalyticsEvent | Drop-In/src/main/java/com/braintreepayments/api/DropInActivity.java:138-149 | The chain of class tests gives, for every error class, the event of that class's exit reason in the reference table. Authentication, authorization and upgrade-required map to developer-error. Configuration maps to configuration-exception. Server and unexpected map to server-error. Down-for-maintenance maps to server-unavailable. Everything else maps to sdk-error. |
| ErrorClassification.ExitEventNamesDistinct | Drop-In/src/main/java/com/braintreepayments/api/DropInActivity.java:138-149 | Two exit reasons produce the same event name exactly when they are the same reason. Every exit event starts with `sdk.exit.` and differs from the success and cancel events. |
| ErrorClassification.SameEventIffSameReason | Drop-In/src/test/java/com/braintreepayments/api/DropInActivityUnitTest.java:365-410 | Two error classes are reported as the same analytics event if and only if they fall in the same exit reason. |
| SupportedMethods.AcceptedCardTypes | Drop-In/src/main/java/com/braintreepayments/api/DropInActivity.java:330-335 | The accepted card types are a subset of the configured ones and keep every type other than UnionPay. UnionPay is kept exactly when it is configured and enabled. |
| SupportedMethods.BuildAvailablePaymentMethods | Drop-In/src/main/java/com/braintreepayments/api/DropInActivity.java:320-348 | Building the list by successive appends gives exactly the filter of the fixed order PayPal, Venmo, card, Google Pay by each method's offer condition. |
| SupportedMethods.OfferedMembership | Drop-In/src/main/java/com/braintreepayments/api/DropInActivity.java:320-348 | A payment method is in the filtered list if and only if it is a candidate and its offer condition holds. |
| SupportedMethods.OfferedKeepsOrder | Drop-In/src/main/java/com/braintreepayments/api/DropInActivity.java:320-348 | The filtered list is a subsequence of the candidates, and it has no duplicates when the candidates have none. |
| SupportedMethods.AvailablePaymentMethodsSpec | Drop-In/src/main/java/com/braintreepayments/api/DropInActivity.java:320-348 | The offered list keeps the order PayPal, Venmo, card, Google Pay with each at most once. PayPal is offered iff the request and the configuration enable it, and Venmo likewise. The card is offered iff cards are enabled and some card type remains after UnionPay is removed when disabled. Google Pay is offered iff it is ready and the request enables it. |
| Selection.PayPalFlow | Drop-In/src/main/java/com/braintreepayments/api/DropInActivity.java:198-208 | Selecting PayPal launches exactly one of the two flows. It is the one-time payment exactly when the configured request has an amount, otherwise the billing agreement. The flow gets the configured request, or an empty default one when none is configured. |
| Selection.SelectionEffects | Drop-In/src/main/java/com/braintreepayments/api/DropInActivity.java:195-221 | A selection launches at most one flow. It launches exactly one for PayPal, Google Pay, Venmo and card entry, and that flow belongs to the selected method. Venmo is authorized with the request's vault setting. |
| Orchestration.NoncesUpdatedEffects | Drop-In/src/main/java/com/braintreepayments/api/DropInActivity.java:234-249 | An empty vaulted list has no effect. A non-empty one leads to exactly one action. It is a Google Pay readiness check on that list exactly when the request enables Google Pay, and otherwise showing the list with Google Pay unavailable. |
| Orchestration.OnPaymentMethodNoncesUpdated | Drop-In/src/main/java/com/braintreepayments/api/DropInActivity.java:234-249 | Receiving vaulted nonces changes nothing but the log, and appends exactly the effects above. |
| Orchestration.UpdateVaultedPaymentMethodNonces | Drop-In/src/main/java/com/braintreepayments/api/DropInActivity.java:224-232 | The vault refresh changes nothing but the log, and nothing at all without a client token. A fetch is issued if and only if there is a client token and either a refetch is forced or nothing was fetched yet, and then that single fetch is the only action. Otherwise the cached list is used. |
| Orchestration.HandleThreeDSecureFailure | Drop-In/src/main/java/com/braintreepayments/api/DropInActivity.java:116-121 | After recovery no verification is in progress. Without one in progress nothing changes. With one in progress, the flag is cleared and exactly one forced fetch is issued when a client token is present. |
| Orchestration.OnCancel | Drop-In/src/main/java/com/braintreepayments/api/DropInActivity.java:123-128 | A cancel outside a verification changes nothing. During one it clears the flag and issues only the forced fetch (when a client token is present). Every other field is unchanged. |
| Orchestration.UpdateSupportedPaymentMethods | Drop-In/src/main/java/com/braintreepayments/api/DropInActivity.java:320-348 | Only the offered list changes, and it becomes the list the request, the configuration and the readiness call for. |
| Orchestration.OnError | Drop-In/src/main/java/com/braintreepayments/api/DropInActivity.java:130-152 | An error always leaves no verification in progress and changes no field other than the flag, the offered list and the log. The actions are the recovery's, then the exit event of the error's class, then finishing with the same error. A Google API client error recomputes the offered list with Google Pay not ready, and any other error leaves the list alone. |
| Orchestration.OnPaymentMethodNonceCreated | Drop-In/src/main/java/com/braintreepayments/api/DropInActivity.java:154-181 | Step-up starts exactly when no verification was made, the nonce is eligible and verification is requested. Then the flag is set, the request is completed from the amount and the nonce, verification is the only action, and no other field changes. Otherwise only the log changes: the success event, storing the last-used type, and finishing with the nonce and the device data. |
| Orchestration.OnPaymentMethodSelected | Drop-In/src/main/java/com/braintreepayments/api/DropInActivity.java:195-221 | A selection changes only the log and appends exactly the selection's flow. |
| Orchestration.OnActivityResult | Drop-In/src/main/java/com/braintreepayments/api/DropInActivity.java:257-300 | A result changes only the log. A canceled card entry forces a vault refetch. A successful card entry stores the last-used type, hands the host the card result carrying the screen's device data, and finishes. Any other card-entry result hands back its own data and finishes. A successful vault-manager return handles the returned nonces, if any, and then forces a refetch when a client token is present. Other results change nothing. |
| Orchestration.OnBackPressed | Drop-In/src/main/java/com/braintreepayments/api/DropInActivity.java:306-312 | Back changes only the log: the cancel event, then finishing without a result. |
| SessionProperties.NonceCreatedBudget | Drop-In/src/main/java/com/braintreepayments/api/DropInActivity.java:155-174 | A created nonce keeps the budget (verifications so far, plus one while an attempt is open) exactly as it was. Either it uses up the open attempt with exactly one verification and sets the flag, or it invokes no verification. |
| SessionProperties.ErrorNeverVerifies | Drop-In/src/main/java/com/braintreepayments/api/DropInActivity.java:130-152 | The error handler never invokes 3-D Secure. |
| SessionProperties.VaultRefreshNeverVerifies | Drop-In/src/main/java/com/braintreepayments/api/DropInActivity.java:224-232 | A vault refresh never invokes 3-D Secure. |
| SessionProperties.VaultManagerResultNeverVerifies | Drop-In/src/main/java/com/braintreepayments/api/DropInActivity.java:283-297 | A successful vault-manager return never invokes 3-D Secure. |
| SessionProperties.ActivityResultNeverVerifies | Drop-In/src/main/java/com/braintreepayments/api/DropInActivity.java:257-300 | No activity result invokes 3-D Secure. |
| SessionProperties.OtherHandlersNeverVerify | Drop-In/src/main/java/com/braintreepayments/api/DropInActivity.java:116-152 | No handler other than nonce creation removes an action from the log or invokes 3-D Secure. |
| SessionProperties.StepBudget | Drop-In/src/main/java/com/braintreepayments/api/DropInActivity.java:116-181 | No handler removes an action. Only a cancel or an error can raise the budget, by at most one. |
| SessionProperties.RunBudget | Drop-In/src/main/java/com/braintreepayments/api/DropInActivity.java:116-181 | Over any sequence of events, the budget grows by at most the number of cancels and errors. |
| SessionProperties.StepUpAttemptsBounded | Drop-In/src/main/java/com/braintreepayments/api/DropInActivity.java:116-181 | Single attempt per cycle. Over any sequence of events, the verifications invoked plus an attempt still open at the end are at most the attempt open at the start plus the number of cancels and errors. |
| SessionProperties.AtMostOneStepUpWithoutFailure | Drop-In/src/main/java/com/braintreepayments/api/DropInActivity.java:155-174 | With no cancel or error, 3-D Secure is invoked at most once. It is not invoked at all if an attempt was already made. |
| SessionProperties.SecondNonceSkipsStepUp | Drop-In/src/main/java/com/braintreepayments/api/DropInActivity.java:155-181 | A second nonce arriving while a verification is in progress goes straight to success and does not re-enter 3-D Secure. |
| SessionProperties.StepUpCancelForcesRefetch | Drop-In/src/main/java/com/braintreepayments/api/DropInActivity.java:116-128 | With a client token present, a cancel during a verification clears the flag and issues exactly one forced fetch, never the cached read. |
| SessionProperties.StepUpErrorForcesRefetch | Drop-In/src/main/java/com/braintreepayments/api/DropInActivity.java:116-152 | With a client token present, an error during a verification issues the forced fetch first, then the error's exit event, then finishes with that error. |
| SessionProperties.ErrorExitsWithItsEvent | Drop-In/src/main/java/com/braintreepayments/api/DropInActivity.java:130-152 | Every error ends with its class's exit event and then finishing with the same error. The only actions before them are recovery fetches. |
| SessionProperties.AmountFallbackExample | Drop-In/src/main/java/com/braintreepayments/api/DropInActivity.java:162-172 | Suppose a card nonce is stepped up with no request amount. A checkout amount of 12.50 gives a verification for 12.50 on that nonce. No checkout amount gives a verification without an amount. |
| SessionProperties.PayPalCheckoutExample | Drop-In/src/main/java/com/braintreepayments/api/DropInActivity.java:198-208 | PayPal with an amount of 10.00 launches the one-time payment. The PayPal nonce it produces is returned to the host without 3-D Secure. |
| SessionProperties.SupportedRefreshIdempotent | Drop-In/src/main/java/com/braintreepayments/api/DropInActivity.java:320-348 | Refreshing the offered list twice with the same readiness is the same as refreshing it once. |
| SessionProperties.NoTerminalGuard | Drop-In/src/main/java/com/braintreepayments/api/DropInActivity.java:306-312 | A nonce that cannot be stepped up, arriving after a back press, still finishes the screen with a result after the cancel's `finish`. |
| Activity.DropInActivity.OnPaymentMethodNoncesUpdated | Drop-In/src/main/java/com/braintreepayments/api/DropInActivity.java:234-249 | The in-place handler leaves the object in the state `Orchestration.OnPaymentMethodNoncesUpdated` gives. |
| Activity.DropInActivity.UpdateVaultedPaymentMethodNonces | Drop-In/src/main/java/com/braintreepayments/api/DropInActivity.java:224-232 | The in-place handler leaves the object in the state `Orchestration.UpdateVaultedPaymentMethodNonces` gives. |
| Activity.DropInActivity.HandleThreeDSecureFailure | Drop-In/src/main/java/com/braintreepayments/api/DropInActivity.java:116-121 | The in-place recovery leaves the object in the state `Orchestration.HandleThreeDSecureFailure` gives. |
| Activity.DropInActivity.OnCancel | Drop-In/src/main/java/com/braintreepayments/api/DropInActivity.java:123-128 | The in-place handler leaves the object in the state `Orchestration.OnCancel` gives. |
| Activity.DropInActivity.UpdateSupportedPaymentMethods | Drop-In/src/main/java/com/braintreepayments/api/DropInActivity.java:320-348 | The offered list built by appends is the one `Orchestration.UpdateSupportedPaymentMethods` gives, and nothing else changes. |
| Activity.DropInActivity.OnError | Drop-In/src/main/java/com/braintreepayments/api/DropInActivity.java:130-152 | The in-place handler leaves the object in the state `Orchestration.OnError` gives. |
| Activity.DropInActivity.OnPaymentMethodNonceCreated | Drop-In/src/main/java/com/braintreepayments/api/DropInActivity.java:154-181 | The in-place handler leaves the object in the state `Orchestration.OnPaymentMethodNonceCreated` gives. |
| Activity.DropInActivity.CompleteThreeDSecureRequest | Drop-In/src/main/java/com/braintreepayments/api/DropInActivity.java:162-171 | The three in-place updates of the merchant's request leave exactly the 3-D Secure request that `StepUp.ResolveThreeDSecureRequest` describes. |
| Activity.DropInActivity.OnPaymentMethodSelected | Drop-In/src/main/java/com/braintreepayments/api/DropInActivity.java:195-221 | The in-place handler leaves the object in the state `Orchestration.OnPaymentMethodSelected` gives. |
| Activity.DropInActivity.OnActivityResult | Drop-In/src/main/java/com/braintreepayments/api/DropInActivity.java:257-300 | The in-place handler leaves the object in the state `Orchestration.OnActivityResult` gives. |
| Activity.DropInActivity.OnBackPressed | Drop-In/src/main/java/com/braintreepayments/api/DropInActivity.java:306-312 | The in-place handler leaves the object in the state `Orchestration.OnBackPressed` gives. |

## Left out

- Android lifecycle and UI are not modelled: `onCreate`, `onSaveInstanceState`, the `finish` animation, fragment transactions, the view model's loading flags, Intents and Parcelables. `finish` and `setResult` appear only as logged actions.
- Asynchronous collaborators are not modelled. These are the PayPal, Venmo, Google Pay and 3-D Secure flows, the vaulted-nonce fetch, device-data collection, `waitForConfiguration` and analytics transport. Their calls are logged actions. Their answers are handler inputs, such as the Google Pay readiness (the `GooglePayReadiness` event) or the nonces delivered to `onPaymentMethodNoncesUpdated`.
- `updatedVaultedPaymentMethods` and `AvailablePaymentMethodNonceList` are not modelled. The list's source is not available, so showing the vaulted list is a single logged action carrying the nonces and the readiness flag.
- `onConfigurationFetched`, `showVaultManager` and `showSelectPaymentMethodFragment` are outside the modelled handlers. The model takes the configuration, the client-token flag and the device data as given.
- Whether 3-D Secure is requested (`shouldRequestThreeDSecureVerification`, defined in the base activity, which is not part of this model) is a constant input of the screen.
- The SDK fragment's "has fetched" flag and nonce cache are state that no modelled handler changes. The fragment updates them after a fetch completes, which is outside this model.
- The 3-D Secure request is a value inside the merchant's request. Aliasing of the same Java object from elsewhere is not modelled.
- Orchestration.OnActivityResult: a successful card-entry result without a result payload would throw a null-pointer exception in the source. The model requires that payload (`ActivityResultReadable`) instead of modelling the crash.
- Card brands other than UnionPay, and every other `PaymentMethodType`, are folded into one value, because no branch of the screen tells them apart.
- Orchestration.OnBackPressed: the superclass back handling called first (`super.onBackPressed()`, line 308) is not modelled, because it is base-activity and framework code that is not part of this model. Its default finishes the screen, so the code most likely finishes once more before the cancel event.
- Activity.DropInActivity.OnBackPressed: the same superclass back handling is not modelled, for the same reason.
- Orchestration.OnActivityResult: the superclass result handling called first (`super.onActivityResult`, line 259) is not modelled, because it is framework code that is not part of this model.
- The Google Pay request passed to `requestPayment` is not modelled, since only its presence matters to the screen.
