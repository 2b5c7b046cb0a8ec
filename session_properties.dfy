/** Properties of the screen's handlers over one event and over whole event sequences. */
module SessionProperties {
  import opened DropInTypes
  import opened Orchestration
  import StepUp
  import ErrorClassification

  /** How many 3-D Secure verifications a log invokes. */
  function CountVerifications(log: seq<Action>): nat
    decreases |log|
  {
    if log == [] then 0
    else CountVerifications(log[..|log| - 1]) + (if log[|log| - 1].PerformVerification? then 1 else 0)
  }

  lemma {:induction false} CountVerificationsAppend(a: seq<Action>, b: seq<Action>)
    ensures CountVerifications(a + b) == CountVerifications(a) + CountVerifications(b)
    decreases |b|
  {
    if b == [] {
      assert a + b == a;
    } else {
      assert (a + b)[..|a + b| - 1] == a + b[..|b| - 1];
      CountVerificationsAppend(a, b[..|b| - 1]);
    }
  }

  /** A log none of whose actions invokes 3-D Secure counts no verification. */
  lemma {:induction false} NoVerificationCounted(log: seq<Action>)
    requires forall a :: a in log ==> !a.PerformVerification?
    ensures CountVerifications(log) == 0
    decreases |log|
  {
    if log != [] {
      assert log[|log| - 1] in log;
      NoVerificationCounted(log[..|log| - 1]);
    }
  }

  /** The events on which the screen runs its 3-D Secure recovery. */
  predicate IsFailureEvent(e: Event)
  {
    e.ErrorRaised? || e.Canceled?
  }

  function Failures(events: seq<Event>): nat
    decreases |events|
  {
    if events == [] then 0 else (if IsFailureEvent(events[0]) then 1 else 0) + Failures(events[1..])
  }

  /** Verifications invoked so far, plus one while another attempt is still allowed. */
  function Budget(s: Session): nat
  {
    CountVerifications(s.log) + (if s.performedThreeDSecureVerification then 0 else 1)
  }

  /** Appending actions none of which invokes 3-D Secure leaves the count unchanged. */
  lemma CountUnchanged(before: Session, after: Session)
    requires before.log <= after.log
    requires forall a :: a in Emitted(before, after) ==> !a.PerformVerification?
    ensures CountVerifications(after.log) == CountVerifications(before.log)
  {
    NoVerificationCounted(Emitted(before, after));
    CountVerificationsAppend(before.log, Emitted(before, after));
    assert after.log == before.log + Emitted(before, after);
  }

  /** A created nonce either uses up the open attempt with one verification, or returns the
      nonce without invoking one. */
  lemma NonceCreatedBudget(ctx: Context, s: Session, n: PaymentMethodNonce)
    ensures var r := OnPaymentMethodNonceCreated(ctx, s, n);
            s.log <= r.log && Budget(r) == Budget(s) &&
            ((CountVerifications(Emitted(s, r)) == 1 && !s.performedThreeDSecureVerification &&
              r.performedThreeDSecureVerification) ||
             CountVerifications(Emitted(s, r)) == 0)
  {
    var r := OnPaymentMethodNonceCreated(ctx, s, n);
    if StepUp.StartsStepUp(s.performedThreeDSecureVerification, n, ctx.threeDSecureRequested) {
      assert r.log == s.log + Emitted(s, r);
      CountVerificationsAppend(s.log, Emitted(s, r));
      assert CountVerifications(Emitted(s, r)) == 1 by {
        assert Emitted(s, r)[..0] == [];
      }
    } else {
      CountUnchanged(s, r);
      NoVerificationCounted(Emitted(s, r));
    }
  }

  /** An error only runs the recovery, then reports and finishes. */
  lemma ErrorNeverVerifies(ctx: Context, s: Session, error: DropInError)
    ensures forall a :: a in Emitted(s, OnError(ctx, s, error)) ==> !a.PerformVerification?
  {
    var recovered := Emitted(s, HandleThreeDSecureFailure(s));
    var exit: seq<Action> := [SendAnalyticsEvent(ErrorClassification.ExitAnalyticsEvent(error.kind)), FinishWithError(error)];
    assert Emitted(s, OnError(ctx, s, error)) == recovered + exit;
    assert recovered == [] || recovered == [GetPaymentMethodNonces];
    forall a: Action | a in recovered + exit
      ensures !a.PerformVerification?
    {
      if a !in recovered {
        assert a in exit;
      }
    }
  }

  /** Every handler other than nonce creation only appends actions that do not invoke 3-D Secure. */
  lemma OtherHandlersNeverVerify(ctx: Context, s: Session, e: Event)
    requires WellFormed(e) && !e.NonceCreated?
    ensures s.log <= Step(ctx, s, e).log
    ensures forall a :: a in Emitted(s, Step(ctx, s, e)) ==> !a.PerformVerification?
  {
    match e
    case ErrorRaised(err) =>
      ErrorNeverVerifies(ctx, s, err);
    case Canceled(_) =>
    case MethodSelected(t) =>
    case VaultRefresh(refetch) =>
      VaultRefreshNeverVerifies(s, refetch);
    case NoncesUpdated(_) =>
    case ActivityResult(req, res, data) =>
      ActivityResultNeverVerifies(s, req, res, data);
    case BackPressed =>
    case GooglePayReadiness(_) =>
  }

  /** No handler takes back an action, and only a cancel or an error can re-open 3-D Secure: every
      other event leaves Budget unchanged or lower. */
  lemma StepBudget(ctx: Context, s: Session, e: Event)
    requires WellFormed(e)
    ensures s.log <= Step(ctx, s, e).log
    ensures Budget(Step(ctx, s, e)) <= Budget(s) + (if IsFailureEvent(e) then 1 else 0)
  {
    if e.NonceCreated? {
      NonceCreatedBudget(ctx, s, e.nonce);
    } else {
      var r := Step(ctx, s, e);
      OtherHandlersNeverVerify(ctx, s, e);
      CountUnchanged(s, r);
      assert !IsFailureEvent(e) ==> r.performedThreeDSecureVerification == s.performedThreeDSecureVerification;
    }
  }

  /** The actions of two consecutive handlers are those of the first, then those of the second. */
  lemma EmittedSplit(s: Session, m: Session, r: Session)
    requires s.log <= m.log && m.log <= r.log
    ensures s.log <= r.log && Emitted(s, r) == Emitted(s, m) + Emitted(m, r)
  {
  }

  /** A vault refresh only fetches, or asks for readiness of, or shows the vaulted list. */
  lemma VaultRefreshNeverVerifies(s: Session, refetch: bool)
    ensures forall a :: a in Emitted(s, UpdateVaultedPaymentMethodNonces(s, refetch)) ==> !a.PerformVerification?
  {
  }

  /** A returning vault manager never invokes 3-D Secure. */
  lemma VaultManagerResultNeverVerifies(s: Session, data: Option<ResultIntent>)
    ensures var r := OnActivityResult(s, DeletePaymentMethodNonceCode, ResultOk, data);
            forall a :: a in Emitted(s, r) ==> !a.PerformVerification?
  {
    var updated :=
      if data.Some? && data.value.paymentMethodNonces.Some?
      then OnPaymentMethodNoncesUpdated(s, data.value.paymentMethodNonces.value)
      else s;
    var refreshed := UpdateVaultedPaymentMethodNonces(updated, true);
    VaultRefreshNeverVerifies(updated, true);
    EmittedSplit(s, updated, refreshed);
  }

  /** An activity result never invokes 3-D Secure. */
  lemma ActivityResultNeverVerifies(s: Session, requestCode: int, resultCode: int, data: Option<ResultIntent>)
    requires ActivityResultReadable(requestCode, resultCode, data)
    ensures forall a :: a in Emitted(s, OnActivityResult(s, requestCode, resultCode, data)) ==> !a.PerformVerification?
  {
    var r := OnActivityResult(s, requestCode, resultCode, data);
    if resultCode == ResultCanceled {
      VaultRefreshNeverVerifies(s, true);
    } else if requestCode == AddCardRequestCode {
      if resultCode == ResultOk {
        var result := data.value.dropInResult.value.(deviceData := s.deviceData);
        assert Emitted(s, r) == [SetLastUsedPaymentMethodType(result.paymentMethodNonce),
                                 SetResult(resultCode, Some(ResultIntent(Some(result), None))), Finish];
      } else {
        assert Emitted(s, r) == [SetResult(resultCode, data), Finish];
      }
    } else if requestCode == DeletePaymentMethodNonceCode && resultCode == ResultOk {
      VaultManagerResultNeverVerifies(s, data);
    } else {
      assert r == s;
    }
  }

  /** Over any sequence of events the budget grows by at most the number of cancels and errors. */
  lemma {:induction false} RunBudget(ctx: Context, s: Session, events: seq<Event>)
    requires forall i :: 0 <= i < |events| ==> WellFormed(events[i])
    ensures s.log <= Run(ctx, s, events).log
    ensures Budget(Run(ctx, s, events)) <= Budget(s) + Failures(events)
    decreases |events|
  {
    if events != [] {
      StepBudget(ctx, s, events[0]);
      RunBudget(ctx, Step(ctx, s, events[0]), events[1..]);
    }
  }

  /** Single attempt per cycle, over any sequence of events: the verifications invoked, plus one
      if another attempt is still open at the end, never exceed one (if an attempt was open at the
      start) plus the number of cancels and errors, the only events that re-open an attempt. */
  lemma StepUpAttemptsBounded(ctx: Context, s: Session, events: seq<Event>)
    requires forall i :: 0 <= i < |events| ==> WellFormed(events[i])
    ensures s.log <= Run(ctx, s, events).log
    ensures CountVerifications(Emitted(s, Run(ctx, s, events))) +
              (if Run(ctx, s, events).performedThreeDSecureVerification then 0 else 1) <=
            (if s.performedThreeDSecureVerification then 0 else 1) + Failures(events)
  {
    var r := Run(ctx, s, events);
    RunBudget(ctx, s, events);
    assert r.log == s.log + Emitted(s, r);
    CountVerificationsAppend(s.log, Emitted(s, r));
  }

  /** Without a cancel or an error in between, 3-D Secure is invoked at most once, and not at all
      once an attempt has been made. */
  lemma AtMostOneStepUpWithoutFailure(ctx: Context, s: Session, events: seq<Event>)
    requires forall i :: 0 <= i < |events| ==> WellFormed(events[i])
    requires Failures(events) == 0
    ensures s.log <= Run(ctx, s, events).log
    ensures CountVerifications(Emitted(s, Run(ctx, s, events))) <=
              (if s.performedThreeDSecureVerification then 0 else 1)
  {
    StepUpAttemptsBounded(ctx, s, events);
  }

  /** A second eligible nonce arriving while a verification is in progress goes straight to
      success: it is returned to the host and 3-D Secure is not entered again. */
  lemma SecondNonceSkipsStepUp(ctx: Context, s: Session, first: PaymentMethodNonce, second: PaymentMethodNonce)
    requires StepUp.StartsStepUp(s.performedThreeDSecureVerification, first, ctx.threeDSecureRequested)
    ensures var s1 := OnPaymentMethodNonceCreated(ctx, s, first);
            var s2 := OnPaymentMethodNonceCreated(ctx, s1, second);
            s1.log <= s2.log && s2.performedThreeDSecureVerification &&
            Emitted(s1, s2) == [SendAnalyticsEvent(SuccessEvent), SetLastUsedPaymentMethodType(second),
                                FinishWithResult(DropInResult(second, s.deviceData))]
  {
  }

  /** A cancel during a verification clears the flag and issues exactly one forced fetch of the
      vaulted list, never the cached read, even when the list was fetched before. */
  lemma StepUpCancelForcesRefetch(ctx: Context, s: Session, n: PaymentMethodNonce, requestCode: int)
    requires StepUp.StartsStepUp(s.performedThreeDSecureVerification, n, ctx.threeDSecureRequested)
    requires s.clientTokenPresent
    ensures var s1 := OnPaymentMethodNonceCreated(ctx, s, n);
            var s2 := OnCancel(s1, requestCode);
            !s2.performedThreeDSecureVerification && s1.log <= s2.log &&
            Emitted(s1, s2) == [GetPaymentMethodNonces]
  {
  }

  /** An error during a verification: the forced fetch comes first, then the exit event of the
      error's class, then the screen finishes with that error. */
  lemma StepUpErrorForcesRefetch(ctx: Context, s: Session, n: PaymentMethodNonce, error: DropInError)
    requires StepUp.StartsStepUp(s.performedThreeDSecureVerification, n, ctx.threeDSecureRequested)
    requires s.clientTokenPresent
    ensures var s1 := OnPaymentMethodNonceCreated(ctx, s, n);
            var s2 := OnError(ctx, s1, error);
            !s2.performedThreeDSecureVerification && s1.log <= s2.log &&
            Emitted(s1, s2) == [GetPaymentMethodNonces,
                                SendAnalyticsEvent(ErrorClassification.ExitAnalyticsEvent(error.kind)),
                                FinishWithError(error)]
  {
  }

  /** Every error sends exactly one analytics event, its class's exit event, and finishes last
      with the same error object; before them at most the recovery's fetch is issued. */
  lemma ErrorExitsWithItsEvent(ctx: Context, s: Session, error: DropInError)
    ensures var r := OnError(ctx, s, error);
            s.log <= r.log && |Emitted(s, r)| >= 2 &&
            Emitted(s, r)[|Emitted(s, r)| - 2..] ==
              [SendAnalyticsEvent(ErrorClassification.ExitEventName(ErrorClassification.ExitReasonOf(error.kind))),
               FinishWithError(error)] &&
            forall i :: 0 <= i < |Emitted(s, r)| - 2 ==> Emitted(s, r)[i] == GetPaymentMethodNonces
  {
    var r := OnError(ctx, s, error);
    var recovered := HandleThreeDSecureFailure(s);
    assert Emitted(s, r)[..|Emitted(s, r)| - 2] == Emitted(s, recovered);
  }

  /** With a checkout amount of 12.50 and no 3-D Secure request, the verification runs for
      12.50 on the created nonce; with no amount anywhere it runs without one. */
  lemma AmountFallbackExample(ctx: Context, s: Session, n: PaymentMethodNonce)
    requires n.kind.CardNonce? && ctx.threeDSecureRequested && !s.performedThreeDSecureVerification
    requires s.dropInRequest.threeDSecureRequest.None? || s.dropInRequest.threeDSecureRequest.value.amount.None?
    ensures s.dropInRequest.amount == Some("12.50") ==>
              Emitted(s, OnPaymentMethodNonceCreated(ctx, s, n)) ==
                [PerformVerification(ThreeDSecureRequest(Some("12.50"), Some(n.nonce)))]
    ensures s.dropInRequest.amount.None? ==>
              Emitted(s, OnPaymentMethodNonceCreated(ctx, s, n)) ==
                [PerformVerification(ThreeDSecureRequest(None, Some(n.nonce)))]
  {
  }

  /** Selecting PayPal with an amount of 10.00 launches the one-time payment flow; the PayPal
      nonce it produces is never sent to 3-D Secure and is returned to the host. */
  lemma PayPalCheckoutExample(ctx: Context, s: Session, n: PaymentMethodNonce)
    requires s.dropInRequest.payPalRequest == Some(PayPalRequest(Some("10.00")))
    requires n.kind.PayPalAccountNonce?
    ensures var s1 := OnPaymentMethodSelected(s, PayPal);
            var s2 := OnPaymentMethodNonceCreated(ctx, s1, n);
            Emitted(s, s1) == [RequestOneTimePayment(PayPalRequest(Some("10.00")))] &&
            s1.log <= s2.log && Emitted(s1, s2) == SuccessEffects(s1, n)
  {
  }

  /** Refreshing the offered list twice with the same readiness is the same as doing it once. */
  lemma SupportedRefreshIdempotent(ctx: Context, s: Session, ready: bool)
    ensures Step(ctx, Step(ctx, s, GooglePayReadiness(ready)), GooglePayReadiness(ready)) ==
            Step(ctx, s, GooglePayReadiness(ready))
  {
  }

  /** The handlers keep no finished state: a nonce arriving after a back press still finishes the
      screen a second time with a result. */
  lemma NoTerminalGuard(ctx: Context, s: Session, n: PaymentMethodNonce)
    requires !StepUp.CanPerformThreeDSecureVerification(n)
    ensures var s1 := OnBackPressed(s);
            var s2 := OnPaymentMethodNonceCreated(ctx, s1, n);
            s.log <= s2.log && Finish in Emitted(s, s2) && FinishWithResult(DropInResult(n, s.deviceData)) in Emitted(s, s2)
  {
    var s1 := OnBackPressed(s);
    var s2 := OnPaymentMethodNonceCreated(ctx, s1, n);
    assert Emitted(s, s2) == Emitted(s, s1) + Emitted(s1, s2);
  }
}
