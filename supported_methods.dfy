/** The ordered list of payment methods offered on the selection sheet. */
module SupportedMethods {
  import opened DropInTypes

  /** The canonical name under which UnionPay appears among the supported card types. */
  const UnionPayCanonicalName: string := "UnionPay"

  /** The fixed priority order of the selection sheet: PayPal, Venmo, card entry, Google Pay. */
  const PriorityOrder: seq<PaymentMethodType> := [PayPal, PayWithVenmo, Unknown, GooglePayment]

  /** The card types the card form accepts: the gateway's list, without UnionPay unless
      UnionPay is enabled. */
  function AcceptedCardTypes(configuration: Configuration): (accepted: set<string>)
    ensures accepted <= configuration.supportedCardTypes
    ensures forall t :: t in configuration.supportedCardTypes && t != UnionPayCanonicalName ==> t in accepted
    ensures UnionPayCanonicalName in accepted <==>
              configuration.unionPayEnabled && UnionPayCanonicalName in configuration.supportedCardTypes
  {
    if configuration.unionPayEnabled then configuration.supportedCardTypes
    else configuration.supportedCardTypes - {UnionPayCanonicalName}
  }

  /** Whether one method of the priority order is offered, given the merchant's request, the
      gateway configuration and whether Google Pay reported it is ready to pay. */
  predicate IsOffered(request: DropInRequest, configuration: Configuration, googlePayReady: bool,
                      t: PaymentMethodType)
  {
    match t
    case PayPal => request.payPalEnabled && configuration.payPalEnabled
    case PayWithVenmo => request.venmoEnabled && configuration.venmoEnabled
    case Unknown => request.cardEnabled && |AcceptedCardTypes(configuration)| > 0
    case GooglePayment => googlePayReady && request.googlePaymentEnabled
    case _ => false
  }

  /** The one-element contribution of a method to the sheet: itself if offered, else nothing. */
  function Slot(request: DropInRequest, configuration: Configuration, googlePayReady: bool,
                t: PaymentMethodType): seq<PaymentMethodType>
  {
    if IsOffered(request, configuration, googlePayReady, t) then [t] else []
  }

  /** The candidates that are offered, in the candidates' order. */
  function Offered(candidates: seq<PaymentMethodType>, request: DropInRequest, configuration: Configuration,
                   googlePayReady: bool): seq<PaymentMethodType>
  {
    if candidates == [] then []
    else Slot(request, configuration, googlePayReady, candidates[0]) +
         Offered(candidates[1..], request, configuration, googlePayReady)
  }

  /** The reference definition of the sheet: the priority order filtered by IsOffered. */
  function AvailablePaymentMethods(request: DropInRequest, configuration: Configuration,
                                   googlePayReady: bool): seq<PaymentMethodType>
  {
    Offered(PriorityOrder, request, configuration, googlePayReady)
  }

  /** One step of the filter: the head's slot, then the filtered tail. */
  lemma OfferedCons(t: PaymentMethodType, rest: seq<PaymentMethodType>, request: DropInRequest,
                    configuration: Configuration, googlePayReady: bool)
    ensures Offered([t] + rest, request, configuration, googlePayReady) ==
              Slot(request, configuration, googlePayReady, t) + Offered(rest, request, configuration, googlePayReady)
  {
    assert ([t] + rest)[1..] == rest;
  }

  /** The filter over the priority order, written out slot by slot. */
  lemma AvailablePaymentMethodsBySlot(request: DropInRequest, configuration: Configuration, googlePayReady: bool)
    ensures AvailablePaymentMethods(request, configuration, googlePayReady) ==
              Slot(request, configuration, googlePayReady, PayPal) +
              Slot(request, configuration, googlePayReady, PayWithVenmo) +
              Slot(request, configuration, googlePayReady, Unknown) +
              Slot(request, configuration, googlePayReady, GooglePayment)
  {
    var r, c, g := request, configuration, googlePayReady;
    var fromGooglePay: seq<PaymentMethodType> := [GooglePayment] + [];
    var fromCard := [Unknown] + fromGooglePay;
    var fromVenmo := [PayWithVenmo] + fromCard;
    assert PriorityOrder == [PayPal] + fromVenmo;
    OfferedCons(PayPal, fromVenmo, r, c, g);
    OfferedCons(PayWithVenmo, fromCard, r, c, g);
    OfferedCons(Unknown, fromGooglePay, r, c, g);
    OfferedCons(GooglePayment, [], r, c, g);
    assert Offered([], r, c, g) == [];
  }

  /** Builds the list by successive appends, one test per method, as the activity does. */
  method BuildAvailablePaymentMethods(request: DropInRequest, configuration: Configuration, googlePayEnabled: bool)
    returns (available: seq<PaymentMethodType>)
    ensures available == AvailablePaymentMethods(request, configuration, googlePayEnabled)
  {
    available := [];
    if request.payPalEnabled && configuration.payPalEnabled {
      available := available + [PayPal];
    }
    assert available == Slot(request, configuration, googlePayEnabled, PayPal);
    if request.venmoEnabled && configuration.venmoEnabled {
      available := available + [PayWithVenmo];
    }
    ghost var upToVenmo := available;
    if request.cardEnabled {
      var supportedCardTypes := configuration.supportedCardTypes;
      if !configuration.unionPayEnabled {
        supportedCardTypes := supportedCardTypes - {UnionPayCanonicalName};
      }
      assert supportedCardTypes == AcceptedCardTypes(configuration);
      if |supportedCardTypes| > 0 {
        available := available + [Unknown];
      }
    }
    assert available == upToVenmo + Slot(request, configuration, googlePayEnabled, Unknown);
    if googlePayEnabled {
      if request.googlePaymentEnabled {
        available := available + [GooglePayment];
      }
    }
    AvailablePaymentMethodsBySlot(request, configuration, googlePayEnabled);
  }

  /** `sub` is `s` with some elements dropped and the rest kept in order. */
  predicate IsSubsequence<T(==)>(sub: seq<T>, s: seq<T>)
    decreases |s|
  {
    sub == [] ||
    (s != [] && ((sub[0] == s[0] && IsSubsequence(sub[1..], s[1..])) || IsSubsequence(sub, s[1..])))
  }

  /** No element occurs twice. */
  predicate NoDuplicates<T(==)>(s: seq<T>)
  {
    forall i, j :: 0 <= i < j < |s| ==> s[i] != s[j]
  }

  /** A candidate is in the filtered list exactly when it is a candidate and offered. */
  lemma {:induction false} OfferedMembership(candidates: seq<PaymentMethodType>, request: DropInRequest,
                                             configuration: Configuration, googlePayReady: bool, t: PaymentMethodType)
    ensures t in Offered(candidates, request, configuration, googlePayReady) <==>
              t in candidates && IsOffered(request, configuration, googlePayReady, t)
    decreases |candidates|
  {
    if candidates != [] {
      OfferedMembership(candidates[1..], request, configuration, googlePayReady, t);
      assert candidates == [candidates[0]] + candidates[1..];
    }
  }

  /** Filtering keeps the candidates' order and repeats nothing the candidates do not. */
  lemma {:induction false} OfferedKeepsOrder(candidates: seq<PaymentMethodType>, request: DropInRequest,
                                             configuration: Configuration, googlePayReady: bool)
    ensures IsSubsequence(Offered(candidates, request, configuration, googlePayReady), candidates)
    ensures NoDuplicates(candidates) ==> NoDuplicates(Offered(candidates, request, configuration, googlePayReady))
    decreases |candidates|
  {
    if candidates != [] {
      var tail := candidates[1..];
      var rest := Offered(tail, request, configuration, googlePayReady);
      OfferedKeepsOrder(tail, request, configuration, googlePayReady);
      var r := Offered(candidates, request, configuration, googlePayReady);
      if r != rest {
        assert r == [candidates[0]] + rest;
        assert r[1..] == rest;
      }
      if NoDuplicates(candidates) {
        assert NoDuplicates(tail) by {
          forall i, j | 0 <= i < j < |tail| ensures tail[i] != tail[j] {
            assert tail[i] == candidates[i + 1] && tail[j] == candidates[j + 1];
          }
        }
        if r != rest {
          assert candidates[0] !in rest by {
            OfferedMembership(tail, request, configuration, googlePayReady, candidates[0]);
          }
          forall i, j | 0 <= i < j < |r| ensures r[i] != r[j] {
            assert r[j] == rest[j - 1];
            if i > 0 {
              assert r[i] == rest[i - 1];
            } else {
              assert r[j] in rest;
            }
          }
        }
      }
    }
  }

  /** What the selection sheet promises: the list follows the priority order, names each method
      at most once, and names each method exactly when it is enabled on both sides (card entry
      when some accepted card type is left, Google Pay when ready and requested). */
  lemma AvailablePaymentMethodsSpec(request: DropInRequest, configuration: Configuration, googlePayReady: bool)
    ensures IsSubsequence(AvailablePaymentMethods(request, configuration, googlePayReady), PriorityOrder)
    ensures NoDuplicates(AvailablePaymentMethods(request, configuration, googlePayReady))
    ensures PayPal in AvailablePaymentMethods(request, configuration, googlePayReady) <==>
              request.payPalEnabled && configuration.payPalEnabled
    ensures PayWithVenmo in AvailablePaymentMethods(request, configuration, googlePayReady) <==>
              request.venmoEnabled && configuration.venmoEnabled
    ensures Unknown in AvailablePaymentMethods(request, configuration, googlePayReady) <==>
              request.cardEnabled && |AcceptedCardTypes(configuration)| > 0
    ensures GooglePayment in AvailablePaymentMethods(request, configuration, googlePayReady) <==>
              googlePayReady && request.googlePaymentEnabled
    ensures forall t :: t in AvailablePaymentMethods(request, configuration, googlePayReady) ==> t in PriorityOrder
  {
    OfferedKeepsOrder(PriorityOrder, request, configuration, googlePayReady);
    forall t ensures t in AvailablePaymentMethods(request, configuration, googlePayReady) <==>
                       t in PriorityOrder && IsOffered(request, configuration, googlePayReady, t) {
      OfferedMembership(PriorityOrder, request, configuration, googlePayReady, t);
    }
  }
}
