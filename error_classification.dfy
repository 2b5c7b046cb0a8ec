/** How an error reaching the screen is reported to analytics before the screen closes. */
module ErrorClassification {
  import opened DropInTypes

  /** The error taxonomy: the exit reason each class of failure is reported under. */
  datatype ExitReason = DeveloperError | ConfigurationInvalid | ServerFailure | ServiceUnavailable | Unclassified

  /** Reference table from exception class to exit reason. */
  function ExitReasonOf(kind: ErrorKind): ExitReason
  {
    match kind
    case AuthenticationException => DeveloperError
    case AuthorizationException => DeveloperError
    case UpgradeRequiredException => DeveloperError
    case ConfigurationException => ConfigurationInvalid
    case ServerException => ServerFailure
    case UnexpectedException => ServerFailure
    case DownForMaintenanceException => ServiceUnavailable
    case GoogleApiClientException => Unclassified
    case OtherException => Unclassified
  }

  /** The analytics event each exit reason is reported as. */
  function ExitEventName(reason: ExitReason): string
  {
    match reason
    case DeveloperError => "sdk.exit.developer-error"
    case ConfigurationInvalid => "sdk.exit.configuration-exception"
    case ServerFailure => "sdk.exit.server-error"
    case ServiceUnavailable => "sdk.exit.server-unavailable"
    case Unclassified => "sdk.exit.sdk-error"
  }

  /** The event the error handler sends, by its chain of class tests in source order; it agrees
      with the reference table for every exception class. */
  function ExitAnalyticsEvent(kind: ErrorKind): (eventName: string)
    ensures eventName == ExitEventName(ExitReasonOf(kind))
  {
    if kind == AuthenticationException || kind == AuthorizationException || kind == UpgradeRequiredException then
      "sdk.exit.developer-error"
    else if kind == ConfigurationException then
      "sdk.exit.configuration-exception"
    else if kind == ServerException || kind == UnexpectedException then
      "sdk.exit.server-error"
    else if kind == DownForMaintenanceException then
      "sdk.exit.server-unavailable"
    else
      "sdk.exit.sdk-error"
  }

  /** Different exit reasons are reported as different events, none of which is the success or
      the cancel event: the classification is exclusive as seen from analytics. */
  lemma ExitEventNamesDistinct(a: ExitReason, b: ExitReason)
    ensures ExitEventName(a) == ExitEventName(b) <==> a == b
    ensures ExitEventName(a) != SuccessEvent && ExitEventName(a) != CanceledEvent
    ensures ExitEventName(a)[..9] == "sdk.exit."
  {
    var na, nb := ExitEventName(a), ExitEventName(b);
    if a != b {
      // The events already differ at one of these positions.
      assert na[9] != nb[9] || na[13] != nb[13] || na[16] != nb[16];
    }
    assert na[9] != SuccessEvent[9] || na[10] != SuccessEvent[10];
    assert na[9] != CanceledEvent[9] || na[10] != CanceledEvent[10];
  }

  /** Two exception classes are reported as the same event exactly when the taxonomy puts them
      in the same class. */
  lemma SameEventIffSameReason(k1: ErrorKind, k2: ErrorKind)
    ensures ExitAnalyticsEvent(k1) == ExitAnalyticsEvent(k2) <==> ExitReasonOf(k1) == ExitReasonOf(k2)
  {
    ExitEventNamesDistinct(ExitReasonOf(k1), ExitReasonOf(k2));
  }
}
