/** The constant tables of the SDK: endpoints, header names and values,
    messages and the retryable status codes. */
module Constants {

  // Endpoints
  const UsEndpoint: string := "https://app.us.coho.ai/api/raw-data/custom"
  const EuEndpoint: string := "https://app.coho.ai/api/raw-data/custom"

  /** The ingestion route both endpoints share; the SDK's tests read it back
      as the request URL's path. */
  const IngestionPath: string := "/api/raw-data/custom"

  // Headers
  const ContentType: string := "Content-Type"
  const Accept: string := "Accept"
  const AcceptAll: string := "*/*"
  const TenantIdKey: string := "X-Coho-TenantId"
  const UserIdKey: string := "X-Coho-UserId-Key"
  const ApplicationJson: string := "application/json"
  /** The value sent under `UserIdKey`: a fixed marker, not a user's id. */
  const UserIdMarker: string := "userId"

  // Messages
  const ServerErrorMessage: string := "Server error"
  const FailedAfterRetriesMessage: string := "Failed to send event after retries"

  /** The status codes treated as transient, in the order the source lists them. */
  const RetryableErrorCodes: seq<int> := [408, 429, 500, 502, 503, 504]

  /** A code is retryable when it occurs in the table above. */
  predicate IsRetryable(code: int) {
    code in RetryableErrorCodes
  }

  predicate StartsWith(s: string, prefix: string) {
    |prefix| <= |s| && s[..|prefix|] == prefix
  }

  predicate EndsWith(s: string, suffix: string) {
    |suffix| <= |s| && s[|s| - |suffix|..] == suffix
  }

  /** The retryable set is exactly these six codes. */
  lemma RetryableCodesExactly(code: int)
    ensures IsRetryable(code) <==> code in {408, 429, 500, 502, 503, 504}
  {
  }

  /** Neither a bad request, nor the code used when there is no HTTP response,
      nor any success status is retryable. */
  lemma NotRetryable(code: int)
    requires code == 400 || code == 0 || 200 <= code < 300
    ensures !IsRetryable(code)
  {
  }

  /** The two endpoints are different URLs on the same ingestion route. */
  lemma EndpointsShareRoute()
    ensures UsEndpoint != EuEndpoint
    ensures StartsWith(UsEndpoint, "https://") && StartsWith(EuEndpoint, "https://")
    ensures EndsWith(UsEndpoint, IngestionPath) && EndsWith(EuEndpoint, IngestionPath)
  {
    assert UsEndpoint == "https://" + "app.us.coho.ai" + IngestionPath;
    assert EuEndpoint == "https://" + "app.coho.ai" + IngestionPath;
  }

  /** The terminal failure message is not the transient one. */
  lemma MessagesDistinct()
    ensures FailedAfterRetriesMessage != ServerErrorMessage
  {
  }
}
