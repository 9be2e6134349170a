/** The configuration a client is built from. */
module Options {

  /** A closed set of two regions. */
  datatype Region = US | EU

  const DefaultRetries: int := 0
  /** The retry delay is a duration the model stores but never interprets. */
  const DefaultRetryDelay: real := 100.0
  const DefaultEnableLogging: bool := false

  datatype CohoSDKOptions = CohoSDKOptions(
    tenantId: string,
    region: Region,
    retries: int,
    retryDelay: real,
    enableLogging: bool)

  /** The initializer: every argument is stored as given, with no validation;
      the last three may be omitted and then take their defaults. */
  function Make(
    tenantId: string,
    region: Region,
    retries: int := DefaultRetries,
    retryDelay: real := DefaultRetryDelay,
    enableLogging: bool := DefaultEnableLogging): (o: CohoSDKOptions)
    ensures o.tenantId == tenantId && o.region == region
    ensures o.retries == retries && o.retryDelay == retryDelay
    ensures o.enableLogging == enableLogging
  {
    CohoSDKOptions(tenantId, region, retries, retryDelay, enableLogging)
  }

  /** Options built from a tenant and a region alone do not retry, wait 100
      between attempts and do not log. */
  lemma DefaultsOfMake(tenantId: string, region: Region)
    ensures Make(tenantId, region).retries == 0
    ensures Make(tenantId, region).retryDelay == 100.0
    ensures !Make(tenantId, region).enableLogging
  {
  }

  /** Every region is one of the two cases. */
  lemma RegionIsUsOrEu(region: Region)
    ensures region == US || region == EU
  {
  }
}
