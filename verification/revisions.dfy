/** How the checks of the older configuration revision line up with the
    domain value types: the same values are accepted, in different units
    and with differently shaped errors. */
module Revisions {
  import opened Wrappers
  import opened Urls
  import FeedTypes
  import LegacyFeedConfig
  import LegacyValidation

  /** All three name checks accept exactly the same names. */
  lemma NameChecksAgree(name: string)
    ensures LegacyFeedConfig.ValidateFeedName(name).Pass? <==> FeedTypes.NewName(name).Ok?
    ensures LegacyValidation.ValidateFeedName(name).Pass? <==> FeedTypes.NewName(name).Ok?
  {
  }

  /** All three retry checks accept exactly [1, 10]. */
  lemma RetryChecksAgree(retries: nat)
    ensures LegacyFeedConfig.ValidateFeedUpdateRetries(retries).Pass? <==> FeedTypes.NewRetries(Some(retries)).Ok?
    ensures LegacyValidation.ValidateUpdateRetries(retries).Pass? <==> FeedTypes.NewRetries(Some(retries)).Ok?
  {
  }

  /** The domain interval counts minutes where the older checks count
      seconds: `m` minutes pass exactly when `60 * m` seconds do, and the
      default of 15 minutes is the older default of 900 seconds. */
  lemma IntervalUnitsAgree(minutes: nat)
    ensures FeedTypes.NewInterval(Some(minutes)).Ok?
        <==> LegacyFeedConfig.ValidateFeedUpdateInterval(minutes * 60).Pass?
    ensures FeedTypes.NewInterval(Some(minutes)).Ok?
        <==> LegacyValidation.ValidateUpdateInterval(minutes * 60).Pass?
    ensures FeedTypes.NewInterval(None) == Ok(LegacyFeedConfig.DefaultUpdateInterval)
  {
  }

  /** The two older URL checks accept and reject the same text; only the
      error detail differs. */
  lemma UrlChecksAgree(url: string, parse: Parser)
    ensures LegacyFeedConfig.ValidateUrl(url, parse).Pass? <==> LegacyValidation.ValidateUrl(url, parse).Pass?
    ensures LegacyFeedConfig.ValidateUrl(url, parse) == Fail(LegacyFeedConfig.EmptyUrl)
        <==> LegacyValidation.ValidateUrl(url, parse) == Fail(LegacyValidation.EmptyUrl)
  {
  }
}
