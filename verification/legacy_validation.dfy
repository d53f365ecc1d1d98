/** The older standalone validators, which tell a retry count that is too
    small from one that is too big. */
module LegacyValidation {
  import opened Wrappers
  import opened Text
  import opened Urls
  import LegacyFeedConfig

  datatype ValidationError =
    | EmptyName
    | EmptyUrl
    | InvalidUrlFormat
    | UpdateIntervalTooSmall(interval: nat)
    | UpdateRetriesTooSmall(retries: nat)
    | UpdateRetriesTooBig(retries: nat)

  /** `validate_feed_name`. */
  function ValidateFeedName(value: string): (r: Outcome<ValidationError>)
    ensures r.Fail? <==> AllWhitespace(value)
    ensures r.Fail? ==> r.error == EmptyName
  {
    TrimEmptyIff(value);
    if Trim(value) == [] then Fail(EmptyName) else Pass
  }

  /** `validate_url`: the emptiness check comes first; a parse failure
      loses the parser's detail. */
  function ValidateUrl(value: string, parse: Parser): (r: Outcome<ValidationError>)
    ensures AllWhitespace(value) ==> r == Fail(EmptyUrl)
    ensures !AllWhitespace(value) ==> (r == Fail(InvalidUrlFormat) <==> parse(value).Err?)
    ensures !AllWhitespace(value) ==> (r.Pass? <==> parse(value).Ok?)
  {
    TrimEmptyIff(value);
    if Trim(value) == [] then Fail(EmptyUrl)
    else if parse(value).Err? then Fail(InvalidUrlFormat)
    else Pass
  }

  /** `validate_update_interval`: at least 300 seconds. */
  function ValidateUpdateInterval(value: nat): (r: Outcome<ValidationError>)
    ensures r.Pass? <==> value >= 300
    ensures r.Fail? ==> r.error == UpdateIntervalTooSmall(value)
  {
    if value < LegacyFeedConfig.MinUpdateInterval then Fail(UpdateIntervalTooSmall(value)) else Pass
  }

  /** `validate_update_retries`: below 1 is too small, above 10 too big. */
  function ValidateUpdateRetries(value: nat): (r: Outcome<ValidationError>)
    ensures r == Fail(UpdateRetriesTooSmall(value)) <==> value < 1
    ensures r == Fail(UpdateRetriesTooBig(value)) <==> value > 10
    ensures r.Pass? <==> 1 <= value <= 10
    ensures r.Fail? ==> r.error.UpdateRetriesTooSmall? || r.error.UpdateRetriesTooBig?
    ensures r.Fail? ==> r.error.retries == value
  {
    if value < LegacyFeedConfig.MinUpdateRetries then Fail(UpdateRetriesTooSmall(value))
    else if value > LegacyFeedConfig.MaxUpdateRetries then Fail(UpdateRetriesTooBig(value))
    else Pass
  }
}
