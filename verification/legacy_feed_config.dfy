/** The older, seconds-based feed configuration: raw entries resolved
    against global defaults without validation, and standalone validators
    that report the first problem found. */
module LegacyFeedConfig {
  import opened Wrappers
  import opened Text
  import opened Urls

  const DefaultUpdateInterval: int := 15 * 60
  const MinUpdateInterval: int := 5 * 60
  const DefaultUpdateRetries: nat := 3
  const MinUpdateRetries: nat := 1
  const MaxUpdateRetries: nat := 10

  /** Errors of the validators; each numeric error carries the rejected value. */
  datatype FeedError =
    | EmptyName
    | EmptyUrl
    | InvalidUrl(cause: ParseError)
    | InvalidUpdateInterval(interval: int)
    | InvalidUpdateRetries(retries: nat)

  /** A resolved feed entry; the interval is a signed number of seconds. */
  datatype FeedConfig = FeedConfig(
    name: string,
    url: string,
    updateInterval: int,
    updateRetries: nat)

  /** A feed entry as deserialized. */
  datatype RawFeedConfig = RawFeedConfig(
    name: string,
    url: string,
    updateInterval: Option<int>,
    updateRetries: Option<nat>,
    active: Option<bool>)

  /** `FeedConfig::from_raw`: total; copies name and URL verbatim and takes
      each number from the entry, else from the global value, else from the
      default (900 s, 3 retries), with no check on any of them. */
  function FromRaw(raw: RawFeedConfig, updateInterval: Option<int>, updateRetries: Option<nat>): (c: FeedConfig)
    ensures c.name == raw.name && c.url == raw.url
    ensures raw.updateInterval.Some? ==> c.updateInterval == raw.updateInterval.value
    ensures raw.updateInterval.None? && updateInterval.Some? ==> c.updateInterval == updateInterval.value
    ensures raw.updateInterval.None? && updateInterval.None? ==> c.updateInterval == 900
    ensures raw.updateRetries.Some? ==> c.updateRetries == raw.updateRetries.value
    ensures raw.updateRetries.None? && updateRetries.Some? ==> c.updateRetries == updateRetries.value
    ensures raw.updateRetries.None? && updateRetries.None? ==> c.updateRetries == 3
  {
    FeedConfig(
      raw.name,
      raw.url,
      raw.updateInterval.Or(updateInterval).UnwrapOr(DefaultUpdateInterval),
      raw.updateRetries.Or(updateRetries).UnwrapOr(DefaultUpdateRetries))
  }

  /** `validate_feed_name`: rejects a name that is nothing but whitespace. */
  function ValidateFeedName(name: string): (r: Outcome<FeedError>)
    ensures r.Fail? <==> AllWhitespace(name)
    ensures r.Fail? ==> r.error == EmptyName
  {
    TrimEmptyIff(name);
    if Trim(name) == [] then Fail(EmptyName) else Pass
  }

  /** `validate_url`: whitespace-only text is `EmptyUrl` before any parsing;
      otherwise the text is parsed as given, untrimmed. */
  function ValidateUrl(url: string, parse: Parser): (r: Outcome<FeedError>)
    ensures AllWhitespace(url) ==> r == Fail(EmptyUrl)
    ensures !AllWhitespace(url) ==> (r.Pass? <==> parse(url).Ok?)
    ensures !AllWhitespace(url) && parse(url).Err? ==> r == Fail(InvalidUrl(parse(url).error))
  {
    TrimEmptyIff(url);
    if Trim(url) == [] then Fail(EmptyUrl)
    else
      var parsed := parse(url);
      if parsed.Err? then Fail(InvalidUrl(parsed.error)) else Pass
  }

  /** `validate_feed_update_interval`: at least 300 seconds. */
  function ValidateFeedUpdateInterval(interval: int): (r: Outcome<FeedError>)
    ensures r.Pass? <==> interval >= 300
    ensures r.Fail? ==> r.error == InvalidUpdateInterval(interval)
  {
    if interval < MinUpdateInterval then Fail(InvalidUpdateInterval(interval)) else Pass
  }

  /** `validate_feed_update_retries`: within [1, 10]. */
  function ValidateFeedUpdateRetries(retries: nat): (r: Outcome<FeedError>)
    ensures r.Pass? <==> 1 <= retries <= 10
    ensures r.Fail? ==> r.error == InvalidUpdateRetries(retries)
  {
    if !(MinUpdateRetries <= retries <= MaxUpdateRetries) then Fail(InvalidUpdateRetries(retries)) else Pass
  }

  /** `RawFeedConfig::validate`: name, then URL, then the interval and the
      retry count only when the entry gives them; the first failure wins. */
  function Validate(raw: RawFeedConfig, parse: Parser): (r: Outcome<FeedError>)
    ensures AllWhitespace(raw.name) ==> r == Fail(EmptyName)
    ensures !AllWhitespace(raw.name) && AllWhitespace(raw.url) ==> r == Fail(EmptyUrl)
    ensures !AllWhitespace(raw.name) && !AllWhitespace(raw.url) && parse(raw.url).Err? ==>
      r == Fail(InvalidUrl(parse(raw.url).error))
    ensures (!AllWhitespace(raw.name) && !AllWhitespace(raw.url) && parse(raw.url).Ok? &&
      raw.updateInterval.Some? && raw.updateInterval.value < 300) ==>
      r == Fail(InvalidUpdateInterval(raw.updateInterval.value))
    ensures r.Pass? <==>
      && !AllWhitespace(raw.name)
      && !AllWhitespace(raw.url) && parse(raw.url).Ok?
      && (raw.updateInterval.Some? ==> raw.updateInterval.value >= 300)
      && (raw.updateRetries.Some? ==> 1 <= raw.updateRetries.value <= 10)
    ensures (!AllWhitespace(raw.name) && !AllWhitespace(raw.url) && parse(raw.url).Ok? &&
      (raw.updateInterval.Some? ==> raw.updateInterval.value >= 300) &&
      raw.updateRetries.Some? && !(1 <= raw.updateRetries.value <= 10)) ==>
      r == Fail(InvalidUpdateRetries(raw.updateRetries.value))
  {
    var name := ValidateFeedName(raw.name);
    if name.Fail? then name else
    var url := ValidateUrl(raw.url, parse);
    if url.Fail? then url else
    var interval := if raw.updateInterval.Some? then ValidateFeedUpdateInterval(raw.updateInterval.value) else Pass;
    if interval.Fail? then interval else
    if raw.updateRetries.Some? then ValidateFeedUpdateRetries(raw.updateRetries.value) else Pass
  }

  /** An entry that passes validation keeps its own numbers valid after
      resolution; the global values it falls back to are not checked. */
  lemma FromRawKeepsValidatedValues(
    raw: RawFeedConfig, updateInterval: Option<int>, updateRetries: Option<nat>, parse: Parser)
    requires Validate(raw, parse).Pass?
    ensures raw.updateInterval.Some? ==> FromRaw(raw, updateInterval, updateRetries).updateInterval >= MinUpdateInterval
    ensures raw.updateRetries.Some? ==>
      MinUpdateRetries <= FromRaw(raw, updateInterval, updateRetries).updateRetries <= MaxUpdateRetries
  {
  }
}
