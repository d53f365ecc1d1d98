/** The self-validating feed value types of the domain layer and the error
    they report. Each type is a subset type, so a value of it can only exist
    when its invariant holds, as with the private-field wrappers it models. */
module FeedTypes {
  import opened Wrappers
  import opened Text
  import opened Urls

  /** Errors of the feed value constructors. `EmptyUrl` exists but no
      constructor returns it. */
  datatype FeedError =
    | EmptyName
    | EmptyUrl
    | InvalidUrl(cause: ParseError)
    | InvalidUpdateInterval(min: nat, got: nat)
    | InvalidUpdateRetries(min: nat, max: nat, got: nat)

  /** A feed name: trimmed and non-empty. */
  type FeedName = s: string | s != [] && IsTrimmed(s) witness "feed"

  /** A feed source: the parsed URL. */
  datatype FeedUrl = FeedUrl(url: Url) {
    function AsStr(): string {
      url.serialization
    }
  }

  const DefaultMinutes: nat := 15
  const MinMinutes: nat := 5

  /** A polling interval held in seconds, as the `Duration` built from whole
      minutes, never below the floor. */
  type FeedUpdateInterval = secs: nat | secs >= MinMinutes * 60 && secs % 60 == 0
    witness DefaultMinutes * 60

  const DefaultRetries: nat := 3
  const MinRetries: nat := 1
  const MaxRetries: nat := 10

  /** A retry budget within [MinRetries, MaxRetries]. */
  type FeedUpdateRetries = n: nat | MinRetries <= n <= MaxRetries witness DefaultRetries

  /** `FeedName::new`: the trimmed text, rejected when nothing but
      whitespace remains. */
  function NewName(name: string): (r: Result<FeedName, FeedError>)
    ensures r.Err? <==> AllWhitespace(name)
    ensures r.Err? ==> r.error == EmptyName
    ensures r.Ok? ==> r.value == Trim(name)
  {
    TrimEmptyIff(name);
    var t := Trim(name);
    if t == [] then Err(EmptyName) else Ok(t)
  }

  /** `FeedUrl::new`: parses the trimmed text; every failure is reported as
      `InvalidUrl` carrying the parser's error, even for empty text. */
  function NewUrl(url: string, parse: Parser): (r: Result<FeedUrl, FeedError>)
    ensures r.Ok? <==> parse(Trim(url)).Ok?
    ensures r.Ok? ==> r.value.url == parse(Trim(url)).value
    ensures r.Err? ==> r.error == InvalidUrl(parse(Trim(url)).error)
  {
    var parsed := parse(Trim(url));
    if parsed.Err? then Err(InvalidUrl(parsed.error)) else Ok(FeedUrl(parsed.value))
  }

  /** `FeedUpdateInterval::new`: minutes, defaulting to 15 when absent,
      rejected below 5, stored as seconds. */
  function NewInterval(minutes: Option<nat>): (r: Result<FeedUpdateInterval, FeedError>)
    ensures minutes.None? ==> r == Ok(900)
    ensures minutes.Some? ==> (r.Ok? <==> minutes.value >= 5)
    ensures minutes.Some? && r.Ok? ==> r.value == minutes.value * 60
    ensures minutes.Some? && r.Err? ==> r.error == InvalidUpdateInterval(5, minutes.value)
  {
    var m := minutes.UnwrapOr(DefaultMinutes);
    if m < MinMinutes then Err(InvalidUpdateInterval(MinMinutes, m))
    else Ok(m * 60)
  }

  /** `FeedUpdateRetries::new`: a count defaulting to 3 when absent,
      accepted within [1, 10]. */
  function NewRetries(retries: Option<nat>): (r: Result<FeedUpdateRetries, FeedError>)
    ensures retries.None? ==> r == Ok(3)
    ensures retries.Some? ==> (r.Ok? <==> 1 <= retries.value <= 10)
    ensures retries.Some? && r.Ok? ==> r.value == retries.value
    ensures retries.Some? && r.Err? ==> r.error == InvalidUpdateRetries(1, 10, retries.value)
  {
    var n := retries.UnwrapOr(DefaultRetries);
    if !(MinRetries <= n <= MaxRetries) then Err(InvalidUpdateRetries(MinRetries, MaxRetries, n))
    else Ok(n)
  }

  /** Building a name from a name's own text gives back the same name. */
  lemma NameIdempotent(name: string)
    requires NewName(name).Ok?
    ensures NewName(NewName(name).value) == NewName(name)
  {
    TrimIdempotent(name);
  }

  /** Whitespace around a URL never changes the outcome of `NewUrl`. */
  lemma UrlIgnoresPadding(w1: string, url: string, w2: string, parse: Parser)
    requires AllWhitespace(w1) && AllWhitespace(w2)
    ensures NewUrl(w1 + url + w2, parse) == NewUrl(url, parse)
  {
    TrimIgnoresPadding(w1, url, w2);
  }

  /** Every interval is rebuilt unchanged from its own number of minutes. */
  lemma IntervalRoundTrip(interval: FeedUpdateInterval)
    ensures NewInterval(Some(interval / 60)) == Ok(interval)
  {
    assert (interval / 60) * 60 == interval;
  }

  /** Every retry budget is rebuilt unchanged from its own count. */
  lemma RetriesRoundTrip(retries: FeedUpdateRetries)
    ensures NewRetries(Some(retries)) == Ok(retries)
  {
  }
}
