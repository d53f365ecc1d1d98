/** Conversion of one raw feed entry of the configuration file into a
    `Feed`, with per-feed values falling back to global ones. */
module FeedDto {
  import opened Wrappers
  import opened Text
  import opened Urls
  import opened FeedTypes
  import opened FeedEntity

  /** A feed entry as deserialized: free text and optional numbers. */
  datatype FeedDTO = FeedDTO(
    name: string,
    url: string,
    updateInterval: Option<nat>,
    updateRetries: Option<nat>,
    active: Option<bool>)

  /** `FeedDTO::try_into_feed`: validates name, then URL, then interval,
      then retries, and stops at the first failure. The interval is the
      entry's own minutes, else the global ones, else 15; the retry budget
      is the entry's own, else the global one, else 3, each resolved on its
      own. */
  function TryIntoFeed(
    dto: FeedDTO,
    updateInterval: Option<nat>,
    updateRetries: Option<nat>,
    parse: Parser): (r: Result<Feed, FeedError>)
    ensures AllWhitespace(dto.name) ==> r == Err(EmptyName)
    ensures !AllWhitespace(dto.name) && parse(Trim(dto.url)).Err? ==>
      r == Err(InvalidUrl(parse(Trim(dto.url)).error))
    ensures var m := Resolve(dto.updateInterval, updateInterval, 15);
      !AllWhitespace(dto.name) && parse(Trim(dto.url)).Ok? && m < 5 ==>
      r == Err(InvalidUpdateInterval(5, m))
    ensures var m := Resolve(dto.updateInterval, updateInterval, 15);
      var n := Resolve(dto.updateRetries, updateRetries, 3);
      !AllWhitespace(dto.name) && parse(Trim(dto.url)).Ok? && m >= 5 && !(1 <= n <= 10) ==>
      r == Err(InvalidUpdateRetries(1, 10, n))
    ensures var m := Resolve(dto.updateInterval, updateInterval, 15);
      var n := Resolve(dto.updateRetries, updateRetries, 3);
      r.Ok? <==> !AllWhitespace(dto.name) && parse(Trim(dto.url)).Ok? && m >= 5 && 1 <= n <= 10
    ensures var m := Resolve(dto.updateInterval, updateInterval, 15);
      var n := Resolve(dto.updateRetries, updateRetries, 3);
      r.Ok? ==> && r.value.name == Trim(dto.name)
                && r.value.url == FeedUrl(parse(Trim(dto.url)).value)
                && r.value.updateInterval == m * 60
                && r.value.updateRetries == n
  {
    var name := NewName(dto.name);
    if name.Err? then Err(name.error) else
    var url := NewUrl(dto.url, parse);
    if url.Err? then Err(url.error) else
    var interval := NewInterval(dto.updateInterval.Or(updateInterval));
    if interval.Err? then Err(interval.error) else
    var retries := NewRetries(dto.updateRetries.Or(updateRetries));
    if retries.Err? then Err(retries.error) else
    Ok(NewFeed(name.value, url.value, interval.value, retries.value))
  }

  /** An entry's own interval shadows the global one, which is then never
      checked, whatever it is. */
  lemma OwnIntervalShadowsGlobal(
    dto: FeedDTO, global1: Option<nat>, global2: Option<nat>,
    updateRetries: Option<nat>, parse: Parser)
    requires dto.updateInterval.Some?
    ensures TryIntoFeed(dto, global1, updateRetries, parse)
         == TryIntoFeed(dto, global2, updateRetries, parse)
  {
  }

  /** An entry's own retry budget shadows the global one in the same way. */
  lemma OwnRetriesShadowGlobal(
    dto: FeedDTO, updateInterval: Option<nat>,
    global1: Option<nat>, global2: Option<nat>, parse: Parser)
    requires dto.updateRetries.Some?
    ensures TryIntoFeed(dto, updateInterval, global1, parse)
         == TryIntoFeed(dto, updateInterval, global2, parse)
  {
  }
}
