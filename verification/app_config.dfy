/** Assembly of the application configuration from its deserialized form:
    inactive entries are dropped, the rest are converted in order with the
    shared global defaults, the first failure aborts, and an empty result is
    an error of its own. */
module AppConfig {
  import opened Wrappers
  import opened Urls
  import FeedTypes
  import opened FeedEntity
  import opened FeedDto

  /** Errors of the queue section, reported by a validator that is not part
      of this model. */
  datatype QueueError = EmptyEndpoint | EmptyExchangeName | EmptyUsername | EmptyPassword

  /** Errors of configuration loading. Reading and parsing the file are not
      modelled; their errors keep only a message. */
  datatype ConfigError =
    | FileReadError(message: string)
    | TomlParseError(message: string)
    | FeedError(cause: FeedTypes.FeedError)
    | QueueError(queueCause: QueueError)
    | NoActiveFeeds

  /** The validated configuration. `Q` is the queue section, which this
      step passes along untouched. */
  datatype Config<Q> = Config(feeds: seq<Feed>, queue: Q)

  /** The configuration as deserialized. */
  datatype ConfigDTO<Q> = ConfigDTO(
    feeds: seq<FeedDTO>,
    updateInterval: Option<nat>,
    updateRetries: Option<nat>,
    queue: Q)

  /** An entry is kept unless it says `active = false`. */
  function IsActive(dto: FeedDTO): (b: bool)
    ensures b <==> dto.active != Some(false)
  {
    dto.active.UnwrapOr(true)
  }

  /** The entries that survive the inactive filter, in input order. */
  function ActiveFeeds(dtos: seq<FeedDTO>): (r: seq<FeedDTO>)
    ensures |r| <= |dtos|
    ensures forall d :: d in r <==> d in dtos && IsActive(d)
  {
    if dtos == [] then []
    else (if IsActive(dtos[0]) then [dtos[0]] else []) + ActiveFeeds(dtos[1..])
  }

  /** The filter distributes over concatenation, so it keeps relative order. */
  lemma {:induction false} ActiveFeedsAppend(a: seq<FeedDTO>, b: seq<FeedDTO>)
    ensures ActiveFeeds(a + b) == ActiveFeeds(a) + ActiveFeeds(b)
    decreases |a|
  {
    if a == [] {
      assert a + b == b;
    } else {
      assert (a + b)[1..] == a[1..] + b;
      ActiveFeedsAppend(a[1..], b);
    }
  }

  /** Position of the first entry that fails conversion, or `|dtos|`. */
  function FirstInvalid(
    dtos: seq<FeedDTO>, updateInterval: Option<nat>, updateRetries: Option<nat>,
    parse: Parser): (i: nat)
    ensures i <= |dtos|
    ensures forall k :: 0 <= k < i ==> TryIntoFeed(dtos[k], updateInterval, updateRetries, parse).Ok?
    ensures i < |dtos| ==> TryIntoFeed(dtos[i], updateInterval, updateRetries, parse).Err?
  {
    if dtos == [] then 0
    else if TryIntoFeed(dtos[0], updateInterval, updateRetries, parse).Err? then 0
    else 1 + FirstInvalid(dtos[1..], updateInterval, updateRetries, parse)
  }

  /** Converting every entry and collecting into one `Result`: the error of
      the first failing entry, or every converted feed in order. */
  function CollectFeeds(
    dtos: seq<FeedDTO>, updateInterval: Option<nat>, updateRetries: Option<nat>,
    parse: Parser): (r: Result<seq<Feed>, FeedTypes.FeedError>)
    ensures var i := FirstInvalid(dtos, updateInterval, updateRetries, parse);
      i < |dtos| ==> r == Err(TryIntoFeed(dtos[i], updateInterval, updateRetries, parse).error)
    ensures r.Ok? <==> FirstInvalid(dtos, updateInterval, updateRetries, parse) == |dtos|
    ensures r.Ok? ==> |r.value| == |dtos|
    ensures r.Ok? ==> forall k :: 0 <= k < |dtos| ==>
      TryIntoFeed(dtos[k], updateInterval, updateRetries, parse) == Ok(r.value[k])
  {
    if dtos == [] then Ok([])
    else
      var head :- TryIntoFeed(dtos[0], updateInterval, updateRetries, parse);
      var tail :- CollectFeeds(dtos[1..], updateInterval, updateRetries, parse);
      Ok([head] + tail)
  }

  /** `Config::try_from`. */
  function TryFrom<Q>(config: ConfigDTO<Q>, parse: Parser): (r: Result<Config<Q>, ConfigError>)
    ensures r.Err? ==> r.error.FeedError? || r.error.NoActiveFeeds?
    ensures r == Err(NoActiveFeeds) <==> ActiveFeeds(config.feeds) == []
    ensures var active := ActiveFeeds(config.feeds);
      var i := FirstInvalid(active, config.updateInterval, config.updateRetries, parse);
      i < |active| ==>
      r == Err(FeedError(TryIntoFeed(active[i], config.updateInterval, config.updateRetries, parse).error))
    ensures var active := ActiveFeeds(config.feeds);
      r.Ok? <==> (active != [] &&
        FirstInvalid(active, config.updateInterval, config.updateRetries, parse) == |active|)
    ensures var active := ActiveFeeds(config.feeds);
      r.Ok? ==> && r.value.queue == config.queue
                && |r.value.feeds| == |active|
                && forall k :: 0 <= k < |active| ==>
                     TryIntoFeed(active[k], config.updateInterval, config.updateRetries, parse)
                       == Ok(r.value.feeds[k])
  {
    var collected := CollectFeeds(
      ActiveFeeds(config.feeds), config.updateInterval, config.updateRetries, parse);
    if collected.Err? then Err(FeedError(collected.error))
    else if collected.value == [] then Err(NoActiveFeeds)
    else Ok(Config(collected.value, config.queue))
  }

  /** The filter removes an inactive entry wherever it stands. */
  lemma ActiveFeedsDropInactive(before: seq<FeedDTO>, d: FeedDTO, after: seq<FeedDTO>)
    requires !IsActive(d)
    ensures ActiveFeeds(before + [d] + after) == ActiveFeeds(before + after)
  {
    assert [d][1..] == [];
    assert ActiveFeeds([d]) == [];
    ActiveFeedsAppend(before + [d], after);
    ActiveFeedsAppend(before, [d]);
    ActiveFeedsAppend(before, after);
    assert ActiveFeeds(before + [d]) == ActiveFeeds(before);
  }

  /** An inactive entry is never validated: inserting one anywhere, however
      malformed, leaves the outcome unchanged. */
  lemma InactiveFeedIgnored<Q>(
    config: ConfigDTO<Q>, before: seq<FeedDTO>, d: FeedDTO, after: seq<FeedDTO>,
    parse: Parser)
    requires !IsActive(d)
    ensures TryFrom(config.(feeds := before + [d] + after), parse)
         == TryFrom(config.(feeds := before + after), parse)
  {
    ActiveFeedsDropInactive(before, d, after);
  }
}
