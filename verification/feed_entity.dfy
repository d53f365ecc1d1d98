/** The feed aggregate: an immutable record of the four validated values. */
module FeedEntity {
  import opened Text
  import opened FeedTypes

  /** A feed. Its fields have validated types and it has no mutators, so a
      feed satisfies the combined invariant for as long as it exists. */
  datatype Feed = Feed(
    name: FeedName,
    url: FeedUrl,
    updateInterval: FeedUpdateInterval,
    updateRetries: FeedUpdateRetries)

  /** `Feed::new`: total, takes the components unchanged, and the result has
      a non-empty trimmed name, an interval of at least five whole minutes
      and a retry budget within [1, 10]. */
  function NewFeed(
    name: FeedName,
    url: FeedUrl,
    updateInterval: FeedUpdateInterval,
    updateRetries: FeedUpdateRetries): (f: Feed)
    ensures f.name == name && f.url == url
    ensures f.updateInterval == updateInterval && f.updateRetries == updateRetries
    ensures f.name != [] && Trim(f.name) == f.name
    ensures f.updateInterval >= 300 && f.updateInterval % 60 == 0
    ensures 1 <= f.updateRetries <= 10
  {
    TrimOfTrimmed(name);
    Feed(name, url, updateInterval, updateRetries)
  }
}
