# Feed configuration and batch fetch — a Dafny model

This project models the validated feed configuration pipeline of an RSS
fetching service, and the step of its batch fetcher that sorts fetch
outcomes into successes and failures.

- **Feed value types.** `FeedName`, `FeedUrl`, `FeedUpdateInterval` and
  `FeedUpdateRetries` are self-validating. Each constructor either returns
  the value or reports a typed `FeedError`. `FeedName`,
  `FeedUpdateInterval` and `FeedUpdateRetries` are Dafny subset types, so no
  invalid value of them can exist. This matches the source's private-field
  wrappers. `FeedUrl` is a plain datatype around a parsed `Url`. Its validity
  is "the parser accepted this text", and the parser is a parameter, so no
  type predicate can state it. Only `FeedTypes.NewUrl` builds a `FeedUrl`
  from text in the model.
- **Feed aggregate.** A `Feed` is an immutable record of the four values and
  carries their combined invariant.
- **Entry conversion.** A raw entry becomes a `Feed`. The interval and the
  retry budget are each resolved in three tiers: the entry's own value, else
  the global value, else the hardcoded default. The checks run in a fixed
  order (name, URL, interval, retries).
- **Configuration assembly.** Inactive entries are dropped before they are
  validated. The first failing entry aborts the load. A load with no active
  entry is the `NoActiveFeeds` error.
- **Batch fetch.** There is one fetch per URL, and the outcomes are split
  into `successful` and `failed`. Each URL lands in exactly one list, with
  its bytes or its error, and each list keeps input order.
- **Older configuration revision.** It has seconds-based `from_raw`, a
  `validate` method and standalone validators (two variants), plus the queue
  section check. These are kept as separate modules with their own units and
  error shapes. `Revisions` proves which values the two generations agree on.
- **News builder.** Each setter changes only its own field. The last write
  wins, setters of different fields commute, and `build` copies every field.

The URL parser (`Url::parse`) is foreign code. Every operation that parses
takes it as a parameter `parse: string -> Result<Url, ParseError>`. The HTTP
transport is likewise a parameter `fetch: FeedUrl -> Result<Bytes, E>`.
Rust's `str::trim` is modelled exactly. It strips characters with the Unicode
White_Space property (`Text.IsWhitespace`) from both ends.

Files: `wrappers.dfy` (Option/Result/Outcome), `text.dfy` (trimming),
`urls.dfy` (the parser interface), `feed_types.dfy`, `feed_entity.dfy`,
`feed_dto.dfy`, `app_config.dfy`, `fetcher.dfy`, `legacy_feed_config.dfy`,
`legacy_validation.dfy`, `legacy_queue.dfy`, `news.dfy` and `revisions.dfy`.

Points where the model follows the code closely:

- The retry budget is validated (src/domain/feed/types.rs:80-91), but
  nothing in src/infrastructure/fetcher.rs uses it. The model therefore
  makes one fetch per URL.
- `join_all` returns outcomes in input order, so each of `successful` and
  `failed` keeps input order.
- `FeedUrl::new` never reports `EmptyUrl`. Empty text is just an unparsable
  URL and gives `InvalidUrl`.
- The domain retry check has a single error for "too small" and "too big".
  Only the older `validate_update_retries` tells the two apart.

The older error enum file `src/config/error.rs` comes from yet another
revision. It does not declare the `FeedError`, `ValidationError` and
`QueueError` that `src/config/feed.rs`, `src/config/validation.rs` and
`src/config/queue.rs` use. The model gives those errors the one-argument
variants that the code constructs. `src/config/validation.rs` compares a
`usize` with the `i64` constant `MIN_UPDATE_INTERVAL`. The model compares a
natural number with 300.

## Model

| member | source | states |
|---|---|---|
| Text.TrimEmptyIff | src/domain/feed/types.rs:13-16 | the trim of a string is empty exactly when every character of the string is whitespace |
| Text.TrimIdempotent | src/domain/feed/types.rs:13 | trimming an already trimmed string changes nothing |
| Text.TrimIgnoresPadding | src/domain/feed/types.rs:32 | whitespace added on either side never changes the trimmed text |
| FeedTypes.NewName | src/domain/feed/types.rs:12-19 | fails, always with `EmptyName`, exactly when the input is all whitespace (including empty); on success the name is the trimmed input |
| FeedTypes.NameIdempotent | src/domain/feed/types.rs:12-23 | building a name from an accepted name's own text succeeds with the same name |
| FeedTypes.NewUrl | src/domain/feed/types.rs:31-35 | the trimmed text, not the raw text, is parsed; success exactly when that parse succeeds, keeping the parsed URL; every failure is `InvalidUrl` with the parser's error, never `EmptyUrl` |
| FeedTypes.UrlIgnoresPadding | src/domain/feed/types.rs:31-35 | surrounding whitespace never changes the outcome of URL construction |
| FeedTypes.NewInterval | src/domain/feed/types.rs:52-62 | absent minutes give 900 seconds; given minutes are accepted exactly when at least 5 and stored as minutes × 60 seconds; below 5 the error is `InvalidUpdateInterval{min: 5, got: minutes}` |
| FeedTypes.NewRetries | src/domain/feed/types.rs:80-91 | absent gives 3; a given count is accepted exactly within [1, 10] and kept unchanged; otherwise the error is `InvalidUpdateRetries{min: 1, max: 10, got}` |
| FeedTypes.IntervalRoundTrip | src/domain/feed/types.rs:52-66 | every interval is rebuilt unchanged from its own number of minutes (`as_secs` / 60) |
| FeedTypes.RetriesRoundTrip | src/domain/feed/types.rs:80-95 | every retry budget is rebuilt unchanged from its own count (`as_usize`) |
| FeedEntity.NewFeed | src/domain/feed.rs:16-28 | total; every field is its argument unchanged; every feed has a non-empty trimmed name, an interval of at least 300 s in whole minutes and a retry budget within [1, 10] |
| Wrappers.Resolve | src/infrastructure/config/feed.rs:26-27 | the three tiers of `own.or(global).unwrap_or(fallback)`: the own value if present, else the global one if present, else the fallback |
| FeedDto.TryIntoFeed | src/infrastructure/config/feed.rs:19-30 | errors in the order name, URL, interval, retries, each stated on the raw inputs; the interval is the entry's minutes, else the global ones, else 15, and the retries likewise with 3; success exactly when all four checks pass, with the trimmed name, the parsed trimmed URL, the resolved minutes × 60 and the resolved retries |
| FeedDto.OwnIntervalShadowsGlobal | src/infrastructure/config/feed.rs:26 | when the entry gives its own interval, the global interval has no effect on the outcome, even an invalid one |
| FeedDto.OwnRetriesShadowGlobal | src/infrastructure/config/feed.rs:27 | when the entry gives its own retry count, the global count has no effect on the outcome |
| AppConfig.IsActive | src/infrastructure/config.rs:33 | an entry is kept exactly when `active` is not `Some(false)` |
| AppConfig.ActiveFeeds | src/infrastructure/config.rs:29-33 | the kept entries are exactly the active entries of the input |
| AppConfig.ActiveFeedsAppend | src/infrastructure/config.rs:31-33 | filtering distributes over concatenation, so kept entries stay in input order |
| AppConfig.ActiveFeedsDropInactive | src/infrastructure/config.rs:33 | the filter removes an inactive entry wherever it stands in the list |
| AppConfig.FirstInvalid | src/infrastructure/config.rs:35-36 | the position of the first entry whose conversion fails: every earlier entry converts, the one there does not |
| AppConfig.CollectFeeds | src/infrastructure/config.rs:35-36 | the first failing entry's error if there is one; otherwise one feed per entry, in order, each the entry's conversion |
| AppConfig.TryFrom | src/infrastructure/config.rs:28-46 | errors are only `FeedError` or `NoActiveFeeds`; `NoActiveFeeds` exactly when no entry is active; otherwise the first failing active entry's error; success exactly when some entry is active and all active entries convert, giving one feed per active entry in order, all converted with the same global values, and the queue section unchanged |
| AppConfig.InactiveFeedIgnored | src/infrastructure/config.rs:33-35 | inserting an inactive entry anywhere, however malformed, never changes the outcome |
| Fetcher.JoinAll | src/infrastructure/fetcher.rs:62-70 | one outcome per URL, in input order: the fetch is invoked once for each URL |
| Fetcher.Positions | src/infrastructure/fetcher.rs:75-79 | the ascending positions of exactly the URLs whose fetch succeeded (or failed) |
| Fetcher.PositionsPartition | src/infrastructure/fetcher.rs:72-80 | every position lies in exactly one of the success and failure lists, whose lengths sum to the number of URLs |
| Fetcher.FetchAll | src/infrastructure/fetcher.rs:59-89 | always returns results; `successful` and `failed` together have one entry per URL; `successful` pairs exactly the URLs that fetched bytes with those bytes and `failed` exactly the others with their errors, each in input order |
| LegacyFeedConfig.FromRaw | src/config/feed.rs:38-61 | total and unvalidated; name and URL copied untrimmed; interval from the entry, else global, else 900 s; retries from the entry, else global, else 3 |
| LegacyFeedConfig.ValidateFeedName | src/config/feed.rs:88-94 | fails with `EmptyName` exactly when the name is all whitespace |
| LegacyFeedConfig.ValidateUrl | src/config/feed.rs:96-104 | all-whitespace text is `EmptyUrl` before any parsing; otherwise the untrimmed text passes exactly when it parses, else `InvalidUrl` with the parser's error |
| LegacyFeedConfig.ValidateFeedUpdateInterval | src/config/feed.rs:106-112 | passes exactly from 300 s up; otherwise `InvalidUpdateInterval` carrying the value |
| LegacyFeedConfig.ValidateFeedUpdateRetries | src/config/feed.rs:114-120 | passes exactly within [1, 10]; otherwise `InvalidUpdateRetries` carrying the value |
| LegacyFeedConfig.Validate | src/config/feed.rs:74-85 | first error in the order name, URL, interval, retries; passes exactly when the name and URL are valid and each number the entry gives is in range (absent numbers are not checked) |
| LegacyFeedConfig.FromRawKeepsValidatedValues | src/config/feed.rs:38-85 | after validation passes, the entry's own interval and retries survive resolution in range |
| LegacyValidation.ValidateFeedName | src/config/validation.rs:6-12 | fails with `EmptyName` exactly when the value is all whitespace |
| LegacyValidation.ValidateUrl | src/config/validation.rs:14-22 | all-whitespace text is `EmptyUrl`, checked before parsing; otherwise `InvalidUrlFormat` exactly when parsing fails |
| LegacyValidation.ValidateUpdateInterval | src/config/validation.rs:24-30 | passes exactly from 300 up; otherwise `UpdateIntervalTooSmall` carrying the value |
| LegacyValidation.ValidateUpdateRetries | src/config/validation.rs:32-42 | `UpdateRetriesTooSmall` exactly below 1, `UpdateRetriesTooBig` exactly above 10, otherwise passes; the two errors exclude each other and carry the value unchanged |
| LegacyQueue.Validate | src/config/queue.rs:24-42 | passes exactly when all four fields are non-empty (whitespace counts as content); otherwise the error of the first empty field in the order endpoint, exchange name, username, password |
| NewsModel.NewBuilder | src/domain/news.rs:28-40 | the three required fields are the arguments and no optional field is set |
| NewsModel.WithPermanentLink | src/domain/news.rs:42-45 | sets the permanent link and leaves every other field unchanged |
| NewsModel.WithAuthorEmail | src/domain/news.rs:47-50 | sets the author email and leaves every other field unchanged |
| NewsModel.WithCategories | src/domain/news.rs:52-55 | sets the categories and leaves every other field unchanged |
| NewsModel.WithMedia | src/domain/news.rs:57-60 | sets the media and leaves every other field unchanged |
| NewsModel.WithCommentsUrl | src/domain/news.rs:62-65 | sets the comments URL and leaves every other field unchanged |
| NewsModel.WithPubDate | src/domain/news.rs:67-70 | sets the publication date and leaves every other field unchanged |
| NewsModel.LastSetterWins | src/domain/news.rs:42-70 | calling the same setter twice keeps only the second value |
| NewsModel.SettersCommute | src/domain/news.rs:42-70 | setters of different fields commute |
| NewsModel.Build | src/domain/news.rs:72-84 | every builder field is copied into the news item unchanged |
| Revisions.NameChecksAgree | src/config/feed.rs:88-94 | the older name checks accept exactly the names the domain `FeedName` accepts |
| Revisions.RetryChecksAgree | src/config/validation.rs:32-42 | the older retry checks accept exactly the counts the domain `FeedUpdateRetries` accepts |
| Revisions.IntervalUnitsAgree | src/config/feed.rs:6-9 | m minutes pass the domain check exactly when 60·m seconds pass the older checks, and the domain default of 15 minutes is the older default of 900 s |
| Revisions.UrlChecksAgree | src/config/validation.rs:14-22 | the two older URL checks accept the same texts and both report emptiness on the same texts |

## Left out

- Concurrency. The semaphore (`MAX_CONCURRENT_REQUESTS` = 4) and `join_all` only affect timing. `join_all` returns outcomes in input order, so `FetchAll` fetches one URL after another. The ceiling appears only as the constant `Fetcher.MaxConcurrentRequests`.
- The HTTP body of `fetch` is network I/O. Its two error paths are unfinished `todo!()` panics, and it never inspects the status. The model takes `fetch` as a total function parameter instead.
- The transport error type `FetcherError` is not part of this model. `FetchResults` is generic in the error type.
- A retry loop. The code never uses the retry budget while fetching, so no retry loop is modelled.
- The URL grammar is the `url` crate's code. It is a parameter here. Normalisation and the round trip of `as_str` are not modelled.
- Loading the configuration (`load_config` in both revisions) reads a file and deserialises TOML. That is I/O and library code. `FileReadError` and `TomlParseError` keep only a message.
- `src/infrastructure/config/queue.rs` is not part of this model. The queue section of `Config` is a type parameter that `TryFrom` passes through unchanged.
- FeedTypes.NewInterval: takes unbounded natural minutes. It does not model the panic of `Duration::from_mins` for minutes whose seconds exceed 64 bits.
- LegacyFeedConfig.FromRaw: takes unbounded integer seconds. It does not model the panic of chrono's `Duration::seconds` for values outside its range.
- Accessors (`as_str`, `as_secs`, `as_usize`) return the stored value. `as_str` is `FeedUrl.AsStr`, the URL's serialization, and has no contract worth a row. `as_secs` and `as_usize` have no members, because a subset-type value is its own accessor.
- `QueueConfig::validate` takes `&self` and is modelled as a pure function. Leaving the config unchanged holds by construction, so no separate statement is made.
- `src/main.rs`, `src/config.rs`, `src/config/notification.rs` and the `RssFetcher` trait have no behaviour beyond types and I/O. They are mirrored only where the core needs their types.
- Logging and tracing calls.
