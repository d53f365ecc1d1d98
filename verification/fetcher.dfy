/** The batch fetcher: one fetch per feed URL, then a split of the outcomes
    into successes and failures. The transport is a parameter: a total
    function from a URL to the fetched bytes or an error. Concurrency only
    affects timing, since the outcomes are gathered in input order before
    they are split, so the model runs the fetches one after another. */
module Fetcher {
  import opened Wrappers
  import opened FeedTypes

  newtype byte = x: int | 0 <= x < 256
  type Bytes = seq<byte>

  /** Size of the semaphore that bounds requests in flight. */
  const MaxConcurrentRequests: nat := 4

  /** The outcome of one batch: each URL with its bytes, or with its error. */
  datatype FetchResults<E> = FetchResults(
    successful: seq<(FeedUrl, Bytes)>,
    failed: seq<(FeedUrl, E)>)

  /** Outcomes of `join_all`: one fetch per URL, listed in input order. */
  function JoinAll<E>(urls: seq<FeedUrl>, fetch: FeedUrl -> Result<Bytes, E>): (rs: seq<(FeedUrl, Result<Bytes, E>)>)
    ensures |rs| == |urls|
    ensures forall i :: 0 <= i < |urls| ==> rs[i] == (urls[i], fetch(urls[i]))
  {
    seq(|urls|, i requires 0 <= i < |urls| => (urls[i], fetch(urls[i])))
  }

  /** `ix` lists, in ascending order, exactly the positions of `urls` whose
      fetch succeeded (`ok`) or failed (`!ok`). */
  ghost predicate ExactPositions<E>(ix: seq<nat>, urls: seq<FeedUrl>, fetch: FeedUrl -> Result<Bytes, E>, ok: bool)
  {
    && (forall k :: 0 <= k < |ix| ==> ix[k] < |urls| && fetch(urls[ix[k]]).Ok? == ok)
    && (forall k, l :: 0 <= k < l < |ix| ==> ix[k] < ix[l])
    && (forall i :: 0 <= i < |urls| && fetch(urls[i]).Ok? == ok ==> i in ix)
  }

  /** Appending one URL extends the exact positions of the shorter list by
      that URL's position when its outcome matches. */
  lemma ExactPositionsExtend<E>(ix: seq<nat>, urls: seq<FeedUrl>, fetch: FeedUrl -> Result<Bytes, E>, ok: bool)
    requires urls != []
    requires ExactPositions(ix, urls[..|urls| - 1], fetch, ok)
    ensures ExactPositions(ix + (if fetch(urls[|urls| - 1]).Ok? == ok then [|urls| - 1] else []), urls, fetch, ok)
  {
    var n := |urls| - 1;
    var init := urls[..n];
    assert forall i :: 0 <= i < n ==> urls[i] == init[i];
    if fetch(urls[n]).Ok? == ok {
      var jx := ix + [n];
      assert forall k :: 0 <= k < |ix| ==> jx[k] == ix[k];
      assert jx[|ix|] == n;
    }
  }

  /** Ascending positions of the URLs whose fetch succeeded (`ok`) or
      failed (`!ok`). */
  function Positions<E>(urls: seq<FeedUrl>, fetch: FeedUrl -> Result<Bytes, E>, ok: bool): (ix: seq<nat>)
    ensures forall k :: 0 <= k < |ix| ==> ix[k] < |urls| && fetch(urls[ix[k]]).Ok? == ok
    ensures forall k, l :: 0 <= k < l < |ix| ==> ix[k] < ix[l]
    ensures forall i :: 0 <= i < |urls| && fetch(urls[i]).Ok? == ok ==> i in ix
  {
    if urls == [] then []
    else
      var ix := Positions(urls[..|urls| - 1], fetch, ok);
      ExactPositionsExtend(ix, urls, fetch, ok);
      ix + (if fetch(urls[|urls| - 1]).Ok? == ok then [|urls| - 1] else [])
  }

  /** Every position lies in exactly one of the two lists, so their lengths
      add up to the number of URLs. */
  lemma {:induction false} PositionsPartition<E>(urls: seq<FeedUrl>, fetch: FeedUrl -> Result<Bytes, E>)
    ensures |Positions(urls, fetch, true)| + |Positions(urls, fetch, false)| == |urls|
    ensures forall i :: 0 <= i < |urls| ==>
      (i in Positions(urls, fetch, true)) != (i in Positions(urls, fetch, false))
  {
    if urls != [] {
      PositionsPartition(urls[..|urls| - 1], fetch);
    }
  }

  /** Growing the URL prefix by one appends that URL's position to the list
      it belongs to. */
  lemma PositionsStep<E>(urls: seq<FeedUrl>, fetch: FeedUrl -> Result<Bytes, E>, ok: bool, n: nat)
    requires n < |urls|
    ensures Positions(urls[..n + 1], fetch, ok)
         == Positions(urls[..n], fetch, ok) + (if fetch(urls[n]).Ok? == ok then [n] else [])
  {
    assert urls[..n + 1][..n] == urls[..n];
  }

  /** `entries` pairs the URLs at positions `ix` with the bytes they fetched. */
  ghost predicate SuccessesAt<E>(entries: seq<(FeedUrl, Bytes)>, urls: seq<FeedUrl>, fetch: FeedUrl -> Result<Bytes, E>, ix: seq<nat>)
  {
    && |entries| == |ix|
    && forall k :: 0 <= k < |ix| ==>
         ix[k] < |urls| && fetch(urls[ix[k]]).Ok? && entries[k] == (urls[ix[k]], fetch(urls[ix[k]]).value)
  }

  /** `entries` pairs the URLs at positions `ix` with the errors they got. */
  ghost predicate FailuresAt<E>(entries: seq<(FeedUrl, E)>, urls: seq<FeedUrl>, fetch: FeedUrl -> Result<Bytes, E>, ix: seq<nat>)
  {
    && |entries| == |ix|
    && forall k :: 0 <= k < |ix| ==>
         ix[k] < |urls| && fetch(urls[ix[k]]).Err? && entries[k] == (urls[ix[k]], fetch(urls[ix[k]]).error)
  }

  /** One more outcome keeps `SuccessesAt` for the longer prefix. */
  lemma SuccessesStep<E>(
    successful: seq<(FeedUrl, Bytes)>, urls: seq<FeedUrl>, fetch: FeedUrl -> Result<Bytes, E>, n: nat)
    requires n < |urls|
    requires SuccessesAt(successful, urls, fetch, Positions(urls[..n], fetch, true))
    ensures fetch(urls[n]).Ok? ==>
      SuccessesAt(successful + [(urls[n], fetch(urls[n]).value)], urls, fetch, Positions(urls[..n + 1], fetch, true))
    ensures fetch(urls[n]).Err? ==>
      SuccessesAt(successful, urls, fetch, Positions(urls[..n + 1], fetch, true))
  {
    PositionsStep(urls, fetch, true, n);
  }

  /** One more outcome keeps `FailuresAt` for the longer prefix. */
  lemma FailuresStep<E>(
    failed: seq<(FeedUrl, E)>, urls: seq<FeedUrl>, fetch: FeedUrl -> Result<Bytes, E>, n: nat)
    requires n < |urls|
    requires FailuresAt(failed, urls, fetch, Positions(urls[..n], fetch, false))
    ensures fetch(urls[n]).Err? ==>
      FailuresAt(failed + [(urls[n], fetch(urls[n]).error)], urls, fetch, Positions(urls[..n + 1], fetch, false))
    ensures fetch(urls[n]).Ok? ==>
      FailuresAt(failed, urls, fetch, Positions(urls[..n + 1], fetch, false))
  {
    PositionsStep(urls, fetch, false, n);
  }

  /** `HttpRssFetcher::fetch_all`: never fails as a whole; `successful` holds
      exactly the URLs whose fetch returned bytes, with those bytes, and
      `failed` exactly the others, with their errors, each in input order. */
  method FetchAll<E>(urls: seq<FeedUrl>, fetch: FeedUrl -> Result<Bytes, E>) returns (res: FetchResults<E>)
    ensures |res.successful| + |res.failed| == |urls|
    ensures SuccessesAt(res.successful, urls, fetch, Positions(urls, fetch, true))
    ensures FailuresAt(res.failed, urls, fetch, Positions(urls, fetch, false))
  {
    var results := JoinAll(urls, fetch);
    var successful: seq<(FeedUrl, Bytes)> := [];
    var failed: seq<(FeedUrl, E)> := [];
    var n := 0;
    while n < |results|
      invariant 0 <= n <= |results|
      invariant |successful| + |failed| == n
      invariant SuccessesAt(successful, urls, fetch, Positions(urls[..n], fetch, true))
      invariant FailuresAt(failed, urls, fetch, Positions(urls[..n], fetch, false))
    {
      SuccessesStep(successful, urls, fetch, n);
      FailuresStep(failed, urls, fetch, n);
      var (url, result) := results[n];
      match result {
        case Ok(bytes) =>
          successful := successful + [(url, bytes)];
        case Err(e) =>
          failed := failed + [(url, e)];
      }
      n := n + 1;
    }
    assert urls[..n] == urls;
    res := FetchResults(successful, failed);
  }
}
