/**
 * The Google Play crawl of the script crawlers (`crawl_google_play` in
 * unified_crawler.py, `crawl_google_play_safe` in crawl_ggplay.py): one
 * scraper call for the app's newest reviews, each normalised to a review
 * record, and 500 synthetic rows when it yields none.
 *
 * The scraper is a parameter: `Fetched(items)` is the list it returns and
 * `Raised` an exception. An exception while reading an item is caught
 * outside the item loop, so the records appended before it stay.
 */
module PlayStore {
  import opened Wrappers
  import opened Text
  import opened Rand
  import opened Reviews
  import opened Config
  import opened Synthetic

  /**
   * One review of the scraper's list: its `reviewId`, `score` and `at` (a
   * day), each possibly missing; or an item whose reading raises.
   */
  datatype PlayItem = Item(reviewId: Option<string>, score: Option<int>, at: Option<int>) | Malformed

  datatype PlayFetch = Fetched(items: seq<PlayItem>) | Raised

  const LivePlatform: string := "google_play"
  const FallbackCount: nat := 500
  const FallbackDaysBack: nat := 30

  /** `if app_id:`: None and the empty package name are falsy. */
  predicate Truthy(appId: Option<string>)
  {
    appId.Some? && appId.value != ""
  }

  /** `1 if rating and rating <= 2 else 0`. */
  function PlayChurn(score: Option<int>): int
  {
    if score.Some? && score.value != 0 && score.value <= ChurnThreshold then 1 else 0
  }

  /**
   * The churn rule of live Google Play rows agrees with the rule of every
   * other path on present, non-zero scores; a missing or zero score never
   * churns.
   */
  lemma PlayChurnAgrees(score: Option<int>)
    ensures PlayChurn(score) == 0 || PlayChurn(score) == 1
    ensures score.Some? && score.value != 0 ==> PlayChurn(score) == ChurnFlag(score.value, ChurnThreshold)
    ensures score.None? || score.value == 0 ==> PlayChurn(score) == 0
  {
  }

  /**
   * The shape of every live record: the bank and the "google_play" tag, no
   * `data_source`, and churn exactly for present, non-zero ratings up to 2.
   */
  predicate PlayLiveRow(r: Review, bank: string)
  {
    && r.bankName == bank && r.platform == LivePlatform && r.dataSource.None?
    && (r.churn == 0 || r.churn == 1)
    && (r.churn == 1 <==> r.rating.Some? && r.rating.value != 0 && r.rating.value <= ChurnThreshold)
  }

  /**
   * The record of one item: its id and score as given, its `at` day as the
   * date, and a missing `at` as a missing date.
   */
  function PlayRow(it: PlayItem, bank: string): (r: Review)
    requires it.Item?
    ensures PlayLiveRow(r, bank)
    ensures r.reviewId == it.reviewId && r.rating == it.score
    ensures r.date.NoDate? <==> it.at.None?
    ensures it.at.Some? ==> r.date == OnDay(it.at.value)
  {
    Review(it.reviewId, if it.at.Some? then OnDay(it.at.value) else NoDate,
           bank, it.score, PlayChurn(it.score), LivePlatform, None)
  }

  /** The items read before the first one that raises. */
  function Readable(items: seq<PlayItem>): (r: seq<PlayItem>)
    ensures |r| <= |items| && r == items[..|r|]
    ensures forall k :: 0 <= k < |r| ==> r[k].Item?
    ensures |r| < |items| ==> items[|r|].Malformed?
  {
    if items == [] || items[0].Malformed? then []
    else [items[0]] + Readable(items[1..])
  }

  /** Reading stops exactly at the first item that raises. */
  lemma ReadableStops(items: seq<PlayItem>, i: nat)
    requires i <= |items| && forall k :: 0 <= k < i ==> items[k].Item?
    requires i == |items| || items[i].Malformed?
    ensures Readable(items) == items[..i]
  {
  }

  function PlayRows(items: seq<PlayItem>, bank: string): (rows: seq<Review>)
    requires forall k :: 0 <= k < |items| ==> items[k].Item?
    ensures |rows| == |items|
    ensures forall k :: 0 <= k < |items| ==> rows[k] == PlayRow(items[k], bank)
  {
    seq(|items|, k requires 0 <= k < |items| => PlayRow(items[k], bank))
  }

  /** What the scraper gives for an app: an exception for a package it does not know. */
  function FetchOf(results: map<string, PlayFetch>, appId: Option<string>): PlayFetch
  {
    if appId.Some? && appId.value in results then results[appId.value] else Raised
  }

  /** The live records: none without a truthy app id or when the scraper raised. */
  function LiveData(appId: Option<string>, fetch: PlayFetch, bank: string): seq<Review>
  {
    if Truthy(appId) && fetch.Fetched? then PlayRows(Readable(fetch.items), bank) else []
  }

  /** The fallback recipe: ids `GP_{BAN}_{i:04d}`, `RATING_WEIGHTS`, the last 30 days, no `data_source`. */
  function PlayDummy(bank: string, platform: string): (r: Recipe)
    ensures ValidRecipe(r)
  {
    assert Sum(RatingWeights) == 100;
    Recipe(bank, platform, IdScheme("GP_", "_", 4), RatingWeights, FallbackDaysBack, None)
  }

  /** The crawl's result: the live records, or 500 fallback rows tagged `fallbackTag` when there are none. */
  function PlayRun(appId: Option<string>, fetch: PlayFetch, bank: string, fallbackTag: string,
                   today: int, g: Rng): Run
  {
    var live := LiveData(appId, fetch, bank);
    if live == [] then Run(SyntheticRows(PlayDummy(bank, fallbackTag), FallbackCount, today, g), Advance(g, 2 * FallbackCount))
    else Run(live, g)
  }

  /** The crawl: the item loop inside its `try`, then the fallback loop. */
  method CrawlPlay(appId: Option<string>, fetch: PlayFetch, bank: string, fallbackTag: string,
                   today: int, g: Rng) returns (data: seq<Review>, g': Rng)
    ensures Run(data, g') == PlayRun(appId, fetch, bank, fallbackTag, today, g)
  {
    data := [];
    if appId.Some? && appId.value != "" && fetch.Fetched? {
      data := ReadItems(fetch.items, bank);
    }
    if |data| == 0 {
      data, g' := Synthesize(PlayDummy(bank, fallbackTag), FallbackCount, today, g);
    } else {
      g' := g;
    }
  }

  /** `for r in result: data.append(...)`, left at the first item that raises. */
  method ReadItems(items: seq<PlayItem>, bank: string) returns (data: seq<Review>)
    ensures data == PlayRows(Readable(items), bank)
  {
    data := [];
    var i := 0;
    while i < |items| && items[i].Item?
      invariant 0 <= i <= |items|
      invariant forall k :: 0 <= k < i ==> items[k].Item?
      invariant data == PlayRows(items[..i], bank)
    {
      var r := items[i];
      var rating := r.score;
      var at := r.at;
      var churn := if rating.Some? && rating.value != 0 && rating.value <= 2 then 1 else 0;
      data := data + [Review(r.reviewId, if at.Some? then OnDay(at.value) else NoDate,
                             bank, rating, churn, LivePlatform, None)];
      i := i + 1;
      assert items[..i] == items[..i - 1] + [r];
    }
    ReadableStops(items, i);
  }

  /**
   * Without a truthy app id, or when the scraper raises, the result is
   * exactly the 500 fallback rows: tagged `fallbackTag`, with ids
   * `GP_{BAN}_{i:04d}` that are pairwise distinct.
   */
  lemma NoLiveFallback(appId: Option<string>, fetch: PlayFetch, bank: string, fallbackTag: string,
                       today: int, g: Rng)
    requires !Truthy(appId) || fetch.Raised?
    ensures var run := PlayRun(appId, fetch, bank, fallbackTag, today, g);
      && run.rows == SyntheticRows(PlayDummy(bank, fallbackTag), FallbackCount, today, g)
      && |run.rows| == 500
      && DistinctIds(run.rows)
      && forall i :: 0 <= i < |run.rows| ==>
           run.rows[i].platform == fallbackTag &&
           run.rows[i].reviewId == Some("GP_" + BankCode(bank) + "_" + Digits(i, 4))
  {
    SyntheticRowsDistinctIds(PlayDummy(bank, fallbackTag), FallbackCount, today, g);
  }

  /**
   * Live and synthetic records are never mixed: the result is either the
   * records of the items read before the first that raises, all live
   * records, or exactly the fallback rows. Either way it is non-empty.
   */
  lemma NeverMixed(appId: Option<string>, fetch: PlayFetch, bank: string, fallbackTag: string,
                   today: int, g: Rng)
    ensures var run := PlayRun(appId, fetch, bank, fallbackTag, today, g);
      && run.rows != []
      && (|| (Truthy(appId) && fetch.Fetched? && run.rows == PlayRows(Readable(fetch.items), bank)
              && (forall k :: 0 <= k < |run.rows| ==> PlayLiveRow(run.rows[k], bank)) && run.gen == g)
          || (run.rows == SyntheticRows(PlayDummy(bank, fallbackTag), FallbackCount, today, g)
              && run.gen == Advance(g, 2 * FallbackCount)))
  {
  }

  /**
   * With a fallback tag other than "google_play", the tag tells the two
   * kinds of record apart: a record carries the fallback tag exactly when
   * no live record was read, and the live tag otherwise.
   */
  lemma ProvenanceAuditable(appId: Option<string>, fetch: PlayFetch, bank: string, fallbackTag: string,
                            today: int, g: Rng)
    requires fallbackTag != LivePlatform
    ensures var run := PlayRun(appId, fetch, bank, fallbackTag, today, g);
      forall k :: 0 <= k < |run.rows| ==>
        && (run.rows[k].platform == fallbackTag <==> LiveData(appId, fetch, bank) == [])
        && (run.rows[k].platform == LivePlatform <==> LiveData(appId, fetch, bank) != [])
  {
    NeverMixed(appId, fetch, bank, fallbackTag, today, g);
  }

  /**
   * With the live tag as the fallback tag, every record is tagged
   * "google_play", whether or not any live record was read.
   */
  lemma ProvenanceLostRun(appId: Option<string>, fetch: PlayFetch, bank: string, today: int, g: Rng)
    ensures var run := PlayRun(appId, fetch, bank, LivePlatform, today, g);
      forall k :: 0 <= k < |run.rows| ==> run.rows[k].platform == LivePlatform
  {
    NeverMixed(appId, fetch, bank, LivePlatform, today, g);
  }

  /** Neither the live rows nor the fallback set `data_source`. */
  lemma RunHasNoSource(appId: Option<string>, fetch: PlayFetch, bank: string, fallbackTag: string,
                       today: int, g: Rng)
    ensures !HasSource(PlayRun(appId, fetch, bank, fallbackTag, today, g).rows)
  {
    NeverMixed(appId, fetch, bank, fallbackTag, today, g);
    var rows := PlayRun(appId, fetch, bank, fallbackTag, today, g).rows;
    forall k | 0 <= k < |rows| ensures rows[k].dataSource.None? {
      if !(forall j :: 0 <= j < |rows| ==> PlayLiveRow(rows[j], bank)) {
        assert rows[k] == SyntheticRow(PlayDummy(bank, fallbackTag), today, g, k);
      }
    }
  }
}
