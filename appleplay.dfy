/**
 * crawl_appleplay.py: for every bank of `BANK_APPS_IOS`, in order, the App
 * Store crawl `crawl_apple_rss_safe` as one frame; then `pd.concat` of the
 * frames and one augmentation pass, with the country column.
 *
 * As written, the script's live records churn for ratings up to 1 while
 * its fallback rows, and every other path, churn for ratings up to 2. The
 * per-bank crawl takes the live threshold as a parameter: `CrawlIos` is the
 * script as written (threshold 1), and `ChurnUniform` is the corrected
 * crawl (threshold 2).
 */
module AppleScript {
  import opened Wrappers
  import opened Seqs
  import opened Text
  import opened Rand
  import opened Reviews
  import opened Config
  import opened Synthetic
  import opened Frames
  import opened Features
  import opened AppleFeed

  const DummyTag: string := "app_store_dummy"

  /** The live-record churn threshold as the script writes it. */
  const AsWrittenThreshold: int := 1

  /** The fallback recipe: ids `{BAN}_DUMMY_{i}`, weights 10/15/25/25/25, the last 30 days. */
  function ScriptDummy(bank: string): (r: Recipe)
    ensures ValidRecipe(r) && r.dataSource.None?
  {
    assert Sum([10, 15, 25, 25, 25]) == 100;
    Recipe(bank, DummyTag, IdScheme("", "_DUMMY_", 1), [10, 15, 25, 25, 25], 30, None)
  }

  /**
   * `crawl_apple_rss_safe(app_id, bank_name)` with live churn for ratings up
   * to `threshold`: `AsWrittenThreshold` as the script writes it, or
   * `ChurnThreshold` as corrected.
   */
  function RssSafe(appId: Option<int>, feed: seq<Page>, bank: string, threshold: int, today: int, g: Rng): Run
  {
    AppleRun(appId, feed, bank, threshold, ScriptDummy(bank), today, g)
  }

  /** A feed of one page holding one entry rated `rating`. */
  function OneEntryFeed(rating: int): seq<Page>
  {
    [Page(200, Entries([Entry(Rated(rating), Some("r/1"), Some("2024-01-01"))]))]
  }

  /**
   * A feed whose one entry is rated 2: as written, its record does not
   * churn, while a fallback row rated 2 of the same function does.
   */
  lemma AsWrittenChurnSplit(bank: string, today: int, g: Rng)
    ensures var rows := RssSafe(Some(1), OneEntryFeed(2), bank, AsWrittenThreshold, today, g).rows;
      && |rows| == 1 && rows[0].rating == Some(2) && rows[0].churn == 0
      && ChurnFlag(2, ChurnThreshold) == 1
  {
    var e := Entry(Rated(2), Some("r/1"), Some("2024-01-01"));
    var page := Page(200, Entries([e]));
    var feed := [page];
    assert feed == OneEntryFeed(2);
    var r := LiveRecord(2, "r/1", "2024-01-01", bank, AsWrittenThreshold);
    assert Normalise(e, bank, AsWrittenThreshold) == Emit(r);
    assert ScanEntries([e], bank, AsWrittenThreshold).rows == [r] by {
      assert [e][1..] == [];
    }
    assert ScanPages(feed, bank, AsWrittenThreshold).rows == [r] by {
      assert feed[..0] == [];
    }
  }

  /** The per-bank records of the banks of `ios`, in order, each run continuing the generator. */
  function IosParts(feeds: map<int, seq<Page>>, ios: seq<(string, Option<int>)>, threshold: int, today: int, g: Rng): (b: Batched)
    ensures |b.parts| == |ios|
  {
    if ios == [] then Batched([], g)
    else
      var prev := IosParts(feeds, ios[..|ios| - 1], threshold, today, g);
      var appId := ios[|ios| - 1].1;
      var r := RssSafe(appId, FeedOf(feeds, appId), ios[|ios| - 1].0, threshold, today, prev.gen);
      Batched(prev.parts + [r.rows], r.gen)
  }

  /**
   * The module-level loop, `for bank_name, app_id in BANK_APPS_IOS.items()`,
   * then `pd.concat(all_dfs)` and `add_synthetic_customer_features`, with
   * the script's live churn threshold of 1.
   */
  method CrawlIos(feeds: map<int, seq<Page>>, today: int, g: Rng) returns (df: Frame, g': Rng)
    ensures fresh(df)
    ensures df.Value() == Augmented(FromRecords(Flatten(IosParts(feeds, BankAppsIos, AsWrittenThreshold, today, g).parts)), DefaultSeed, true)
  {
    var allDfs := IosFrames(feeds, BankAppsIos, AsWrittenThreshold, today, g);
    ghost var parts := IosParts(feeds, BankAppsIos, AsWrittenThreshold, today, g).parts;
    IosPartsShape(feeds, BankAppsIos, AsWrittenThreshold, today, g);
    ConcatOfRecords(allDfs, parts);
    df := new Frame(ConcatAll(allDfs));
    g' := AddSyntheticCustomerFeatures(df, DefaultSeed, true);
  }

  /** `all_dfs`: one frame per bank of `ios`, built from that bank's records. */
  method IosFrames(feeds: map<int, seq<Page>>, ios: seq<(string, Option<int>)>, threshold: int, today: int, g: Rng)
    returns (allDfs: seq<Table>)
    ensures |allDfs| == |ios|
    ensures forall p :: 0 <= p < |ios| ==> allDfs[p] == FromRecords(IosParts(feeds, ios, threshold, today, g).parts[p])
  {
    allDfs := [];
    var gen := g;
    ghost var parts: seq<seq<Review>> := [];
    for i := 0 to |ios|
      invariant Batched(parts, gen) == IosParts(feeds, ios[..i], threshold, today, g)
      invariant |allDfs| == |parts| == i
      invariant forall p :: 0 <= p < i ==> allDfs[p] == FromRecords(parts[p])
    {
      var bank := ios[i].0;
      var appId := ios[i].1;
      var data;
      data, gen := CrawlApple(appId, FeedOf(feeds, appId), bank, threshold, ScriptDummy(bank), today, gen);
      allDfs := allDfs + [FromRecords(data)];
      parts := parts + [data];
      assert ios[..i + 1][..i] == ios[..i];
    }
    assert ios[..|ios|] == ios;
  }

  /** Part `p` is the crawl of bank `p`, started where the crawl of the banks before it left the generator. */
  lemma {:induction false} IosPartAt(feeds: map<int, seq<Page>>, ios: seq<(string, Option<int>)>, threshold: int,
                                     today: int, g: Rng, p: nat)
    requires p < |ios|
    ensures IosParts(feeds, ios, threshold, today, g).parts[p]
         == RssSafe(ios[p].1, FeedOf(feeds, ios[p].1), ios[p].0, threshold, today, IosParts(feeds, ios[..p], threshold, today, g).gen).rows
  {
    var n := |ios|;
    if p < n - 1 {
      IosPartAt(feeds, ios[..n - 1], threshold, today, g, p);
      assert ios[..n - 1][..p] == ios[..p];
    } else {
      assert ios[..n - 1] == ios[..p];
    }
  }

  /** Every part is non-empty, names its bank and sets no `data_source`. */
  lemma IosPartsShape(feeds: map<int, seq<Page>>, ios: seq<(string, Option<int>)>, threshold: int, today: int, g: Rng)
    ensures var parts := IosParts(feeds, ios, threshold, today, g).parts;
      && (|parts| > 0 <==> |ios| > 0)
      && forall p :: 0 <= p < |parts| ==> parts[p] != [] && !HasSource(parts[p]) && HasSource(parts[p]) == HasSource(parts[0])
  {
    var parts := IosParts(feeds, ios, threshold, today, g).parts;
    forall p | 0 <= p < |parts|
      ensures parts[p] != [] && !HasSource(parts[p])
    {
      PartFacts(feeds, ios, threshold, today, g, p);
    }
  }

  /**
   * Part `p` holds bank `p`'s records: all naming it, without
   * `data_source`, and either all live (churn for ratings up to
   * `threshold`) or exactly its 300 fallback rows (churn for ratings up to 2).
   */
  lemma PartFacts(feeds: map<int, seq<Page>>, ios: seq<(string, Option<int>)>, threshold: int, today: int, g: Rng, p: nat)
    requires p < |ios|
    ensures var part := IosParts(feeds, ios, threshold, today, g).parts[p];
      var gen := IosParts(feeds, ios[..p], threshold, today, g).gen;
      && part != [] && !HasSource(part)
      && (forall k :: 0 <= k < |part| ==> part[k].bankName == ios[p].0)
      && (|| (forall k :: 0 <= k < |part| ==> LiveRow(part[k], ios[p].0, threshold))
          || part == SyntheticRows(ScriptDummy(ios[p].0), FallbackCount, today, gen))
  {
    IosPartAt(feeds, ios, threshold, today, g, p);
    var appId, bank := ios[p].1, ios[p].0;
    var gen := IosParts(feeds, ios[..p], threshold, today, g).gen;
    NeverMixed(appId, FeedOf(feeds, appId), bank, threshold, ScriptDummy(bank), today, gen);
    RunHasNoSource(appId, FeedOf(feeds, appId), bank, threshold, ScriptDummy(bank), today, gen);
  }

  /**
   * A bank whose App Store id is None (five banks of `BANK_APPS_IOS`) gets
   * exactly 300 fallback rows, tagged "app_store_dummy", with ids
   * `{BAN}_DUMMY_{i}`, whatever the live threshold.
   */
  lemma NoAppFallback(feeds: map<int, seq<Page>>, ios: seq<(string, Option<int>)>, threshold: int, today: int, g: Rng, p: nat)
    requires p < |ios| && ios[p].1.None?
    ensures var part := IosParts(feeds, ios, threshold, today, g).parts[p];
      && |part| == 300
      && forall k :: 0 <= k < |part| ==>
           part[k].platform == DummyTag && part[k].reviewId == Some(BankCode(ios[p].0) + "_DUMMY_" + Digits(k, 1))
  {
    IosPartAt(feeds, ios, threshold, today, g, p);
    var bank := ios[p].0;
    var gen := IosParts(feeds, ios[..p], threshold, today, g).gen;
    FalsyIdFallback(None, FeedOf(feeds, None), bank, threshold, ScriptDummy(bank), today, gen);
    assert "" + BankCode(bank) == BankCode(bank);
  }

  /**
   * With the corrected threshold every record of the crawl, live or
   * fallback, is rated and churns exactly when its rating is at most 2.
   */
  lemma ChurnUniform(feeds: map<int, seq<Page>>, today: int, g: Rng, p: nat, k: nat)
    requires p < |BankAppsIos| && k < |IosParts(feeds, BankAppsIos, ChurnThreshold, today, g).parts[p]|
    ensures var r := IosParts(feeds, BankAppsIos, ChurnThreshold, today, g).parts[p][k];
      r.rating.Some? && (r.churn == 0 || r.churn == 1) && (r.churn == 1 <==> r.rating.value <= 2)
  {
    PartFacts(feeds, BankAppsIos, ChurnThreshold, today, g, p);
  }

  /**
   * The split inside the script's own table: when Vietcombank's feed is one
   * page with one entry rated 2, the first record of the registry crawl
   * `CrawlIos` concatenates is rated 2 and does not churn.
   */
  lemma AsWrittenRegistrySplit(today: int, g: Rng)
    ensures var parts := IosParts(map[561433133 := OneEntryFeed(2)], BankAppsIos, AsWrittenThreshold, today, g).parts;
      && parts[0] == RssSafe(Some(561433133), OneEntryFeed(2), "Vietcombank", AsWrittenThreshold, today, g).rows
      && |parts[0]| == 1 && parts[0][0].rating == Some(2) && parts[0][0].churn == 0
  {
    var feeds := map[561433133 := OneEntryFeed(2)];
    assert BankAppsIos[0] == ("Vietcombank", Some(561433133));
    IosPartAt(feeds, BankAppsIos, AsWrittenThreshold, today, g, 0);
    assert BankAppsIos[..0] == [];
    AsWrittenChurnSplit("Vietcombank", today, g);
  }
}
