/**
 * unified_crawler.py: for every bank of its own registry `BANK_APPS`, in
 * order, the App Store crawl, the Google Play crawl and the Facebook
 * generator, all appended to one list of records; then one frame, one
 * augmentation pass (with the country column) and the fixed column order.
 *
 * The network is a pair of parameters: the App Store feed of each app id
 * and the scraper's answer for each package name. The global generator is
 * threaded from call to call.
 */
module Unified {
  import opened Wrappers
  import opened Seqs
  import opened Text
  import opened Rand
  import opened Reviews
  import opened Config
  import opened Synthetic
  import opened Frames
  import opened Features
  import opened AppleFeed
  import opened PlayStore

  /**
   * `BANK_APPS`: bank name to (App Store id, Google Play package), None where
   * there is no app. One literal in the script; written here in the four
   * groups of `BANKS_ALL` so that its agreement with the registry can be
   * checked group by group.
   */
  const StateOwnedApps: seq<(string, (Option<int>, Option<string>))> := [
    ("Vietcombank", (Some(561433133), Some("com.VCB"))),
    ("BIDV", (Some(1061867449), Some("com.bidv.smartbanking"))),
    ("VietinBank", (Some(689963454), Some("com.vietinbank.ipay"))),
    ("Agribank", (Some(935944952), Some("com.vnpay.Agribank3g")))
  ]
  const PrivateApps: seq<(string, (Option<int>, Option<string>))> := [
    ("Techcombank", (Some(1548623362), Some("vn.com.techcombank.bb.app"))),
    ("MB Bank", (Some(1205807363), Some("com.mbmobile"))),
    ("TPBank", (Some(450464147), Some("com.tpb.mb.smartbank"))),
    ("VPBank", (Some(1209349510), Some("com.vnpay.vpbankonline"))),
    ("SHB", (Some(1661457183), None)),
    ("HDBank", (Some(1461658565), None)),
    ("OCB", (Some(6472261202), None)),
    ("ACB", (Some(950141024), Some("com.acb.acbonline"))),
    ("Sacombank", (Some(1436283663), Some("com.sacombank.pay"))),
    ("Eximbank", (Some(1571427361), None)),
    ("SeABank", (Some(846407152), None)),
    ("Bac A Bank", (Some(1441408786), None)),
    ("LienVietPostBank", (Some(1488794748), None)),
    ("Nam A Bank", (Some(1456997296), None)),
    ("PVcomBank", (Some(6467857410), None)),
    ("Kienlongbank", (Some(1562823941), None)),
    ("ABBank", (Some(6636532294), None)),
    ("NCB", (Some(1435405040), None))
  ]
  const ForeignApps: seq<(string, (Option<int>, Option<string>))> := [
    ("HSBC Vietnam", (Some(1472163155), None)),
    ("Standard Chartered VN", (None, None)),
    ("Shinhan Bank VN", (Some(1071033810), None)),
    ("UOB VN", (Some(1174327324), None)),
    ("OCBC VN", (None, None)),
    ("Public Bank VN", (Some(1573736472), None)),
    ("Hong Leong VN", (None, None)),
    ("Indovina Bank", (Some(1096963960), None)),
    ("Maybank VN", (None, None))
  ]
  const OtherApps: seq<(string, (Option<int>, Option<string>))> := [
    ("VietABank", (Some(6744814738), None)),
    ("Saigonbank", (Some(1481832587), None)),
    ("VRB", (None, None)),
    ("PG Bank", (Some(1537765475), None))
  ]

  const BankApps: seq<(string, (Option<int>, Option<string>))> := StateOwnedApps + PrivateApps + ForeignApps + OtherApps

  /** `column_order`. */
  const ColumnOrder: seq<string> := [
    "review_id", "date", "bank_name", "rating", "churn", "platform",
    "country_of_residence", "sex", "age", "tenure", "credit_score",
    "balance", "products_number", "credit_card", "active_member"
  ]

  const AppleDummyTag: string := "app_store_dummy"
  const GoogleDummyTag: string := "google_play_dummy"
  const FacebookTag: string := "facebook"
  const FacebookCount: nat := 500

  /** The App Store fallback: ids `{BAN}_IOS_DUMMY_{i}`, weights 10/15/25/25/25, the last 30 days. */
  function AppleDummy(bank: string): (r: Recipe)
    ensures ValidRecipe(r)
  {
    assert Sum([10, 15, 25, 25, 25]) == 100;
    Recipe(bank, AppleDummyTag, IdScheme("", "_IOS_DUMMY_", 1), [10, 15, 25, 25, 25], 30, None)
  }

  /** `crawl_facebook(bank_name)`: ids `FB_{BAN}_{i:04d}`, `RATING_WEIGHTS`, no `data_source`. */
  function FacebookRecipe(bank: string): (r: Recipe)
    ensures ValidRecipe(r)
  {
    assert Sum(RatingWeights) == 100;
    Recipe(bank, FacebookTag, IdScheme("FB_", "_", 4), RatingWeights, 30, None)
  }

  /** The records of one bank: its App Store run, then its Google Play run, then 500 Facebook rows. */
  function BankReviews(feeds: map<int, seq<Page>>, results: map<string, PlayFetch>,
                       entry: (string, (Option<int>, Option<string>)), today: int, g: Rng): Run
  {
    var bank := entry.0;
    var ios := entry.1.0;
    var gp := entry.1.1;
    var a := AppleRun(ios, FeedOf(feeds, ios), bank, ChurnThreshold, AppleDummy(bank), today, g);
    var p := PlayRun(gp, FetchOf(results, gp), bank, GoogleDummyTag, today, a.gen);
    Run(a.rows + p.rows + SyntheticRows(FacebookRecipe(bank), FacebookCount, today, p.gen),
        Advance(p.gen, 2 * FacebookCount))
  }

  /** `all_reviews` after the banks of `apps`, in order. */
  function AllReviews(feeds: map<int, seq<Page>>, results: map<string, PlayFetch>,
                      apps: seq<(string, (Option<int>, Option<string>))>, today: int, g: Rng): Run
  {
    if apps == [] then Run([], g)
    else
      var prev := AllReviews(feeds, results, apps[..|apps| - 1], today, g);
      var t := BankReviews(feeds, results, apps[|apps| - 1], today, prev.gen);
      Run(prev.rows + t.rows, t.gen)
  }

  /**
   * `crawl_all_platforms()`: the per-bank loop, then `pd.DataFrame`, the
   * augmenter (seed 42, with the country column) and `df[column_order]`,
   * which always succeeds and yields exactly the columns of `column_order`.
   */
  method CrawlAllPlatforms(feeds: map<int, seq<Page>>, results: map<string, PlayFetch>, today: int, g: Rng)
    returns (out: Table, g': Rng)
    ensures (ColumnOrderShape();
      Select(Augmented(FromRecords(AllReviews(feeds, results, BankApps, today, g).rows), DefaultSeed, true), ColumnOrder) == Some(out))
    ensures out.columns == ColumnOrder
    ensures out.height == |AllReviews(feeds, results, BankApps, today, g).rows|
  {
    var allReviews := CollectReviews(feeds, results, BankApps, today, g);
    BankAppsKeys();
    AllReviewsShape(feeds, results, BankApps, today, g);
    var df := new Frame(FromRecords(allReviews));
    g' := AddSyntheticCustomerFeatures(df, DefaultSeed, true);
    AugmentedRecords(allReviews, DefaultSeed, true);
    ColumnOrderShape();
    var selected := Select(df.Value(), ColumnOrder);
    out := selected.value;
  }

  /** `column_order` is the six review fields, the country and the eight profile columns, all distinct. */
  lemma ColumnOrderShape()
    ensures ColumnOrder == ReviewColumns + AddedColumns(true)
    ensures Distinct(ColumnOrder)
  {
    FeatureColumnsDistinct();
    assert ColumnOrder == ReviewColumns + ([CountryColumn] + FeatureColumns);
    ReviewColumnsApart();
    DistinctAppend(ReviewColumns, AddedColumns(true));
  }

  lemma ReviewColumnsApart()
    ensures Distinct(ReviewColumns) && Distinct(AddedColumns(true))
    ensures forall i, j :: 0 <= i < |ReviewColumns| && 0 <= j < |AddedColumns(true)| ==> ReviewColumns[i] != AddedColumns(true)[j]
  {
    FeatureColumnsDistinct();
    DistinctAppend([CountryColumn], FeatureColumns);
  }

  /** `for bank_name, (ios_id, gp_id) in BANK_APPS.items()`, extending `all_reviews` once per bank. */
  method CollectReviews(feeds: map<int, seq<Page>>, results: map<string, PlayFetch>,
                        apps: seq<(string, (Option<int>, Option<string>))>, today: int, g: Rng)
    returns (allReviews: seq<Review>)
    ensures allReviews == AllReviews(feeds, results, apps, today, g).rows
  {
    allReviews := [];
    var gen := g;
    for i := 0 to |apps|
      invariant Run(allReviews, gen) == AllReviews(feeds, results, apps[..i], today, g)
    {
      var bankData;
      bankData, gen := CrawlBank(feeds, results, apps[i], today, gen);
      allReviews := allReviews + bankData;
      assert apps[..i + 1][..i] == apps[..i];
    }
    assert apps[..|apps|] == apps;
  }

  /** One pass of the loop body: the App Store crawl, the Google Play crawl, then the Facebook generator. */
  method CrawlBank(feeds: map<int, seq<Page>>, results: map<string, PlayFetch>,
                   entry: (string, (Option<int>, Option<string>)), today: int, g: Rng)
    returns (data: seq<Review>, g': Rng)
    ensures Run(data, g') == BankReviews(feeds, results, entry, today, g)
  {
    var bank := entry.0;
    var iosId := entry.1.0;
    var gpId := entry.1.1;
    var appleData, gpData, fbData;
    var gen;
    appleData, gen := CrawlApple(iosId, FeedOf(feeds, iosId), bank, ChurnThreshold, AppleDummy(bank), today, g);
    gpData, gen := CrawlPlay(gpId, FetchOf(results, gpId), bank, GoogleDummyTag, today, gen);
    fbData, g' := CrawlFacebook(bank, FacebookCount, today, gen);
    data := appleData + gpData + fbData;
  }

  /** `crawl_facebook(bank_name, how_many)`: the generator loop with the Facebook recipe. */
  method CrawlFacebook(bank: string, howMany: nat, today: int, g: Rng) returns (data: seq<Review>, g': Rng)
    ensures data == SyntheticRows(FacebookRecipe(bank), howMany, today, g)
    ensures g' == Advance(g, 2 * howMany)
  {
    data, g' := Synthesize(FacebookRecipe(bank), howMany, today, g);
  }

  /** The order of the three sources within a bank. */
  function SourceRank(platform: string): nat
  {
    if platform == AppleFeed.LivePlatform || platform == AppleDummyTag then 0
    else if platform == PlayStore.LivePlatform || platform == GoogleDummyTag then 1
    else 2
  }

  /** Every record names one of `banks`. */
  predicate InRegistry(rows: seq<Review>, banks: seq<string>)
  {
    forall k :: 0 <= k < |rows| ==> rows[k].bankName in banks
  }

  /** The records are grouped by bank, in the order of `banks`. */
  predicate BankOrdered(rows: seq<Review>, banks: seq<string>)
    requires InRegistry(rows, banks)
  {
    forall i, j :: 0 <= i < j < |rows| ==> IndexOf(banks, rows[i].bankName) <= IndexOf(banks, rows[j].bankName)
  }

  /** Within a bank, App Store records come first, then Google Play, then Facebook. */
  predicate SourceOrdered(rows: seq<Review>)
  {
    forall i, j :: 0 <= i < j < |rows| && rows[i].bankName == rows[j].bankName ==>
      SourceRank(rows[i].platform) <= SourceRank(rows[j].platform)
  }

  /** Every record names one of `banks`, grouped by bank in that order, and within a bank by source. */
  predicate Grouped(rows: seq<Review>, banks: seq<string>)
  {
    InRegistry(rows, banks) && BankOrdered(rows, banks) && SourceOrdered(rows)
  }

  /** Records that all name `bank` and carry source rank `rank`. */
  predicate Block(rows: seq<Review>, bank: string, rank: nat)
  {
    forall k :: 0 <= k < |rows| ==> rows[k].bankName == bank && SourceRank(rows[k].platform) == rank
  }

  /** Three blocks of one bank, ranked 0, 1 and 2, in that order. */
  lemma ThreeBlocks(a: seq<Review>, p: seq<Review>, f: seq<Review>, bank: string)
    requires Block(a, bank, 0) && Block(p, bank, 1) && Block(f, bank, 2)
    ensures var rows := a + p + f;
      && (forall k :: 0 <= k < |rows| ==> rows[k].bankName == bank)
      && SourceOrdered(rows)
  {
    var rows := a + p + f;
    forall k | 0 <= k < |rows|
      ensures rows[k].bankName == bank
      ensures SourceRank(rows[k].platform) == (if k < |a| then 0 else if k < |a| + |p| then 1 else 2)
    {
      if k < |a| {
        assert rows[k] == a[k];
      } else if k < |a| + |p| {
        assert rows[k] == p[k - |a|];
      } else {
        assert rows[k] == f[k - |a| - |p|];
      }
    }
  }

  /**
   * One bank's records: at least 502, all naming the bank, none with
   * `data_source`, App Store records first, then Google Play, then Facebook.
   */
  lemma BankReviewsShape(feeds: map<int, seq<Page>>, results: map<string, PlayFetch>,
                         entry: (string, (Option<int>, Option<string>)), today: int, g: Rng)
    ensures var rows := BankReviews(feeds, results, entry, today, g).rows;
      && |rows| >= 502 && !HasSource(rows)
      && (forall k :: 0 <= k < |rows| ==> rows[k].bankName == entry.0)
      && SourceOrdered(rows)
  {
    var bank := entry.0;
    var ios := entry.1.0;
    var gp := entry.1.1;
    var a := AppleRun(ios, FeedOf(feeds, ios), bank, ChurnThreshold, AppleDummy(bank), today, g);
    var p := PlayRun(gp, FetchOf(results, gp), bank, GoogleDummyTag, today, a.gen);
    var f := SyntheticRows(FacebookRecipe(bank), FacebookCount, today, p.gen);
    assert BankReviews(feeds, results, entry, today, g).rows == a.rows + p.rows + f;
    AppleBlock(ios, FeedOf(feeds, ios), bank, today, g);
    PlayBlock(gp, FetchOf(results, gp), bank, today, a.gen);
    FacebookBlock(bank, today, p.gen);
    ThreeBlocks(a.rows, p.rows, f, bank);
    HasSourceAppend(a.rows, p.rows);
    HasSourceAppend(a.rows + p.rows, f);
  }

  /**
   * A bank with neither an App Store id nor a package is never fetched: its
   * records are 300 App Store fallback rows with ids `{BAN}_IOS_DUMMY_{i}`,
   * then 500 Google Play fallback rows with ids `GP_{BAN}_{i:04d}`, then 500
   * Facebook rows with ids `FB_{BAN}_{i:04d}`: 1300 rows naming the bank,
   * each rated and churning exactly for ratings up to 2.
   */
  lemma NoAppsBank(feeds: map<int, seq<Page>>, results: map<string, PlayFetch>, bank: string, today: int, g: Rng)
    ensures var rows := BankReviews(feeds, results, (bank, (None, None)), today, g).rows;
      && |rows| == 1300
      && (forall k :: 0 <= k < 300 ==>
            rows[k].platform == "app_store_dummy" && rows[k].reviewId == Some(BankCode(bank) + "_IOS_DUMMY_" + Digits(k, 1)))
      && (forall k :: 300 <= k < 800 ==>
            rows[k].platform == "google_play_dummy" && rows[k].reviewId == Some("GP_" + BankCode(bank) + "_" + Digits(k - 300, 4)))
      && (forall k :: 800 <= k < 1300 ==>
            rows[k].platform == "facebook" && rows[k].reviewId == Some("FB_" + BankCode(bank) + "_" + Digits(k - 800, 4)))
      && (forall k :: 0 <= k < 1300 ==>
            rows[k].bankName == bank && rows[k].rating.Some? && (rows[k].churn == 1 <==> rows[k].rating.value <= 2))
  {
    NoAppsApple(feeds, results, bank, today, g);
    NoAppsPlay(feeds, results, bank, today, g);
    NoAppsFacebook(feeds, results, bank, today, g);
  }

  /** The App Store block of a bank with no ids: rows 0..299. */
  lemma NoAppsApple(feeds: map<int, seq<Page>>, results: map<string, PlayFetch>, bank: string, today: int, g: Rng)
    ensures var rows := BankReviews(feeds, results, (bank, (None, None)), today, g).rows;
      && |rows| == 1300
      && forall k :: 0 <= k < 300 ==>
           && rows[k].platform == "app_store_dummy" && rows[k].reviewId == Some(BankCode(bank) + "_IOS_DUMMY_" + Digits(k, 1))
           && rows[k].bankName == bank && rows[k].rating.Some? && (rows[k].churn == 1 <==> rows[k].rating.value <= 2)
  {
    var a := AppleRun(None, FeedOf(feeds, None), bank, ChurnThreshold, AppleDummy(bank), today, g);
    var p := PlayRun(None, FetchOf(results, None), bank, GoogleDummyTag, today, a.gen);
    var f := SyntheticRows(FacebookRecipe(bank), FacebookCount, today, p.gen);
    var ap := a.rows + p.rows;
    var rows := ap + f;
    AppleFeed.FalsyIdFallback(None, FeedOf(feeds, None), bank, ChurnThreshold, AppleDummy(bank), today, g);
    PlayStore.NoLiveFallback(None, FetchOf(results, None), bank, GoogleDummyTag, today, a.gen);
    assert BankReviews(feeds, results, (bank, (None, None)), today, g).rows == rows;
    assert |a.rows| == 300 && |ap| == 800 && |f| == 500;
    assert "" + BankCode(bank) == BankCode(bank);
    BlockRows(AppleDummy(bank), 300, today, g);
    forall k | 0 <= k < 300
      ensures rows[k] == a.rows[k]
    {
      assert rows[k] == ap[k];
    }
  }

  /** The Google Play block of a bank with no ids: rows 300..799. */
  lemma NoAppsPlay(feeds: map<int, seq<Page>>, results: map<string, PlayFetch>, bank: string, today: int, g: Rng)
    ensures var rows := BankReviews(feeds, results, (bank, (None, None)), today, g).rows;
      && |rows| == 1300
      && forall k :: 300 <= k < 800 ==>
           && rows[k].platform == "google_play_dummy" && rows[k].reviewId == Some("GP_" + BankCode(bank) + "_" + Digits(k - 300, 4))
           && rows[k].bankName == bank && rows[k].rating.Some? && (rows[k].churn == 1 <==> rows[k].rating.value <= 2)
  {
    var a := AppleRun(None, FeedOf(feeds, None), bank, ChurnThreshold, AppleDummy(bank), today, g);
    var p := PlayRun(None, FetchOf(results, None), bank, GoogleDummyTag, today, a.gen);
    var f := SyntheticRows(FacebookRecipe(bank), FacebookCount, today, p.gen);
    var ap := a.rows + p.rows;
    var rows := ap + f;
    AppleFeed.FalsyIdFallback(None, FeedOf(feeds, None), bank, ChurnThreshold, AppleDummy(bank), today, g);
    PlayStore.NoLiveFallback(None, FetchOf(results, None), bank, GoogleDummyTag, today, a.gen);
    assert BankReviews(feeds, results, (bank, (None, None)), today, g).rows == rows;
    assert |a.rows| == 300 && |ap| == 800 && |f| == 500;
    BlockRows(PlayDummy(bank, GoogleDummyTag), 500, today, a.gen);
    forall k | 300 <= k < 800
      ensures rows[k] == p.rows[k - 300]
    {
      assert rows[k] == ap[k];
    }
  }

  /** The Facebook block of a bank with no ids: rows 800..1299. */
  lemma NoAppsFacebook(feeds: map<int, seq<Page>>, results: map<string, PlayFetch>, bank: string, today: int, g: Rng)
    ensures var rows := BankReviews(feeds, results, (bank, (None, None)), today, g).rows;
      && |rows| == 1300
      && forall k :: 800 <= k < 1300 ==>
           && rows[k].platform == "facebook" && rows[k].reviewId == Some("FB_" + BankCode(bank) + "_" + Digits(k - 800, 4))
           && rows[k].bankName == bank && rows[k].rating.Some? && (rows[k].churn == 1 <==> rows[k].rating.value <= 2)
  {
    var a := AppleRun(None, FeedOf(feeds, None), bank, ChurnThreshold, AppleDummy(bank), today, g);
    var p := PlayRun(None, FetchOf(results, None), bank, GoogleDummyTag, today, a.gen);
    var f := SyntheticRows(FacebookRecipe(bank), FacebookCount, today, p.gen);
    var ap := a.rows + p.rows;
    var rows := ap + f;
    AppleFeed.FalsyIdFallback(None, FeedOf(feeds, None), bank, ChurnThreshold, AppleDummy(bank), today, g);
    PlayStore.NoLiveFallback(None, FetchOf(results, None), bank, GoogleDummyTag, today, a.gen);
    assert BankReviews(feeds, results, (bank, (None, None)), today, g).rows == rows;
    assert |a.rows| == 300 && |ap| == 800 && |f| == 500;
    BlockRows(FacebookRecipe(bank), FacebookCount, today, p.gen);
    forall k | 800 <= k < 1300
      ensures rows[k] == f[k - 800]
    {
    }
  }

  /** Row k of a synthetic block carries the recipe's tag, bank and k-th id, and churns for ratings up to 2. */
  lemma BlockRows(r: Recipe, count: nat, today: int, g: Rng)
    requires ValidRecipe(r)
    ensures var rows := SyntheticRows(r, count, today, g);
      forall k :: 0 <= k < count ==>
        && rows[k].platform == r.platform && rows[k].reviewId == Some(SyntheticId(r.ids, r.bank, k))
        && rows[k].bankName == r.bank && rows[k].rating.Some? && (rows[k].churn == 1 <==> rows[k].rating.value <= 2)
  {
  }

  /** A bank's App Store records: non-empty, without `data_source`, rank 0. */
  lemma AppleBlock(ios: Option<int>, feed: seq<Page>, bank: string, today: int, g: Rng)
    ensures var rows := AppleRun(ios, feed, bank, ChurnThreshold, AppleDummy(bank), today, g).rows;
      rows != [] && !HasSource(rows) && Block(rows, bank, 0)
  {
    AppleFeed.NeverMixed(ios, feed, bank, ChurnThreshold, AppleDummy(bank), today, g);
    AppleFeed.RunHasNoSource(ios, feed, bank, ChurnThreshold, AppleDummy(bank), today, g);
  }

  /** A bank's Google Play records: non-empty, without `data_source`, rank 1. */
  lemma PlayBlock(gp: Option<string>, fetch: PlayFetch, bank: string, today: int, g: Rng)
    ensures var rows := PlayRun(gp, fetch, bank, GoogleDummyTag, today, g).rows;
      rows != [] && !HasSource(rows) && Block(rows, bank, 1)
  {
    PlayStore.NeverMixed(gp, fetch, bank, GoogleDummyTag, today, g);
    PlayStore.RunHasNoSource(gp, fetch, bank, GoogleDummyTag, today, g);
  }

  /** A bank's 500 Facebook records: without `data_source`, rank 2. */
  lemma FacebookBlock(bank: string, today: int, g: Rng)
    ensures var rows := SyntheticRows(FacebookRecipe(bank), FacebookCount, today, g);
      |rows| == 500 && !HasSource(rows) && Block(rows, bank, 2)
  {
    SyntheticHasSource(FacebookRecipe(bank), FacebookCount, today, g);
  }

  /** Appending the records of the next bank of the registry keeps the grouping. */
  lemma AppendBank(prev: seq<Review>, t: seq<Review>, banks: seq<string>)
    requires Distinct(banks) && banks != []
    requires InRegistry(prev, banks[..|banks| - 1]) && BankOrdered(prev, banks[..|banks| - 1]) && SourceOrdered(prev)
    requires (forall k :: 0 <= k < |t| ==> t[k].bankName == banks[|banks| - 1]) && SourceOrdered(t)
    ensures InRegistry(prev + t, banks) && BankOrdered(prev + t, banks) && SourceOrdered(prev + t)
  {
    var n := |banks|;
    var init := banks[..n - 1];
    var rows := prev + t;
    DistinctInit(banks);
    IndexOfAt(banks, n - 1);
    forall k | 0 <= k < |rows|
      ensures rows[k].bankName in banks
      ensures IndexOf(banks, rows[k].bankName) == if k < |prev| then IndexOf(init, prev[k].bankName) else n - 1
    {
      if k < |prev| {
        assert rows[k] == prev[k];
        IndexOfPrefix(banks, n - 1, rows[k].bankName);
      } else {
        assert rows[k] == t[k - |prev|];
      }
    }
    forall i, j | 0 <= i < j < |rows| && rows[i].bankName == rows[j].bankName
      ensures SourceRank(rows[i].platform) <= SourceRank(rows[j].platform)
    {
      assert rows[i] == if i < |prev| then prev[i] else t[i - |prev|];
      assert rows[j] == if j < |prev| then prev[j] else t[j - |prev|];
    }
  }

  /**
   * All records: at least 502 per bank, none with `data_source`, grouped by
   * bank in registry order, and within a bank App Store, then Google Play,
   * then Facebook.
   */
  lemma {:induction false} AllReviewsShape(feeds: map<int, seq<Page>>, results: map<string, PlayFetch>,
                                           apps: seq<(string, (Option<int>, Option<string>))>, today: int, g: Rng)
    requires Distinct(Keys(apps))
    ensures var rows := AllReviews(feeds, results, apps, today, g).rows;
      |rows| >= 502 * |apps| && !HasSource(rows) && Grouped(rows, Keys(apps))
  {
    if apps != [] {
      var init := apps[..|apps| - 1];
      KeysInit(apps);
      DistinctInit(Keys(apps));
      AllReviewsShape(feeds, results, init, today, g);
      ShapeInduct(feeds, results, apps, today, g);
    }
  }

  /** The induction step of `AllReviewsShape`: from the banks before the last to all of them. */
  lemma ShapeInduct(feeds: map<int, seq<Page>>, results: map<string, PlayFetch>,
                    apps: seq<(string, (Option<int>, Option<string>))>, today: int, g: Rng)
    requires apps != [] && Distinct(Keys(apps))
    requires var rows := AllReviews(feeds, results, apps[..|apps| - 1], today, g).rows;
      |rows| >= 502 * (|apps| - 1) && !HasSource(rows) && Grouped(rows, Keys(apps)[..|apps| - 1])
    ensures var rows := AllReviews(feeds, results, apps, today, g).rows;
      |rows| >= 502 * |apps| && !HasSource(rows) && Grouped(rows, Keys(apps))
  {
    var n := |apps|;
    var prev := AllReviews(feeds, results, apps[..n - 1], today, g);
    var t := BankReviews(feeds, results, apps[n - 1], today, prev.gen);
    assert AllReviews(feeds, results, apps, today, g).rows == prev.rows + t.rows;
    BankReviewsShape(feeds, results, apps[n - 1], today, prev.gen);
    ShapeStep(prev.rows, t.rows, Keys(apps));
  }

  /** The registry's shape is kept by appending the next bank's records. */
  lemma ShapeStep(prev: seq<Review>, t: seq<Review>, keys: seq<string>)
    requires Distinct(keys) && keys != []
    requires |prev| >= 502 * (|keys| - 1) && !HasSource(prev)
    requires Grouped(prev, keys[..|keys| - 1])
    requires |t| >= 502 && !HasSource(t) && SourceOrdered(t)
    requires forall k :: 0 <= k < |t| ==> t[k].bankName == keys[|keys| - 1]
    ensures |prev + t| >= 502 * |keys| && !HasSource(prev + t) && Grouped(prev + t, keys)
  {
    HasSourceAppend(prev, t);
    AppendBank(prev, t, keys);
  }

  lemma BankAppsKeys()
    ensures Distinct(Keys(BankApps))
  {
    BankAppsAgree();
    BanksAllDistinct();
  }

  /** The registry agrees with `BANK_APPS_IOS` and `BANK_APPS_GOOGLE`: the same banks, ids and packages. */
  lemma BankAppsAgree()
    ensures Keys(BankApps) == BanksAll
    ensures forall i :: 0 <= i < |BankApps| ==> BankApps[i].1.0 == BankAppsIos[i].1
    ensures forall i :: 0 <= i < |BankApps| ==> BankApps[i].1.1 == Get(BankAppsGoogle, BankApps[i].0)
  {
    IosGroupsAgree();
    GoogleGroupsListed();
    AgreeAppend(StateOwnedApps, PrivateApps, StateOwnedIos, PrivateIos);
    AgreeAppend(StateOwnedApps + PrivateApps, ForeignApps, StateOwnedIos + PrivateIos, ForeignIos);
    AgreeAppend(StateOwnedApps + PrivateApps + ForeignApps, OtherApps,
                StateOwnedIos + PrivateIos + ForeignIos, OtherIos);
    ListedAgree(BankApps);
    IosRegistryCoversBanks();
    var ks := Keys(BankApps);
    assert forall i :: 0 <= i < |ks| ==> ks[i] == Keys(BankAppsIos)[i];
  }

  /** A group of `BANK_APPS` names the banks of a group of `BANK_APPS_IOS`, in order, with the same ids. */
  predicate IosAgree(apps: seq<(string, (Option<int>, Option<string>))>, ios: seq<(string, Option<int>)>)
  {
    |apps| == |ios| && forall i :: 0 <= i < |apps| ==> apps[i].0 == ios[i].0 && apps[i].1.0 == ios[i].1
  }

  /** A group of `BANK_APPS` holds the package `BANK_APPS_GOOGLE` gives each of its banks. */
  predicate GoogleAgree(apps: seq<(string, (Option<int>, Option<string>))>)
  {
    forall i :: 0 <= i < |apps| ==> apps[i].1.1 == Get(BankAppsGoogle, apps[i].0)
  }

  /** Each package of a group is listed in `BANK_APPS_GOOGLE`, and each bank without one is absent from it. */
  predicate GoogleListed(apps: seq<(string, (Option<int>, Option<string>))>)
  {
    forall i :: 0 <= i < |apps| ==>
      && (apps[i].1.1.None? ==> apps[i].0 !in Keys(BankAppsGoogle))
      && (apps[i].1.1.Some? ==> (apps[i].0, apps[i].1.1.value) in BankAppsGoogle)
  }

  lemma IosGroupsAgree()
    ensures IosAgree(StateOwnedApps, StateOwnedIos) && IosAgree(PrivateApps, PrivateIos)
    ensures IosAgree(ForeignApps, ForeignIos) && IosAgree(OtherApps, OtherIos)
  {
  }

  lemma GoogleGroupsListed()
    ensures GoogleListed(StateOwnedApps) && GoogleListed(PrivateApps)
    ensures GoogleListed(ForeignApps) && GoogleListed(OtherApps)
  {
    GoogleKeys();
    assert GoogleListed(StateOwnedApps);
    PrivateListed();
    ForeignListed();
    assert GoogleListed(OtherApps);
  }

  lemma PrivateListed()
    ensures GoogleListed(PrivateApps)
  {
    GoogleKeys();
    assert GoogleListed(PrivateApps[..9]);
    assert GoogleListed(PrivateApps[9..]);
    ListedSplit(PrivateApps, 9);
  }

  /** A registry is listed when the two pieces it is cut into are. */
  lemma ListedSplit(apps: seq<(string, (Option<int>, Option<string>))>, k: nat)
    requires k <= |apps| && GoogleListed(apps[..k]) && GoogleListed(apps[k..])
    ensures GoogleListed(apps)
  {
    forall i | 0 <= i < |apps|
      ensures apps[i].1.1.None? ==> apps[i].0 !in Keys(BankAppsGoogle)
      ensures apps[i].1.1.Some? ==> (apps[i].0, apps[i].1.1.value) in BankAppsGoogle
    {
      if i < k { assert apps[..k][i] == apps[i]; } else { assert apps[k..][i - k] == apps[i]; }
    }
  }

  lemma ForeignListed()
    ensures GoogleListed(ForeignApps)
  {
    GoogleKeys();
  }

  /** The ten banks of `BANK_APPS_GOOGLE`. */
  lemma GoogleKeys()
    ensures Keys(BankAppsGoogle) == [
      "Vietcombank", "BIDV", "VietinBank", "Agribank", "Techcombank",
      "MB Bank", "TPBank", "VPBank", "Sacombank", "ACB"]
  {
  }

  /** Listing agrees with lookup, the keys of `BANK_APPS_GOOGLE` being distinct. */
  lemma ListedAgree(apps: seq<(string, (Option<int>, Option<string>))>)
    requires GoogleListed(apps)
    ensures GoogleAgree(apps)
  {
    GoogleRegistryWithinBanks();
    forall i | 0 <= i < |apps| && apps[i].1.1.Some?
      ensures apps[i].1.1 == Get(BankAppsGoogle, apps[i].0)
    {
      GetListed(BankAppsGoogle, (apps[i].0, apps[i].1.1.value));
    }
  }

  lemma AgreeAppend(a: seq<(string, (Option<int>, Option<string>))>, b: seq<(string, (Option<int>, Option<string>))>,
                    ia: seq<(string, Option<int>)>, ib: seq<(string, Option<int>)>)
    requires IosAgree(a, ia) && IosAgree(b, ib) && GoogleListed(a) && GoogleListed(b)
    ensures IosAgree(a + b, ia + ib) && GoogleListed(a + b)
  {
    IosAppend(a, b, ia, ib);
    ListedAppend(a, b);
  }

  lemma IosAppend(a: seq<(string, (Option<int>, Option<string>))>, b: seq<(string, (Option<int>, Option<string>))>,
                  ia: seq<(string, Option<int>)>, ib: seq<(string, Option<int>)>)
    requires IosAgree(a, ia) && IosAgree(b, ib)
    ensures IosAgree(a + b, ia + ib)
  {
    forall i | 0 <= i < |a + b|
      ensures (a + b)[i].0 == (ia + ib)[i].0 && (a + b)[i].1.0 == (ia + ib)[i].1
    {
      if i < |a| {
        assert (a + b)[i] == a[i] && (ia + ib)[i] == ia[i];
      } else {
        assert (a + b)[i] == b[i - |a|] && (ia + ib)[i] == ib[i - |a|];
      }
    }
  }

  lemma ListedAppend(a: seq<(string, (Option<int>, Option<string>))>, b: seq<(string, (Option<int>, Option<string>))>)
    requires GoogleListed(a) && GoogleListed(b)
    ensures GoogleListed(a + b)
  {
    forall i | 0 <= i < |a + b|
      ensures (a + b)[i] == if i < |a| then a[i] else b[i - |a|]
    {
    }
  }

  /**
   * The crawl's table: at least 502 records per bank of `BANK_APPS`, none
   * with `data_source`, grouped by bank in registry order and within a bank
   * App Store, then Google Play, then Facebook.
   */
  lemma UnifiedOrder(feeds: map<int, seq<Page>>, results: map<string, PlayFetch>, today: int, g: Rng)
    ensures var rows := AllReviews(feeds, results, BankApps, today, g).rows;
      && |rows| >= 502 * 35 && !HasSource(rows)
      && (forall k :: 0 <= k < |rows| ==> rows[k].bankName in BanksAll)
      && (forall i, j :: 0 <= i < j < |rows| ==>
            IndexOf(BanksAll, rows[i].bankName) <= IndexOf(BanksAll, rows[j].bankName))
      && (forall i, j :: 0 <= i < j < |rows| && rows[i].bankName == rows[j].bankName ==>
            SourceRank(rows[i].platform) <= SourceRank(rows[j].platform))
  {
    BankAppsAgree();
    BanksAllDistinct();
    AllReviewsShape(feeds, results, BankApps, today, g);
  }
}
