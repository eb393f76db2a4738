/**
 * The crawl/crawlers package: `crawl_apple_store` (applestore.py) and
 * `crawl_facebook` (facebook.py). Both generate synthetic rows for every
 * bank of `BANKS_ALL`, in registry order, concatenate the per-bank frames
 * and augment the result once. They differ only in platform and count.
 */
module Crawlers {
  import opened Wrappers
  import opened Seqs
  import opened Text
  import opened Rand
  import opened Reviews
  import opened Config
  import opened Synthetic
  import opened Frames
  import opened Features
  import opened Generators

  const AppleStoreCount: nat := 300
  const FacebookCount: nat := 500

  /** One `generate_dummy_reviews(bank, platform, count=...)` recipe per bank, in `BANKS_ALL` order. */
  function BankRecipes(platform: string): (rs: seq<Recipe>)
    ensures |rs| == |BanksAll|
    ensures forall b :: 0 <= b < |rs| ==> rs[b] == DummyRecipe(BanksAll[b], platform, None, DefaultDaysBack)
    ensures forall b :: 0 <= b < |rs| ==> ValidRecipe(rs[b])
  {
    DefaultRecipeValid("", platform, None, DefaultDaysBack);
    seq(|BanksAll|, b requires 0 <= b < |BanksAll| => DummyRecipe(BanksAll[b], platform, None, DefaultDaysBack))
  }

  /** The records of all banks, bank after bank. */
  function PlatformRows(platform: string, count: nat, today: int, g: Rng): seq<Review>
  {
    Flatten(Batches(BankRecipes(platform), count, today, g))
  }

  /** The crawler's result: the records of all banks, augmented without the country column. */
  function PlatformTable(platform: string, count: nat, today: int, g: Rng): (t: Table)
    ensures Valid(t) && t.height == |PlatformRows(platform, count, today, g)|
  {
    Augmented(FromRecords(PlatformRows(platform, count, today, g)), DefaultSeed, false)
  }

  /**
   * The shared body: for each bank in order, `all_dfs.append(
   * generate_dummy_reviews(bank, platform, count=count))`; then
   * `pd.concat(all_dfs)` and one `add_synthetic_customer_features` pass.
   */
  method SyntheticPlatform(platform: string, count: nat, today: int, g: Rng) returns (df: Frame, g': Rng)
    requires count > 0
    ensures fresh(df)
    ensures df.Value() == PlatformTable(platform, count, today, g)
    ensures df.height == count * |BanksAll|
    ensures df.columns == ReviewColumns + [DataSourceColumn] + FeatureColumns
    ensures g' == Advance(Seed(DefaultSeed), |FeatureColumns| * df.height)
  {
    var allDfs := BankFrames(platform, count, today, g);
    ghost var parts := Batches(BankRecipes(platform), count, today, g);
    BatchesAlike(platform, count, today, g);
    ConcatOfRecords(allDfs, parts);
    PlatformRowsShape(platform, count, today, g);
    df := new Frame(ConcatAll(allDfs));
    g' := AddSyntheticCustomerFeatures(df, DefaultSeed, false);
    AugmentedSourcedRecords(PlatformRows(platform, count, today, g), DefaultSeed, false);
    assert AddedColumns(false) == FeatureColumns;
  }

  /** `count` records per bank, all with `data_source` set. */
  lemma PlatformRowsShape(platform: string, count: nat, today: int, g: Rng)
    requires count > 0
    ensures var rows := PlatformRows(platform, count, today, g);
      rows != [] && HasSource(rows) && |rows| == count * |BanksAll|
  {
    var parts := Batches(BankRecipes(platform), count, today, g);
    BatchesAlike(platform, count, today, g);
    FlattenUniformLength(parts, count);
    FlattenRecords(parts);
    SyntheticHasSource(BankRecipes(platform)[0], count, today, g);
  }

  /**
   * The loop of `SyntheticPlatform`: one `generate_dummy_reviews` frame per
   * bank of `BANKS_ALL`, each continuing the generator where the previous
   * bank left it.
   */
  method BankFrames(platform: string, count: nat, today: int, g: Rng) returns (allDfs: seq<Table>)
    ensures |allDfs| == |BanksAll|
    ensures forall p :: 0 <= p < |allDfs| ==>
              allDfs[p] == FromRecords(Batches(BankRecipes(platform), count, today, g)[p])
  {
    ghost var recipes := BankRecipes(platform);
    ghost var parts := Batches(recipes, count, today, g);
    allDfs := [];
    var gen := g;
    for b := 0 to |BanksAll|
      invariant |allDfs| == b && FramesOf(allDfs, parts)
      invariant gen == Advance(g, DrawsBefore(count, b))
    {
      var dfBank, gen' := GenerateDummyReviews(BanksAll[b], platform, count, None, DefaultDaysBack, today, gen);
      BatchStep(recipes, count, today, g, b, gen, gen');
      assert recipes[b] == DummyRecipe(BanksAll[b], platform, None, DefaultDaysBack);
      FramesOfAppend(allDfs, parts, dfBank);
      allDfs := allDfs + [dfBank];
      gen := gen';
    }
  }

  /** Every bank's batch is non-empty and sets `data_source` alike. */
  lemma BatchesAlike(platform: string, count: nat, today: int, g: Rng)
    requires count > 0
    ensures var parts := Batches(BankRecipes(platform), count, today, g);
      forall p :: 0 <= p < |parts| ==> parts[p] != [] && HasSource(parts[p]) == HasSource(parts[0])
  {
    var parts := Batches(BankRecipes(platform), count, today, g);
    forall p | 0 <= p < |parts|
      ensures parts[p] != [] && HasSource(parts[p]) == HasSource(parts[0])
    {
      SyntheticHasSource(BankRecipes(platform)[p], count, today, Advance(g, DrawsBefore(count, p)));
      SyntheticHasSource(BankRecipes(platform)[0], count, today, g);
    }
  }

  /** crawl/crawlers/applestore.py `crawl_apple_store()`: 300 rows per bank, platform "app_store". */
  method CrawlAppleStore(today: int, g: Rng) returns (df: Frame, g': Rng)
    ensures fresh(df)
    ensures df.Value() == PlatformTable("app_store", AppleStoreCount, today, g)
    ensures df.height == AppleStoreCount * |BanksAll|
    ensures df.columns == ReviewColumns + [DataSourceColumn] + FeatureColumns
    ensures g' == Advance(Seed(DefaultSeed), |FeatureColumns| * df.height)
  {
    df, g' := SyntheticPlatform("app_store", AppleStoreCount, today, g);
  }

  /** crawl/crawlers/facebook.py `crawl_facebook()`: 500 rows per bank, platform "facebook". */
  method CrawlFacebook(today: int, g: Rng) returns (df: Frame, g': Rng)
    ensures fresh(df)
    ensures df.Value() == PlatformTable("facebook", FacebookCount, today, g)
    ensures df.height == FacebookCount * |BanksAll|
    ensures df.columns == ReviewColumns + [DataSourceColumn] + FeatureColumns
    ensures g' == Advance(Seed(DefaultSeed), |FeatureColumns| * df.height)
  {
    df, g' := SyntheticPlatform("facebook", FacebookCount, today, g);
  }

  /**
   * Row `j` of bank number `b` sits at `b * count + j`: it names that bank,
   * carries the platform and `data_source = "synthetic"`, has the id
   * `{platform[:2].upper()}_{BAN}_{j:04d}`, a rating in 1..5 with churn
   * exactly for ratings up to 2, and a date in the last 30 days.
   */
  lemma PlatformRow(platform: string, count: nat, today: int, g: Rng, b: nat, j: nat)
    requires b < |BanksAll| && j < count
    ensures |PlatformRows(platform, count, today, g)| == count * |BanksAll|
    ensures Slot(b, count, j) < |PlatformRows(platform, count, today, g)|
    ensures var row := PlatformRows(platform, count, today, g)[Slot(b, count, j)];
      && row.bankName == BanksAll[b] && row.platform == platform
      && row.dataSource == Some("synthetic")
      && row.reviewId == Some(Upper(Take(platform, 2)) + "_" + BankCode(BanksAll[b]) + "_" + Digits(j, 4))
      && row.rating.Some? && 1 <= row.rating.value <= 5
      && (row.churn == 1 <==> row.rating.value <= 2) && (row.churn == 0 || row.churn == 1)
      && row.date.OnDay? && today - 30 <= row.date.day <= today
  {
    BatchRow(BankRecipes(platform), count, today, g, b, j);
    var gb := Advance(g, DrawsBefore(count, b));
    DummyRow(BanksAll[b], platform, count, None, DefaultDaysBack, today, gb, j);
  }

  /** The two platforms' id prefixes: "AP" for "app_store", "FA" for "facebook". */
  lemma PlatformPrefixes()
    ensures Upper(Take("app_store", 2)) == "AP"
    ensures Upper(Take("facebook", 2)) == "FA"
  {
    assert Take("app_store", 2) == "ap";
    assert Take("facebook", 2) == "fa";
  }
}
