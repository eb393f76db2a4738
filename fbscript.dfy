/**
 * crawl_facebook.py: `generate_facebook_dummy` writes 500 synthetic
 * Facebook records for every bank of `BANKS_FACEBOOK`, in order; the frames
 * are concatenated and augmented once, with the country column.
 *
 * The script's ids start with "FB_", like unified_crawler.py's Facebook
 * rows, while crawl/crawlers/facebook.py derives "FA_" from the platform
 * name; unlike unified_crawler.py, the script sets `data_source`.
 */
module FacebookScript {
  import opened Wrappers
  import opened Seqs
  import opened Text
  import opened Rand
  import opened Reviews
  import opened Config
  import opened Synthetic
  import opened Frames
  import opened Features
  import Generators

  const Platform: string := "facebook"
  const HowMany: nat := 500

  /** `BANKS_FACEBOOK`, written out by the script with the same names as `BANKS_ALL`. */
  const BanksFacebook: seq<string> := [
    "Vietcombank", "BIDV", "VietinBank", "Agribank",
    "Techcombank", "MB Bank", "TPBank", "VPBank", "SHB", "HDBank", "OCB", "ACB",
    "Sacombank", "Eximbank", "SeABank", "Bac A Bank", "LienVietPostBank", "Nam A Bank",
    "PVcomBank", "Kienlongbank", "ABBank", "NCB",
    "HSBC Vietnam", "Standard Chartered VN", "Shinhan Bank VN", "UOB VN", "OCBC VN",
    "Public Bank VN", "Hong Leong VN", "Indovina Bank", "Maybank VN",
    "VietABank", "Saigonbank", "VRB", "PG Bank"
  ]

  /** The script's own list names the same 35 banks, in the same order, as `BANKS_ALL`. */
  lemma BanksFacebookIsBanksAll()
    ensures BanksFacebook == BanksAll
    ensures |BanksFacebook| == 35 && Distinct(BanksFacebook)
  {
    BanksAllDistinct();
  }

  /**
   * The recipe of `generate_facebook_dummy(bank_name)`: ids
   * `FB_{BAN}_{i:04d}`, weights 12/13/25/25/25, dates in the last 30 days,
   * `data_source = "synthetic"`.
   */
  function FacebookDummy(bank: string): (r: Recipe)
    ensures ValidRecipe(r)
    ensures r.bank == bank && r.platform == Platform && r.dataSource == Some(Generators.SyntheticSource)
  {
    assert Sum(RatingWeights) == 100;
    Recipe(bank, Platform, IdScheme("FB_", "_", 4), RatingWeights, 30, Some(Generators.SyntheticSource))
  }

  /** `generate_facebook_dummy(bank_name, how_many)`: the frame of the generated records. */
  method GenerateFacebookDummy(bank: string, howMany: nat, today: int, g: Rng) returns (df: Table, g': Rng)
    ensures df == FromRecords(SyntheticRows(FacebookDummy(bank), howMany, today, g))
    ensures g' == Advance(g, 2 * howMany)
  {
    var data;
    data, g' := Synthesize(FacebookDummy(bank), howMany, today, g);
    df := FromRecords(data);
  }

  function FacebookRecipes(banks: seq<string>): (rs: seq<Recipe>)
    ensures |rs| == |banks|
  {
    seq(|banks|, b requires 0 <= b < |banks| => FacebookDummy(banks[b]))
  }

  /** The records of `all_fb_dfs`, bank after bank. */
  function FacebookRows(banks: seq<string>, today: int, g: Rng): seq<Review>
  {
    Flatten(Batches(FacebookRecipes(banks), HowMany, today, g))
  }

  /**
   * The module-level script: the loop over `BANKS_FACEBOOK`,
   * `pd.concat(all_fb_dfs)` and `add_synthetic_customer_features`: 17500
   * rows, the six review columns, `data_source`, then the nine added
   * columns.
   */
  method CrawlFacebookScript(today: int, g: Rng) returns (df: Frame, g': Rng)
    ensures fresh(df)
    ensures df.Value() == Augmented(FromRecords(FacebookRows(BanksFacebook, today, g)), DefaultSeed, true)
    ensures df.height == 17500
    ensures df.columns == ReviewColumns + [DataSourceColumn] + AddedColumns(true)
  {
    BanksFacebookIsBanksAll();
    df, g' := FacebookTable(BanksFacebook, today, g);
  }

  /** The script's steps over any non-empty bank list. */
  method FacebookTable(banks: seq<string>, today: int, g: Rng) returns (df: Frame, g': Rng)
    requires banks != []
    ensures fresh(df)
    ensures df.Value() == Augmented(FromRecords(FacebookRows(banks, today, g)), DefaultSeed, true)
    ensures df.height == HowMany * |banks|
    ensures df.columns == ReviewColumns + [DataSourceColumn] + AddedColumns(true)
  {
    var allDfs := FacebookFrames(banks, HowMany, today, g);
    ghost var parts := Batches(FacebookRecipes(banks), HowMany, today, g);
    BatchesSourced(banks, today, g);
    ConcatOfRecords(allDfs, parts);
    FlattenUniformLength(parts, HowMany);
    FlattenRecords(parts);
    df := new Frame(ConcatAll(allDfs));
    assert HasSource(parts[0]);
    g' := AddSyntheticCustomerFeatures(df, DefaultSeed, true);
    AugmentedSourcedRecords(Flatten(parts), DefaultSeed, true);
  }

  /** `all_fb_dfs`: one frame per bank, `how_many` records each, each call continuing the generator. */
  method FacebookFrames(banks: seq<string>, howMany: nat, today: int, g: Rng) returns (allDfs: seq<Table>)
    ensures |allDfs| == |banks|
    ensures forall p :: 0 <= p < |allDfs| ==>
              allDfs[p] == FromRecords(Batches(FacebookRecipes(banks), howMany, today, g)[p])
  {
    ghost var recipes := FacebookRecipes(banks);
    ghost var parts := Batches(recipes, howMany, today, g);
    allDfs := [];
    var gen := g;
    for b := 0 to |banks|
      invariant |allDfs| == b && FramesOf(allDfs, parts)
      invariant gen == Advance(g, DrawsBefore(howMany, b))
    {
      var dfBank, gen' := FacebookBank(banks, howMany, today, g, b, gen);
      FramesOfAppend(allDfs, parts, dfBank);
      allDfs := allDfs + [dfBank];
      gen := gen';
    }
  }

  /** One pass of the loop: the frame of bank `b`, drawn where the banks before it left the generator. */
  method FacebookBank(banks: seq<string>, howMany: nat, today: int, g: Rng, b: nat, gen: Rng)
    returns (dfBank: Table, gen': Rng)
    requires b < |banks| && gen == Advance(g, DrawsBefore(howMany, b))
    ensures dfBank == FromRecords(Batches(FacebookRecipes(banks), howMany, today, g)[b])
    ensures gen' == Advance(g, DrawsBefore(howMany, b + 1))
  {
    dfBank, gen' := GenerateFacebookDummy(banks[b], howMany, today, gen);
    BatchStep(FacebookRecipes(banks), howMany, today, g, b, gen, gen');
  }

  /** Every bank's batch holds 500 records, all setting `data_source`. */
  lemma BatchesSourced(banks: seq<string>, today: int, g: Rng)
    ensures var parts := Batches(FacebookRecipes(banks), HowMany, today, g);
      forall p :: 0 <= p < |parts| ==>
        |parts[p]| == HowMany && parts[p] != [] && HasSource(parts[p]) && HasSource(parts[p]) == HasSource(parts[0])
  {
    var parts := Batches(FacebookRecipes(banks), HowMany, today, g);
    forall p | 0 <= p < |parts|
      ensures |parts[p]| == HowMany && HasSource(parts[p])
    {
      SyntheticHasSource(FacebookRecipes(banks)[p], HowMany, today, Advance(g, DrawsBefore(HowMany, p)));
    }
  }

  /**
   * Row `j` of bank number `b` sits at `b * 500 + j`: it names that bank,
   * is tagged "facebook" and "synthetic", has the id `FB_{BAN}_{j:04d}`, a
   * rating in 1..5 with churn exactly for ratings up to 2, and a date in
   * the last 30 days.
   */
  lemma FacebookRow(banks: seq<string>, today: int, g: Rng, b: nat, j: nat)
    requires b < |banks| && j < HowMany
    ensures |FacebookRows(banks, today, g)| == HowMany * |banks|
    ensures Slot(b, HowMany, j) < |FacebookRows(banks, today, g)|
    ensures var row := FacebookRows(banks, today, g)[Slot(b, HowMany, j)];
      && row.bankName == banks[b] && row.platform == "facebook"
      && row.dataSource == Some("synthetic")
      && row.reviewId == Some("FB_" + BankCode(banks[b]) + "_" + Digits(j, 4)) && |Digits(j, 4)| == 4
      && row.rating.Some? && 1 <= row.rating.value <= 5
      && (row.churn == 1 <==> row.rating.value <= 2) && (row.churn == 0 || row.churn == 1)
      && row.date.OnDay? && today - 30 <= row.date.day <= today
  {
    BatchRow(FacebookRecipes(banks), HowMany, today, g, b, j);
    DigitsWidth(j, 4, 10000);
  }

  /** Within one bank's 500 records the ids are pairwise distinct. */
  lemma FacebookIdsDistinct(banks: seq<string>, today: int, g: Rng, b: nat)
    requires b < |banks|
    ensures DistinctIds(Batches(FacebookRecipes(banks), HowMany, today, g)[b])
  {
    SyntheticRowsDistinctIds(FacebookDummy(banks[b]), HowMany, today, Advance(g, DrawsBefore(HowMany, b)));
  }

  /**
   * The script and unified_crawler.py give the same id to the same row of
   * a bank, and crawl/crawlers/facebook.py, which builds its prefix from
   * the platform name, a different one.
   */
  lemma IdSchemesDiverge(bank: string, j: nat)
    ensures SyntheticId(FacebookDummy(bank).ids, bank, j) == "FB_" + BankCode(bank) + "_" + Digits(j, 4)
    ensures SyntheticId(Generators.DummyIds(Platform), bank, j) == "FA_" + BankCode(bank) + "_" + Digits(j, 4)
    ensures SyntheticId(FacebookDummy(bank).ids, bank, j) != SyntheticId(Generators.DummyIds(Platform), bank, j)
  {
    assert Take(Platform, 2) == "fa";
    assert Upper("fa") == "FA";
    var fb := SyntheticId(FacebookDummy(bank).ids, bank, j);
    assert fb[1] == 'B';
    assert SyntheticId(Generators.DummyIds(Platform), bank, j)[1] == 'A';
  }
}
