/**
 * `generate_dummy_reviews` of crawl/utils/generators.py: `count` synthetic
 * records for one bank and platform, returned as a frame, with ids
 * `{platform[:2].upper()}_{bank_name[:3].upper()}_{i:04d}` and
 * `data_source = "synthetic"` on every row.
 */
module Generators {
  import opened Wrappers
  import opened Text
  import opened Rand
  import opened Reviews
  import opened Config
  import opened Synthetic
  import opened Frames

  const DefaultDaysBack: nat := 30
  const SyntheticSource: string := "synthetic"

  /** `f"{prefix}_{bank_code}_{i:04d}"` with `prefix = platform[:2].upper()`. */
  function DummyIds(platform: string): IdScheme
  {
    IdScheme(Upper(Take(platform, 2)) + "_", "_", 4)
  }

  /** The recipe of one call; absent weights default to `RATING_WEIGHTS`. */
  function DummyRecipe(bank: string, platform: string, weights: Option<seq<int>>, daysBack: nat): Recipe
  {
    Recipe(bank, platform, DummyIds(platform),
           if weights.None? then RatingWeights else weights.value,
           daysBack, Some(SyntheticSource))
  }

  /** What `random.choices` accepts for five ratings; None selects the default. */
  predicate AcceptableWeights(weights: Option<seq<int>>)
  {
    weights.Some? ==> |weights.value| == 5 && ValidWeights(weights.value)
  }

  lemma DefaultRecipeValid(bank: string, platform: string, weights: Option<seq<int>>, daysBack: nat)
    requires AcceptableWeights(weights)
    ensures ValidRecipe(DummyRecipe(bank, platform, weights, daysBack))
    ensures weights.None? ==> DummyRecipe(bank, platform, weights, daysBack).weights == [12, 13, 25, 25, 25]
  {
    assert Sum(RatingWeights) == 100;
  }

  /**
   * `generate_dummy_reviews(bank_name, platform, count, rating_weights,
   * days_back)`: the frame of the `count` generated records, drawn from the
   * global generator state `g`; `today` stands for `datetime.now()`.
   */
  method GenerateDummyReviews(bank: string, platform: string, count: nat, weights: Option<seq<int>>,
                              daysBack: nat, today: int, g: Rng) returns (df: Table, g': Rng)
    requires AcceptableWeights(weights)
    ensures DummyRecipe(bank, platform, weights, daysBack).weights == if weights.None? then RatingWeights else weights.value
    ensures ValidRecipe(DummyRecipe(bank, platform, weights, daysBack))
    ensures df == FromRecords(SyntheticRows(DummyRecipe(bank, platform, weights, daysBack), count, today, g))
    ensures g' == Advance(g, 2 * count)
  {
    DefaultRecipeValid(bank, platform, weights, daysBack);
    var rows;
    rows, g' := Synthesize(DummyRecipe(bank, platform, weights, daysBack), count, today, g);
    df := FromRecords(rows);
  }

  /**
   * Row `i` of a call: its id is the platform prefix, `_`, the bank code,
   * `_` and the index padded to four digits (exactly four below 10000); it
   * carries the call's bank, platform and `data_source = "synthetic"`.
   */
  lemma DummyRow(bank: string, platform: string, count: nat, weights: Option<seq<int>>,
                 daysBack: nat, today: int, g: Rng, i: nat)
    requires AcceptableWeights(weights) && i < count
    ensures ValidRecipe(DummyRecipe(bank, platform, weights, daysBack))
    ensures var row := SyntheticRows(DummyRecipe(bank, platform, weights, daysBack), count, today, g)[i];
      && row.reviewId == Some(Upper(Take(platform, 2)) + "_" + BankCode(bank) + "_" + Digits(i, 4))
      && (i < 10000 ==> |Digits(i, 4)| == 4)
      && row.bankName == bank && row.platform == platform
      && row.dataSource == Some("synthetic")
  {
    DefaultRecipeValid(bank, platform, weights, daysBack);
    if i < 10000 {
      DigitsWidth(i, 4, 10000);
    }
  }

  /**
   * The frame of a non-empty call has the six review columns and then
   * `data_source`, one row per record; an empty call has no columns.
   */
  lemma DummyFrameShape(bank: string, platform: string, count: nat, weights: Option<seq<int>>,
                        daysBack: nat, today: int, g: Rng)
    requires AcceptableWeights(weights)
    ensures ValidRecipe(DummyRecipe(bank, platform, weights, daysBack))
    ensures var t := FromRecords(SyntheticRows(DummyRecipe(bank, platform, weights, daysBack), count, today, g));
      && t.height == count
      && t.columns == if count == 0 then [] else ReviewColumns + [DataSourceColumn]
  {
    DefaultRecipeValid(bank, platform, weights, daysBack);
    if count > 0 {
      SyntheticHasSource(DummyRecipe(bank, platform, weights, daysBack), count, today, g);
    }
  }
}
