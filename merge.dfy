/**
 * crawl/main.py `main()`: run the three package crawlers, stack their
 * frames with `pd.concat([df_appstore, df_googleplay, df_facebook])`, and
 * keep the columns of `FINAL_COLUMNS` that the stacked frame has, in the
 * order of `FINAL_COLUMNS`.
 *
 * crawl/crawlers/googleplay.py is not part of this model: its frame, and
 * the generator state it leaves, are parameters.
 */
module Merge {
  import opened Wrappers
  import opened Seqs
  import opened Rand
  import opened Reviews
  import opened Config
  import opened Frames
  import opened Features
  import Crawlers

  /** The merged frame: the stack of the three frames, projected on `FINAL_COLUMNS`. */
  function MergeAll(apple: Table, google: Table, facebook: Table): (r: Table)
    requires Valid(apple) && Valid(google) && Valid(facebook)
    ensures Valid(r)
  {
    FinalColumnsShape();
    Project(ConcatAll([apple, google, facebook]), FinalColumns)
  }

  /** Row `k` of the stack: a row of the App Store frame, then of the Google Play frame, then of the Facebook frame. */
  function StackedCell(apple: Table, google: Table, facebook: Table, c: string, k: int): Cell
  {
    if k < apple.height then At(apple, c, k)
    else if k < apple.height + google.height then At(google, c, k - apple.height)
    else At(facebook, c, k - apple.height - google.height)
  }

  /** `pd.concat` of the three frames: every row of each, in order, with NaN where a frame lacks a column. */
  lemma {:induction false} StackOfThree(apple: Table, google: Table, facebook: Table)
    requires Valid(apple) && Valid(google) && Valid(facebook)
    ensures var t := ConcatAll([apple, google, facebook]);
      && t.height == apple.height + google.height + facebook.height
      && (forall c :: c in t.columns <==> c in apple.columns || c in google.columns || c in facebook.columns)
      && (forall c, k :: c in t.cells && 0 <= k < t.height ==> t.cells[c][k] == StackedCell(apple, google, facebook, c, k))
  {
    ConcatThree(apple, google, facebook);
    var ag := Concat(apple, google);
    var t := Concat(ag, facebook);
    ConcatColumnsIff(apple, google);
    ConcatColumnsIff(ag, facebook);
    forall c, k | c in t.cells && 0 <= k < t.height
      ensures t.cells[c][k] == StackedCell(apple, google, facebook, c, k)
    {
      StackedCellAt(apple, google, facebook, c, k);
    }
  }

  /** A column of two stacked frames is a column of one of them. */
  lemma ConcatColumnsIff(a: Table, b: Table)
    requires Valid(a) && Valid(b)
    ensures forall c :: c in Concat(a, b).columns <==> c in a.columns || c in b.columns
  {
  }

  /** One cell of the stack of three frames comes from the frame its row belongs to. */
  lemma StackedCellAt(apple: Table, google: Table, facebook: Table, c: string, k: int)
    requires Valid(apple) && Valid(google) && Valid(facebook)
    requires var t := Concat(Concat(apple, google), facebook); c in t.cells && 0 <= k < t.height
    ensures Concat(Concat(apple, google), facebook).cells[c][k] == StackedCell(apple, google, facebook, c, k)
  {
    var ag := Concat(apple, google);
    var t := Concat(ag, facebook);
    if k < ag.height {
      assert t.cells[c][k] == At(ag, c, k);
      if c in ag.cells {
        assert ag.cells[c] == Stacked(apple, google, c);
      }
    }
  }

  /** The stack of three frames is the first two stacked, then the third. */
  lemma ConcatThree(apple: Table, google: Table, facebook: Table)
    requires Valid(apple) && Valid(google) && Valid(facebook)
    ensures ConcatAll([apple, google, facebook]) == Concat(Concat(apple, google), facebook)
  {
    var ts := [apple, google, facebook];
    assert ts[..2] == [apple, google] && [apple, google][..1] == [apple];
    assert ConcatAll([apple]) == apple;
  }

  /**
   * The merged frame has one row per row of the three frames; its columns
   * are those of `FINAL_COLUMNS` that some frame has, in the order of
   * `FINAL_COLUMNS`; each cell is the cell of the row's own frame, or NaN.
   */
  lemma MergeShape(apple: Table, google: Table, facebook: Table)
    requires Valid(apple) && Valid(google) && Valid(facebook)
    ensures var r := MergeAll(apple, google, facebook);
      && r.height == apple.height + google.height + facebook.height
      && r.columns == Keep(FinalColumns, apple.columns + google.columns + facebook.columns)
      && (forall c, k :: c in r.cells && 0 <= k < r.height ==> r.cells[c][k] == StackedCell(apple, google, facebook, c, k))
  {
    FinalColumnsShape();
    var t := ConcatAll([apple, google, facebook]);
    StackOfThree(apple, google, facebook);
    KeepCongruent(FinalColumns, t.columns, apple.columns + google.columns + facebook.columns);
  }

  /** A column is in the merged frame exactly when `FINAL_COLUMNS` names it and some frame has it. */
  lemma MergeColumnsIff(apple: Table, google: Table, facebook: Table, c: string)
    requires Valid(apple) && Valid(google) && Valid(facebook)
    ensures c in MergeAll(apple, google, facebook).columns
        <==> c in FinalColumns && (c in apple.columns || c in google.columns || c in facebook.columns)
  {
    MergeShape(apple, google, facebook);
  }

  /** Projecting the merged frame on `FINAL_COLUMNS` once more changes nothing. */
  lemma MergeIdempotent(apple: Table, google: Table, facebook: Table)
    requires Valid(apple) && Valid(google) && Valid(facebook)
    ensures (FinalColumnsShape(); Project(MergeAll(apple, google, facebook), FinalColumns) == MergeAll(apple, google, facebook))
  {
    FinalColumnsShape();
    ProjectIdempotent(ConcatAll([apple, google, facebook]), FinalColumns);
  }

  /**
   * When one frame has every column of `FINAL_COLUMNS`, the merged frame
   * has exactly `FINAL_COLUMNS`, in that order.
   */
  lemma MergeComplete(apple: Table, google: Table, facebook: Table)
    requires Valid(apple) && Valid(google) && Valid(facebook)
    requires forall c :: c in FinalColumns ==> c in apple.columns
    ensures MergeAll(apple, google, facebook).columns == FinalColumns
  {
    MergeShape(apple, google, facebook);
    KeepAll(FinalColumns, apple.columns + google.columns + facebook.columns);
  }

  /**
   * `main()`: the App Store and Facebook frames of the package crawlers
   * around the Google Play frame, merged. The App Store frame alone has
   * every final column, so the result has exactly `FINAL_COLUMNS`; the
   * `country_of_residence` column of no crawler survives.
   */
  method CollectAndMerge(google: Frame, gAfterGoogle: Rng, today: int, g: Rng) returns (dfAll: Table)
    requires Valid(google.Value())
    ensures dfAll == MergeAll(
      Crawlers.PlatformTable("app_store", Crawlers.AppleStoreCount, today, g),
      google.Value(),
      Crawlers.PlatformTable("facebook", Crawlers.FacebookCount, today, gAfterGoogle))
    ensures dfAll.columns == FinalColumns
    ensures dfAll.height == 300 * 35 + google.height + 500 * 35
  {
    var dfAppstore, _ := Crawlers.CrawlAppleStore(today, g);
    var dfFacebook, _ := Crawlers.CrawlFacebook(today, gAfterGoogle);
    FinalColumnsCovered();
    BanksAllDistinct();
    MergeComplete(dfAppstore.Value(), google.Value(), dfFacebook.Value());
    MergeShape(dfAppstore.Value(), google.Value(), dfFacebook.Value());
    dfAll := MergeAll(dfAppstore.Value(), google.Value(), dfFacebook.Value());
  }

  /** Every final column is a review field, `data_source` or a feature column. */
  lemma FinalColumnsCovered()
    ensures forall c :: c in FinalColumns ==> c in ReviewColumns + [DataSourceColumn] + FeatureColumns
    ensures CountryColumn !in FinalColumns
  {
    assert ReviewColumns + [DataSourceColumn] + FeatureColumns == [
      "review_id", "date", "bank_name", "rating", "churn", "platform", "data_source",
      "sex", "age", "tenure", "credit_score", "balance",
      "products_number", "credit_card", "active_member"
    ];
  }
}
