/**
 * crawl_ggplay.py: for every bank of `BANKS_ALL`, in order, the Google Play
 * crawl `crawl_google_play_safe` with the package `BANK_APPS_GOOGLE.get(bank)`
 * as one frame; then `pd.concat` of the frames, one augmentation pass with
 * the country column, and the selection of `FINAL_COLUMNS`.
 *
 * As written, the script tags its fallback rows "google_play", the tag of
 * its live rows, so the two cannot be told apart downstream; unified_crawler.py
 * tags them "google_play_dummy". The per-bank records take the fallback tag
 * as a parameter: `CrawlGooglePlay` and `ProvenanceLost` are the script as
 * written, and `ProvenanceKept` is the corrected crawl with the distinguishing
 * tag.
 */
module PlayScript {
  import opened Wrappers
  import opened Seqs
  import opened Text
  import opened Rand
  import opened Reviews
  import opened Config
  import opened Synthetic
  import opened Frames
  import opened Features
  import opened PlayStore
  import Unified

  /** This script's `FINAL_COLUMNS`. */
  const PlayColumns: seq<string> := [
    "review_id", "date", "bank_name", "rating", "churn", "platform",
    "country_of_residence", "sex", "age", "tenure", "credit_score",
    "balance", "products_number", "credit_card", "active_member"
  ]

  /** The six review fields, the country and the eight profile columns, all distinct. */
  lemma PlayColumnsShape()
    ensures PlayColumns == ReviewColumns + AddedColumns(true)
    ensures Distinct(PlayColumns)
  {
    assert PlayColumns == Unified.ColumnOrder;
    Unified.ColumnOrderShape();
  }

  /**
   * The per-bank records of `banks`, in order, each crawl continuing the
   * generator; `google` is the package registry (`BANK_APPS_GOOGLE`).
   */
  function PlayParts(results: map<string, PlayFetch>, google: seq<(string, string)>, banks: seq<string>,
                     tag: string, today: int, g: Rng): (b: Batched)
    ensures |b.parts| == |banks|
  {
    if banks == [] then Batched([], g)
    else
      var prev := PlayParts(results, google, banks[..|banks| - 1], tag, today, g);
      var bank := banks[|banks| - 1];
      var appId := Get(google, bank);
      var r := PlayRun(appId, FetchOf(results, appId), bank, tag, today, prev.gen);
      Batched(prev.parts + [r.rows], r.gen)
  }

  /** The fallback tag of the corrected crawl, the one unified_crawler.py uses. */
  const CorrectedTag: string := Unified.GoogleDummyTag

  /**
   * The module-level script: the per-bank loop over `BANKS_ALL`,
   * `pd.concat(all_dfs)`, `add_synthetic_customer_features` and
   * `df_gp[FINAL_COLUMNS]`, which always succeeds and yields exactly those
   * columns. As written, fallback rows carry the live tag "google_play".
   */
  method CrawlGooglePlay(results: map<string, PlayFetch>, today: int, g: Rng) returns (out: Table, g': Rng)
    ensures (PlayColumnsShape();
      Select(Augmented(FromRecords(Flatten(PlayParts(results, BankAppsGoogle, BanksAll, LivePlatform, today, g).parts)), DefaultSeed, true), PlayColumns) == Some(out))
    ensures out.columns == PlayColumns
    ensures out.height == |Flatten(PlayParts(results, BankAppsGoogle, BanksAll, LivePlatform, today, g).parts)|
  {
    out, g' := PlayTable(results, BankAppsGoogle, BanksAll, LivePlatform, today, g);
  }

  /** The script's steps over any package registry `google`, any non-empty bank list `banks` and any fallback tag. */
  method PlayTable(results: map<string, PlayFetch>, google: seq<(string, string)>, banks: seq<string>, tag: string,
                   today: int, g: Rng) returns (out: Table, g': Rng)
    requires banks != []
    ensures (PlayColumnsShape();
      Select(Augmented(FromRecords(Flatten(PlayParts(results, google, banks, tag, today, g).parts)), DefaultSeed, true), PlayColumns) == Some(out))
    ensures out.columns == PlayColumns
    ensures out.height == |Flatten(PlayParts(results, google, banks, tag, today, g).parts)|
  {
    var allDfs := PlayFrames(results, google, banks, tag, today, g);
    ghost var parts := PlayParts(results, google, banks, tag, today, g).parts;
    PlayPartsShape(results, google, banks, tag, today, g);
    PlayPartFacts(results, google, banks, tag, today, g, 0);
    ConcatOfRecords(allDfs, parts);
    FlattenRecords(parts);
    var df := new Frame(ConcatAll(allDfs));
    g' := AddSyntheticCustomerFeatures(df, DefaultSeed, true);
    AugmentedRecords(Flatten(parts), DefaultSeed, true);
    PlayColumnsShape();
    var selected := Select(df.Value(), PlayColumns);
    out := selected.value;
  }

  /** `all_dfs`: one frame per bank of `banks`, built from that bank's records. */
  method PlayFrames(results: map<string, PlayFetch>, google: seq<(string, string)>, banks: seq<string>, tag: string,
                    today: int, g: Rng) returns (allDfs: seq<Table>)
    ensures |allDfs| == |banks|
    ensures forall p :: 0 <= p < |banks| ==> allDfs[p] == FromRecords(PlayParts(results, google, banks, tag, today, g).parts[p])
  {
    allDfs := [];
    var gen := g;
    ghost var parts: seq<seq<Review>> := [];
    for i := 0 to |banks|
      invariant Batched(parts, gen) == PlayParts(results, google, banks[..i], tag, today, g)
      invariant |allDfs| == |parts| == i
      invariant forall p :: 0 <= p < i ==> allDfs[p] == FromRecords(parts[p])
    {
      var bank := banks[i];
      var appId := Get(google, bank);
      var data;
      data, gen := CrawlPlay(appId, FetchOf(results, appId), bank, tag, today, gen);
      allDfs := allDfs + [FromRecords(data)];
      parts := parts + [data];
      assert banks[..i + 1][..i] == banks[..i];
    }
    assert banks[..|banks|] == banks;
  }

  /** Part `p` is the crawl of bank `p`, started where the crawl of the banks before it left the generator. */
  lemma {:induction false} PlayPartAt(results: map<string, PlayFetch>, google: seq<(string, string)>, banks: seq<string>,
                                      tag: string, today: int, g: Rng, p: nat)
    requires p < |banks|
    ensures var appId := Get(google, banks[p]);
      PlayParts(results, google, banks, tag, today, g).parts[p]
      == PlayRun(appId, FetchOf(results, appId), banks[p], tag, today, PlayParts(results, google, banks[..p], tag, today, g).gen).rows
  {
    var n := |banks|;
    if p < n - 1 {
      PlayPartAt(results, google, banks[..n - 1], tag, today, g, p);
      assert banks[..n - 1][..p] == banks[..p];
    } else {
      assert banks[..n - 1] == banks[..p];
    }
  }

  /**
   * Part `p` holds bank `p`'s records: non-empty, all naming the bank,
   * without `data_source`, each tagged "google_play" or with the fallback tag.
   */
  lemma PlayPartFacts(results: map<string, PlayFetch>, google: seq<(string, string)>, banks: seq<string>,
                      tag: string, today: int, g: Rng, p: nat)
    requires p < |banks|
    ensures var part := PlayParts(results, google, banks, tag, today, g).parts[p];
      && part != [] && !HasSource(part)
      && forall k :: 0 <= k < |part| ==>
           part[k].bankName == banks[p] && (part[k].platform == LivePlatform || part[k].platform == tag)
  {
    PlayPartAt(results, google, banks, tag, today, g, p);
    var bank := banks[p];
    var appId := Get(google, bank);
    var gen := PlayParts(results, google, banks[..p], tag, today, g).gen;
    NeverMixed(appId, FetchOf(results, appId), bank, tag, today, gen);
    RunHasNoSource(appId, FetchOf(results, appId), bank, tag, today, gen);
  }

  lemma PlayPartsShape(results: map<string, PlayFetch>, google: seq<(string, string)>, banks: seq<string>,
                       tag: string, today: int, g: Rng)
    ensures var parts := PlayParts(results, google, banks, tag, today, g).parts;
      forall p :: 0 <= p < |parts| ==> parts[p] != [] && !HasSource(parts[p]) && HasSource(parts[p]) == HasSource(parts[0])
  {
    var parts := PlayParts(results, google, banks, tag, today, g).parts;
    forall p | 0 <= p < |parts|
      ensures parts[p] != [] && !HasSource(parts[p])
    {
      PlayPartFacts(results, google, banks, tag, today, g, p);
    }
  }

  /**
   * A bank without a package in `BANK_APPS_GOOGLE` is never fetched: its
   * part is exactly 500 fallback rows with pairwise distinct ids
   * `GP_{BAN}_{i:04d}`, all carrying the fallback tag.
   */
  lemma NoPackageFallback(results: map<string, PlayFetch>, google: seq<(string, string)>, banks: seq<string>,
                          tag: string, today: int, g: Rng, p: nat)
    requires p < |banks| && banks[p] !in Keys(google)
    ensures var part := PlayParts(results, google, banks, tag, today, g).parts[p];
      && part == SyntheticRows(PlayDummy(banks[p], tag), FallbackCount, today, PlayParts(results, google, banks[..p], tag, today, g).gen)
      && |part| == 500 && DistinctIds(part)
      && forall k :: 0 <= k < |part| ==>
           part[k].platform == tag && part[k].reviewId == Some("GP_" + BankCode(banks[p]) + "_" + Digits(k, 4))
  {
    PlayPartAt(results, google, banks, tag, today, g, p);
    var gen := PlayParts(results, google, banks[..p], tag, today, g).gen;
    NoLiveFallback(None, Raised, banks[p], tag, today, gen);
  }

  /**
   * As written, provenance is lost: with the script's fallback tag
   * "google_play" every record of the crawl is tagged "google_play", so
   * live and fallback rows cannot be told apart by platform.
   */
  lemma ProvenanceLost(results: map<string, PlayFetch>, google: seq<(string, string)>, banks: seq<string>,
                       today: int, g: Rng, k: nat)
    requires k < |Flatten(PlayParts(results, google, banks, LivePlatform, today, g).parts)|
    ensures Flatten(PlayParts(results, google, banks, LivePlatform, today, g).parts)[k].platform == "google_play"
  {
    var parts := PlayParts(results, google, banks, LivePlatform, today, g).parts;
    var x := Flatten(parts)[k];
    FlattenMember(parts, x);
    var p :| 0 <= p < |parts| && x in parts[p];
    PlayPartFacts(results, google, banks, LivePlatform, today, g, p);
  }

  /**
   * With the corrected tag, a bank's part is tagged "google_play_dummy"
   * exactly when the scraper gave no live record for its package, and
   * "google_play" otherwise.
   */
  lemma ProvenanceKept(results: map<string, PlayFetch>, google: seq<(string, string)>, banks: seq<string>,
                       today: int, g: Rng, p: nat, k: nat)
    requires p < |banks| && k < |PlayParts(results, google, banks, CorrectedTag, today, g).parts[p]|
    ensures var appId := Get(google, banks[p]);
      var row := PlayParts(results, google, banks, CorrectedTag, today, g).parts[p][k];
      && (row.platform == "google_play_dummy" <==> LiveData(appId, FetchOf(results, appId), banks[p]) == [])
      && (row.platform == "google_play" <==> LiveData(appId, FetchOf(results, appId), banks[p]) != [])
  {
    PlayPartAt(results, google, banks, CorrectedTag, today, g, p);
    var appId := Get(google, banks[p]);
    var gen := PlayParts(results, google, banks[..p], CorrectedTag, today, g).gen;
    ProvenanceAuditable(appId, FetchOf(results, appId), banks[p], CorrectedTag, today, gen);
  }
}
