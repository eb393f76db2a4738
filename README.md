# Bank review pipeline: a Dafny model

This project models the record pipeline of a small Python crawler that collects
customer reviews of Vietnamese banking apps. The pipeline has four parts:

- **Synthetic review generator** (`generate_dummy_reviews` and its copies). It
  builds `count` records for one bank. Each record gets a rating drawn by weight
  from 1..5, the churn flag derived from that rating, a date within the last
  `days_back` days, and an id such as `FA_VIE_0007`.
- **App Store and Google Play crawls**. A live entry is normalised into a record,
  pagination stops early on failures, and when no live record was collected the
  crawl falls back to synthetic rows with a provenance tag.
- **Customer-feature augmenter** (`add_synthetic_customer_features`). It reseeds
  the generator and assigns eight profile columns in place (`sex`, `age`,
  `tenure`, `credit_score`, `balance`, `products_number`, `credit_card`,
  `active_member`). The script copies also assign a constant
  `country_of_residence` column first.
- **Orchestration**. Per-bank batches are concatenated in registry order and
  augmented once. The columns are then selected: `column_order` or
  `FINAL_COLUMNS` in the scripts, and in `crawl/main.py` the entries of
  `FINAL_COLUMNS` that are present.

Modules, leaves first:

- `Wrappers`, `Text`, `Seqs`: Python's `None`, string slicing and `upper()`,
  `split("/")[-1]`, `{i:04d}`, dict lookup in insertion order, and the
  order-preserving list filter.
- `Rand`: the global generator as an explicit value. `random.seed`,
  `random.randint` and `random.choices` become functions of the generator state
  with range contracts. Each draw steps the state once.
- `Reviews`: the record type and the churn rule.
- `Frames`: a DataFrame as ordered named columns. It covers
  `pd.DataFrame(records)`, `pd.concat`, `df[cols]` and `df[name] = values`.
  The `Frame` class is the in-place version the augmenter mutates.
- `Config`: crawl/config.py.
- `Synthetic`: one generator loop, parameterised by a recipe (id scheme,
  weights, window, platform tag, `data_source`). Every copy in the source is one
  instantiation of it.
- `Generators`: crawl/utils/generators.py.
- `Features`: crawl/utils/features.py and its four copies.
- `AppleFeed`, `PlayStore`: the live crawls of the scripts, with the network as
  input.
- `AppleScript`, `PlayScript`, `FacebookScript`, `Unified`: the four stand-alone
  scripts.
- `Crawlers`, `Merge`: the crawl/crawlers package and crawl/main.py.

Behaviour of the code that a reader might not expect, and that the model keeps:

- App Store pagination does not stop at an empty page. An empty entry list adds
  nothing, and the loop goes on to the next page.
- The augmenter copies in the stand-alone scripts assign a ninth column,
  `country_of_residence`, before the eight profile columns.
- `data_source` is set by some generators only. generators.py and
  crawl_facebook.py set it to "synthetic". unified_crawler.py and the live and
  fallback paths of the crawl scripts leave it out.
- crawl_appleplay.py's live rows churn for ratings up to 1, while its fallback
  rows and every other path use 2. crawl_ggplay.py's fallback tag equals its
  live tag. Both are modelled as written, next to a corrected version (see
  Findings).
- Synthetic Facebook ids disagree between copies. crawl_facebook.py and
  unified_crawler.py write `FB_`. generators.py derives `FA_` from
  `"facebook"[:2].upper()`, which is what crawl/crawlers/facebook.py produces.
  Both are modelled, and `FacebookScript.IdSchemesDiverge` states the difference.

## Model

| member | source | states |
|---|---|---|
| Reviews.ChurnFlag | crawl/utils/generators.py:50 | churn is 0 or 1, and 1 exactly when the rating is at most the threshold |
| Text.Take | unified_crawler.py:82 | `s[:n]` is the first min(n, len(s)) characters of `s` |
| Text.UpperChar | crawl/utils/generators.py:45-46 | a lower-case ASCII letter becomes the capital of the same letter; every other character is kept; no lower-case letter comes out |
| Text.Upper | crawl/utils/generators.py:45-46 | `s.upper()` keeps the length and upper-cases each character in place |
| Text.UpperIdempotent | crawl/utils/generators.py:45-46 | upper-casing twice is upper-casing once |
| Text.LastSegmentSuffix | unified_crawler.py:81 | `split("/")[-1]` is a suffix of the label; it is the whole label or is preceded by a `/` |
| Text.LastSegment | unified_crawler.py:81 | the last `/`-segment holds no `/` |
| Text.DigitsInjective | crawl/utils/generators.py:53 | two different indices never print the same under `{i:04d}` (or `{i}`) |
| Text.DigitsWidth | crawl/utils/generators.py:53 | an index below 10000 prints as exactly four digits under `{i:04d}` |
| Text.DigitsRead | crawl/utils/generators.py:53 | the digits printed for i under `{i:04d}` (or `{i}`) read back as i |
| Rand.RandInt | crawl/utils/generators.py:54 | `random.randint(lo, hi)` lies in the closed range [lo, hi] |
| Rand.Choice | crawl/utils/generators.py:49 | `random.choices` picks an index of the population, never one of weight 0 |
| Synthetic.BankCode | crawl/utils/generators.py:46 | the bank code is the first min(3, len(bank)) characters of the name, each upper-cased |
| Synthetic.SyntheticRow | crawl/utils/generators.py:48-60 | row i: rating in 1..5 and of positive weight; churn 1 iff rating <= 2; date within [today - days_back, today]; id from the scheme and index i; bank, platform and data_source from the call |
| Synthetic.SyntheticRows | crawl/utils/generators.py:48-60 | exactly `count` rows, row i being row i of the generator |
| Synthetic.Synthesize | crawl/utils/generators.py:43-60 | the loop appends exactly those `count` rows in index order and uses two draws per row |
| Synthetic.SyntheticIdsDistinct | crawl/utils/generators.py:45-53 | within one scheme and bank, different indices give different ids |
| Synthetic.SyntheticRowsDistinctIds | crawl/utils/generators.py:48-53 | the ids of one call are pairwise distinct |
| Synthetic.SyntheticHasSource | crawl/utils/generators.py:59 | a non-empty call has a `data_source` field exactly when its recipe sets one |
| Synthetic.Batches | crawl/crawlers/applestore.py:33-36 | one batch per bank in list order; each continues the generator where the previous batch left it |
| Synthetic.BatchStep | crawl/crawlers/applestore.py:33-36 | batch b starts where batch b - 1 stopped and hands the generator on to batch b + 1 |
| Synthetic.BatchRow | crawl/crawlers/applestore.py:33-38 | row j of bank b sits at b * count + j of the concatenation and comes from bank b's recipe |
| Generators.DefaultRecipeValid | crawl/utils/generators.py:40-41 | missing weights default to [12, 13, 25, 25, 25], and the recipe is drawable |
| Generators.GenerateDummyReviews | crawl/utils/generators.py:12-62 | the frame of the `count` generated rows; the weights used are the given ones or RATING_WEIGHTS; the generator advances by two draws per row |
| Generators.DummyRow | crawl/utils/generators.py:45-59 | row i has id `upper(platform[:2]) + "_" + upper(bank[:3]) + "_" + pad4(i)`, exactly four digits below 10000, the call's bank and platform, and `data_source = "synthetic"` |
| Generators.DummyFrameShape | crawl/utils/generators.py:62 | the frame has `count` rows; a non-empty one has the six review columns then `data_source`; an empty one has no columns |
| Config.BanksAllDistinct | crawl/config.py:11-54 | BANKS_ALL has 35 pairwise distinct names |
| Config.IosRegistryCoversBanks | crawl/config.py:60-103 | BANK_APPS_IOS has the banks of BANKS_ALL as keys, in order; exactly five (listed) map to None |
| Config.GoogleRegistryWithinBanks | crawl/config.py:109-120 | BANK_APPS_GOOGLE has 10 distinct keys, all in BANKS_ALL |
| Config.RatingWeightsPositive | crawl/config.py:126 | RATING_WEIGHTS has five positive weights |
| Config.FinalColumnsShape | crawl/config.py:138-154 | FINAL_COLUMNS has 15 distinct names; it starts with the six review fields and ends with `data_source` |
| Frames.FromRecords | crawl/utils/generators.py:62 | `pd.DataFrame(records)`: one row per record in order; columns are the record keys in first-seen order |
| Frames.Concat | crawl/crawlers/applestore.py:38 | `pd.concat`: rows of the first frame then the second; columns of the first then the new ones of the second; NaN where absent |
| Frames.ConcatRecords | crawl/crawlers/applestore.py:38 | concatenating the frames of two non-empty record lists with the same keys is the frame of both lists |
| Frames.ConcatOfRecords | crawl_appleplay.py:172-179 | concatenating the per-bank frames is the frame of all records, in bank order |
| Frames.Select | crawl_ggplay.py:138 | `df[cols]` succeeds exactly when every column exists; it yields those columns in that order, cells unchanged |
| Frames.Project | crawl/main.py:39-40 | the kept columns are those of `wanted` that the frame has, in `wanted` order, cells unchanged; absent ones are omitted and others dropped |
| Frames.ProjectIdempotent | crawl/main.py:39-40 | projecting a second time changes nothing |
| Frames.SetColumn | crawl/utils/features.py:40-44 | `df[name] = values` replaces or appends that column only; every other column is unchanged |
| Frames.Frame.Assign | crawl/utils/features.py:45 | assigning a column in place gives the frame `SetColumn` describes |
| Features.ProfileAt | crawl/utils/features.py:40-65 | one row's profile is plausible: sex Male/Female, age 18..70, 0 <= tenure <= min(20, age - 18) for the same row's age, credit_score 300..850, balance 0..2e9, products 1..5, card and active flags 0/1 |
| Features.Profiles | crawl/utils/features.py:36-65 | n profiles, all plausible, as a function of the seed and n alone |
| Features.AugmentedCells | crawl/utils/features.py:36-65 | after augmenting, columns outside the assigned ones are unchanged; each feature column holds the profile values; the country column (script copies) reads "Vietnam" on every row |
| Features.AugmentedColumns | crawl/utils/features.py:40-65 | a frame without the assigned columns gets them appended in assignment order, and the row count is unchanged |
| Features.AugmentReproducible | crawl/utils/features.py:36-37 | two frames of the same height augmented with the same seed get identical added columns, whatever their contents |
| Features.AugmentedRecords | crawl_appleplay.py:119-165 | a frame of records without `data_source` ends up with the six review fields then the added columns |
| Features.AugmentedSourcedRecords | crawl_facebook.py:35-81 | a frame of records with `data_source` ends up with the six review fields, `data_source`, then the added columns |
| Features.AddSyntheticCustomerFeatures | crawl/utils/features.py:36-67 | reseeds, then assigns the columns in place in source order (the country column first in the script copies); the result is `Augmented` of the old frame |
| Features.AssignDemographics | crawl/utils/features.py:40-49 | assigns `sex`, `age` and `tenure`, in that order |
| Features.AssignFinancialIndicators | crawl/utils/features.py:52-61 | assigns `credit_score`, `balance` and `products_number`, in that order |
| Features.AssignAccountStatus | crawl/utils/features.py:64-65 | assigns `credit_card` then `active_member` |
| AppleFeed.Normalise | unified_crawler.py:73-87 | an entry without `im:rating` is skipped; a bad rating label, or a missing id or updated field, raises; otherwise it becomes a live record |
| AppleFeed.LiveRecord | unified_crawler.py:77-87 | a live record carries the bank and the tag "app_store", no `data_source`, a '/'-free id and a date label of at most 10 characters; churn follows the threshold |
| AppleFeed.NormaliseFields | unified_crawler.py:77-82 | the id is the last `/`-segment of the id label, the date is the first 10 characters of the updated label, and the rating is the parsed rating label |
| AppleFeed.ReadEntries | unified_crawler.py:73-87 | the entry loop appends the records of the page's entries up to the first that raises, and reports whether one raised |
| AppleFeed.ReadPages | unified_crawler.py:62-89 | the page loop collects exactly the records `ScanPages` describes |
| AppleFeed.CrawlApple | unified_crawler.py:57-109 | the crawl returns the live records, or the fallback rows when there are none |
| AppleFeed.SkippedEntry | unified_crawler.py:73-75 | an entry without `im:rating` changes nothing: the rest of the page is read as if it were absent |
| AppleFeed.RaisingEntry | unified_crawler.py:77-89 | an entry that raises ends the crawl; earlier records stay, and later entries are never read |
| AppleFeed.ScanAppend | unified_crawler.py:73-87 | reading a + b is reading a, then reading b unless a raised |
| AppleFeed.ScanEntriesLive | unified_crawler.py:73-87 | a page yields at most one record per entry, each a well-formed live record |
| AppleFeed.ScanPagesLive | unified_crawler.py:62-89 | every record the pages yield is a well-formed live record |
| AppleFeed.PageStops | unified_crawler.py:64-68 | a failed request, a non-200 status or a body that is not JSON at page p stops pagination and keeps only the earlier pages' records |
| AppleFeed.NotAListSkipped | unified_crawler.py:69-71 | a page whose `entry` is not a list adds nothing, and pagination goes on |
| AppleFeed.FalsyIdFallback | unified_crawler.py:61-107 | without a truthy app id nothing is fetched; the result is exactly the 300 fallback rows with the fallback tag |
| AppleFeed.NeverMixed | unified_crawler.py:92-109 | the result is non-empty; it is either all live records or exactly the 300 fallback rows, never a mix |
| AppleFeed.RunHasNoSource | unified_crawler.py:80-107 | with a fallback that sets no `data_source`, no record sets one |
| PlayStore.PlayChurnAgrees | unified_crawler.py:137 | live churn is 1 iff the score is present, non-zero and <= 2; it agrees with the shared rule on non-zero scores |
| PlayStore.PlayRow | unified_crawler.py:129-139 | a live record takes its id and score from the item; a missing `at` gives a null date, otherwise the item's day |
| PlayStore.Readable | unified_crawler.py:128-141 | the items read are a prefix of the result, stopping exactly at the first item that raises |
| PlayStore.ReadItems | unified_crawler.py:128-139 | the item loop appends the record of every item read, in order |
| PlayStore.CrawlPlay | unified_crawler.py:114-160 | the crawl returns the live records, or the 500 fallback rows when there are none |
| PlayStore.NoLiveFallback | unified_crawler.py:144-158 | without a truthy package, or when the scraper raises: exactly 500 rows with the fallback tag and pairwise distinct ids `GP_{BAN}_{i:04d}` |
| PlayStore.NeverMixed | unified_crawler.py:144-160 | the result is non-empty; it is either the live records of the items read or exactly the fallback rows |
| PlayStore.RunHasNoSource | unified_crawler.py:132-158 | neither live nor fallback records set `data_source` |
| PlayStore.ProvenanceAuditable | unified_crawler.py:138-157 | with a fallback tag other than "google_play", a record carries the fallback tag exactly when no live record was read |
| PlayStore.ProvenanceLostRun | crawl_ggplay.py:82-104 | with "google_play" as the fallback tag, every record is tagged "google_play" |
| AppleScript.AsWrittenChurnSplit | crawl_appleplay.py:78-79 | as written, a live entry rated 2 gives churn 0, while the shared rule gives 1 |
| AppleScript.AsWrittenRegistrySplit | crawl_appleplay.py:172-177 | in the registry crawl as written, a Vietcombank feed of one entry rated 2 gives a first record rated 2 with churn 0 |
| AppleScript.ChurnUniform | crawl_appleplay.py:103 | with the corrected threshold, every record of the crawl, live or fallback, churns exactly when rated <= 2 |
| AppleScript.IosFrames | crawl_appleplay.py:172-177 | the loop builds one frame per bank of BANK_APPS_IOS, in order, from that bank's crawl with the given live churn threshold |
| AppleScript.IosPartAt | crawl_appleplay.py:174-177 | bank p's part is its `crawl_apple_rss_safe` run with the given live threshold, started where the earlier banks left the generator |
| AppleScript.PartFacts | crawl_appleplay.py:58-114 | each part is non-empty, names its bank and sets no `data_source`; it is either all live rows churning iff rating <= the live threshold (1 as written), or exactly its fallback rows |
| AppleScript.NoAppFallback | crawl_appleplay.py:93-112 | a bank whose id is None gets exactly 300 rows tagged "app_store_dummy" with ids `{BAN}_DUMMY_{i}`, whatever the live threshold |
| AppleScript.CrawlIos | crawl_appleplay.py:172-182 | the table is the augmented (once, seed 42, with country) frame of all parts concatenated in BANK_APPS_IOS order, each part crawled with the script's live threshold of 1 |
| PlayScript.PlayColumnsShape | crawl_ggplay.py:132-136 | the script's FINAL_COLUMNS are the six review fields, the country column and the eight profile columns, all distinct |
| PlayScript.PlayFrames | crawl_ggplay.py:116-120 | the loop builds one frame per bank of BANKS_ALL, in order, with the package from `BANK_APPS_GOOGLE.get` |
| PlayScript.PlayPartAt | crawl_ggplay.py:116-120 | bank p's part is its crawl, started where the earlier banks left the generator |
| PlayScript.PlayPartFacts | crawl_ggplay.py:59-107 | each part is non-empty, names its bank, sets no `data_source`, and is tagged live or fallback |
| PlayScript.NoPackageFallback | crawl_ggplay.py:89-118 | a bank missing from BANK_APPS_GOOGLE is never fetched; it gets exactly 500 rows with distinct ids `GP_{BAN}_{i:04d}` |
| PlayScript.PlayTable | crawl_ggplay.py:112-138 | the table is the augmented frame of all parts, selected to exactly FINAL_COLUMNS in order; the selection always succeeds |
| PlayScript.CrawlGooglePlay | crawl_ggplay.py:112-138 | that table for BANKS_ALL and BANK_APPS_GOOGLE, with fallback rows tagged "google_play" as the script writes them |
| PlayScript.ProvenanceLost | crawl_ggplay.py:104 | as written, every record of the crawl is tagged "google_play", so live and fallback rows cannot be told apart |
| PlayScript.ProvenanceKept | crawl_ggplay.py:82-104 | with the corrected tag, a bank's rows are tagged "google_play_dummy" exactly when no live record was read |
| FacebookScript.BanksFacebookIsBanksAll | crawl_facebook.py:86-127 | BANKS_FACEBOOK lists the 35 banks of BANKS_ALL in the same order |
| FacebookScript.FacebookDummy | crawl_facebook.py:8-28 | the recipe names the bank, the tag "facebook" and `data_source = "synthetic"` |
| FacebookScript.GenerateFacebookDummy | crawl_facebook.py:8-30 | the frame of exactly `how_many` generated rows; two draws per row |
| FacebookScript.FacebookFrames | crawl_facebook.py:129-133 | the loop builds one frame per bank, in list order, each continuing the generator |
| FacebookScript.FacebookBank | crawl_facebook.py:132-133 | one pass builds bank b's frame and hands the generator on |
| FacebookScript.FacebookTable | crawl_facebook.py:129-138 | 500 x (number of banks) rows, augmented once; columns are the review fields, `data_source`, then the added columns |
| FacebookScript.CrawlFacebookScript | crawl_facebook.py:129-138 | 17500 rows for BANKS_FACEBOOK, augmented once |
| FacebookScript.FacebookRow | crawl_facebook.py:12-27 | row j of bank b sits at b * 500 + j: bank b, tag "facebook", "synthetic", id `FB_{BAN}_{j:04d}`, rating 1..5 with churn iff <= 2, date within 30 days |
| FacebookScript.FacebookIdsDistinct | crawl_facebook.py:21 | the ids of one bank's 500 rows are pairwise distinct |
| FacebookScript.IdSchemesDiverge | crawl_facebook.py:21 | this script's ids start "FB_"; the package generator gives "FA_" for the same platform |
| Crawlers.BankRecipes | crawl/crawlers/applestore.py:33-35 | one `generate_dummy_reviews` recipe per bank of BANKS_ALL, in order, with default weights |
| Crawlers.BankFrames | crawl/crawlers/facebook.py:36-39 | the loop builds one frame per bank of BANKS_ALL, in order, each continuing the generator |
| Crawlers.PlatformRowsShape | crawl/crawlers/facebook.py:36-41 | count x 35 rows, all setting `data_source` |
| Crawlers.PlatformTable | crawl/crawlers/facebook.py:41-42 | the augmented table has as many rows as the concatenated batches |
| Crawlers.SyntheticPlatform | crawl/crawlers/applestore.py:31-41 | the table is the concatenated batches augmented once (no country column); count x 35 rows; columns are the review fields, `data_source`, then the eight features |
| Crawlers.CrawlAppleStore | crawl/crawlers/applestore.py:18-41 | 300 x 35 rows, platform "app_store", augmented once |
| Crawlers.CrawlFacebook | crawl/crawlers/facebook.py:18-44 | 500 x 35 rows, platform "facebook", augmented once |
| Crawlers.PlatformRow | crawl/crawlers/applestore.py:33-38 | row j of bank b sits at b * count + j: bank b, the platform, "synthetic", id `{PF}_{BAN}_{j:04d}`, rating 1..5 with churn iff <= 2, date within 30 days |
| Crawlers.PlatformPrefixes | crawl/crawlers/applestore.py:35 | the id prefixes are "AP" for "app_store" and "FA" for "facebook" |
| Merge.StackOfThree | crawl/main.py:33-36 | the stacked frame has the sum of the three row counts; its rows are the App Store rows, then Google Play, then Facebook; its columns are those of any frame |
| Merge.MergeShape | crawl/main.py:33-40 | the merged rows are those of the three frames in order; its columns are the FINAL_COLUMNS some frame has, in FINAL_COLUMNS order |
| Merge.MergeColumnsIff | crawl/main.py:39-40 | a column survives iff FINAL_COLUMNS names it and some frame has it; absent ones are omitted, others dropped |
| Merge.MergeIdempotent | crawl/main.py:39-40 | projecting the merged frame again changes nothing |
| Merge.MergeComplete | crawl/main.py:39-40 | when one frame has every final column, the output columns are exactly FINAL_COLUMNS |
| Merge.FinalColumnsCovered | crawl/config.py:138-154 | every final column is a review field, `data_source` or a feature column; `country_of_residence` is not one |
| Merge.CollectAndMerge | crawl/main.py:17-40 | `main()` yields exactly FINAL_COLUMNS and 10500 + (Google Play rows) + 17500 rows |
| Unified.BankAppsAgree | unified_crawler.py:15-52 | BANK_APPS names the banks of BANKS_ALL in order; its ids equal BANK_APPS_IOS and its packages equal `BANK_APPS_GOOGLE.get` |
| Unified.ColumnOrderShape | unified_crawler.py:244-248 | `column_order` is the six review fields, the country column and the eight profile columns, all distinct |
| Unified.CrawlFacebook | unified_crawler.py:165-183 | `how_many` Facebook rows with ids `FB_{BAN}_{i:04d}`; two draws per row |
| Unified.CrawlBank | unified_crawler.py:219-232 | one bank's records: its App Store crawl, then its Google Play crawl, then its Facebook rows |
| Unified.CollectReviews | unified_crawler.py:216-232 | `all_reviews` is the banks' records in BANK_APPS order, each bank continuing the generator |
| Unified.CrawlAllPlatforms | unified_crawler.py:208-251 | the table is the frame of all records augmented once (seed 42, with country) and selected to exactly `column_order`; the selection always succeeds |
| Unified.NoAppsBank | unified_crawler.py:92-181 | a bank with no ids gets 300 "app_store_dummy" rows with ids `{BAN}_IOS_DUMMY_{i}`, then 500 "google_play_dummy" rows with ids `GP_{BAN}_{i:04d}`, then 500 Facebook rows: 1300 rows, churn iff rating <= 2 |
| Unified.BankReviewsShape | unified_crawler.py:216-232 | one bank's records: at least 502, all naming the bank, no `data_source`, App Store then Google Play then Facebook |
| Unified.AllReviewsShape | unified_crawler.py:216-232 | all records: at least 502 per bank, grouped by bank in registry order, and by source within each bank |
| Unified.UnifiedOrder | unified_crawler.py:216-232 | for BANK_APPS: every record names a bank of BANKS_ALL; bank order follows BANKS_ALL; within a bank, App Store, then Google Play, then Facebook |

## Left out

- HTTP fetching (`requests.get`, status codes, `r.json()`) and `google_play_scraper.reviews` are inputs. An App Store feed is a list of page responses, and the Google Play scraper answer is a list of items or an exception.
- AppleFeed.CrawlApple: the number of pages requested (`pages=10`) is the length of the feed input, so the default of ten is not fixed by the model.
- PlayStore.CrawlPlay: `n_reviews=3000` is not modelled; the scraper's answer is taken as given.
- Python's Mersenne Twister, `random.seed` and `random.choices` are modelled only by determinism and ranges. The draw order (rating, then date offset, per row; one column after another in the augmenter) follows the source. The weight proportions and the concrete seeded values are not modelled, and neither is the statement that different seeds give different draws.
- Features.ProfileAt: `balance` is an integer in [0, 2e9], not the rounded float of `random.uniform`.
- Features.AddSyntheticCustomerFeatures: the integer weights [48, 52] and the fractional [0.48, 0.52] of the copies are the same distribution, so one table serves all copies.
- `datetime.now()`, `timedelta` and `strftime` are left out. A date is a day number, and `today` is a parameter. App Store dates stay the raw label text.
- `int(e["im:rating"]["label"])` is modelled as "a rating or a label that raises". The entry's JSON shape beyond the three fields is not modelled.
- Text.Upper: `str.upper()` is modelled on ASCII letters only. Unicode case mapping (such as 'ß' to "SS") is not kept; every bank and platform name the code upper-cases is ASCII.
- pandas mechanics are modelled only as far as column names, order, row count and cells. dtypes and NaN promotion to float are left out.
- CSV writing, `Path.mkdir`, and every `print` are left out, including the churn rate, average rating and per-platform counts.
- crawl/crawlers/googleplay.py is not part of this model. In `main()` its frame, and the generator state it leaves, are parameters.
- crawl/crawlers/__init__.py and crawl/utils/__init__.py only re-export names.
- crawl_appleplay.py's `BANK_APPS_IOS` and crawl_ggplay.py's `BANKS_ALL` and `BANK_APPS_GOOGLE` are identical to the ones in crawl/config.py, and the `Config` constants stand for them. `BANK_APPS` in unified_crawler.py and `BANKS_FACEBOOK` in crawl_facebook.py are written out, and `Unified.BankAppsAgree` and `FacebookScript.BanksFacebookIsBanksAll` prove them equal to the config registries.
- Generators.GenerateDummyReviews: the precondition admits only a missing `rating_weights` or five non-negative weights with a positive total. `random.choices` raises ValueError on a wrong length or a zero total, and that error path is not modelled. Negative weights, which CPython accepts, are excluded too. No caller passes weights (crawl/crawlers/applestore.py:35, crawl/crawlers/facebook.py:38).

## Findings

| source | as written | input that shows it | evidently intended | confidence | as-written member | corrected member |
|---|---|---|---|---|---|---|
| crawl_appleplay.py:79 | live App Store rows churn when `rating <= 1` | a feed page with one entry rated 2 gives a row with churn 0, while a fallback row rated 2 of the same function has churn 1 | `rating <= 2`, as in the fallback at crawl_appleplay.py:103 and every other path | high; not executed | AppleScript.AsWrittenRegistrySplit | AppleScript.ChurnUniform |
| crawl_ggplay.py:104 | fallback rows are tagged "google_play", the live tag | any bank missing from BANK_APPS_GOOGLE (e.g. SHB) gets 500 synthetic rows tagged "google_play", indistinguishable from live rows | a distinct tag, "google_play_dummy", as at unified_crawler.py:157 | medium; not executed | PlayScript.ProvenanceLost | PlayScript.ProvenanceKept |
