/**
 * The App Store crawl of the script crawlers (`crawl_apple_store` in
 * unified_crawler.py, `crawl_apple_rss_safe` in crawl_appleplay.py): the
 * pages of an app's customer-review feed, each entry normalised to a review
 * record, and synthetic rows when the feed yields none.
 *
 * The network is a parameter: `feed[p - 1]` is the response to the request
 * for page `p` of the app's feed, one for each of the `pages` (ten) pages
 * the loop asks for. An exception anywhere inside one page's processing is
 * caught outside the page loop, so it ends the crawl and keeps the records
 * appended so far.
 */
module AppleFeed {
  import opened Wrappers
  import opened Text
  import opened Rand
  import opened Reviews
  import opened Synthetic

  /** The `im:rating` of a feed entry: missing, a label `int()` rejects, or a rating. */
  datatype RatingField = NoRating | Unparsable | Rated(value: int)

  /** A feed entry: its rating and the labels of its `id` and `updated` fields (None when missing). */
  datatype Entry = Entry(rating: RatingField, idLabel: Option<string>, updatedLabel: Option<string>)

  /**
   * `r.json().get("feed", {}).get("entry", [])`: a list of entries (empty when
   * either key is missing), some other JSON value, or a body that is not JSON.
   */
  datatype FeedBody = Entries(entries: seq<Entry>) | NotAList | Undecodable

  /** The response to one page request, or Unreachable when `requests.get` raises. */
  datatype Page = Page(status: int, body: FeedBody) | Unreachable

  const LivePlatform: string := "app_store"
  const DefaultPages: nat := 10
  const FallbackCount: nat := 300

  /** `if app_id:`: None and 0 are falsy. */
  predicate Truthy(appId: Option<int>)
  {
    appId.Some? && appId.value != 0
  }

  /** What one entry does: nothing, one record, or an exception. */
  datatype Outcome = Skip | Fail | Emit(row: Review)

  /**
   * One entry of the feed: skipped without `im:rating`; otherwise its rating
   * label is parsed, the id is the last `/`-segment of the id label, the date
   * the first ten characters of the updated label, and churn is set for
   * ratings up to `threshold`. A bad label or a missing field raises.
   */
  function Normalise(e: Entry, bank: string, threshold: int): (o: Outcome)
    ensures o.Skip? <==> e.rating.NoRating?
    ensures o.Fail? <==> e.rating.Unparsable? || (e.rating.Rated? && (e.idLabel.None? || e.updatedLabel.None?))
    ensures o.Emit? ==> LiveRow(o.row, bank, threshold)
  {
    match e.rating
    case NoRating => Skip
    case Unparsable => Fail
    case Rated(v) =>
      if e.idLabel.None? || e.updatedLabel.None? then Fail
      else Emit(LiveRecord(v, e.idLabel.value, e.updatedLabel.value, bank, threshold))
  }

  /** The record of an entry with rating `rating` and the given id and updated labels. */
  function LiveRecord(rating: int, idLabel: string, updatedLabel: string, bank: string, threshold: int): (r: Review)
    ensures LiveRow(r, bank, threshold) && r.rating == Some(rating)
  {
    var id := LastSegment(idLabel, '/');
    var day := Take(updatedLabel, 10);
    assert '/' !in id && |day| <= 10;
    Review(Some(id), Label(day), bank, Some(rating), ChurnFlag(rating, threshold), LivePlatform, None)
  }

  /**
   * The shape of every live record: the bank and the "app_store" tag, no
   * `data_source`, an id free of '/', a date label of at most ten
   * characters, and churn exactly for ratings up to `threshold`.
   */
  predicate LiveRow(r: Review, bank: string, threshold: int)
  {
    && r.bankName == bank && r.platform == LivePlatform && r.dataSource.None?
    && r.reviewId.Some? && '/' !in r.reviewId.value
    && r.date.Label? && |r.date.text| <= 10
    && r.rating.Some? && (r.churn == 0 || r.churn == 1)
    && (r.churn == 1 <==> r.rating.value <= threshold)
  }

  /** A kept entry's record takes its id, date and rating from the entry's labels. */
  lemma NormaliseFields(e: Entry, bank: string, threshold: int)
    requires Normalise(e, bank, threshold).Emit?
    ensures e.rating.Rated? && e.idLabel.Some? && e.updatedLabel.Some?
    ensures var r := Normalise(e, bank, threshold).row;
      && r.reviewId == Some(LastSegment(e.idLabel.value, '/'))
      && r.date == Label(Take(e.updatedLabel.value, 10))
      && r.rating == Some(e.rating.value)
  {
  }

  /** The records collected so far and whether an exception or a `break` ended the crawl. */
  datatype Scan = Scan(rows: seq<Review>, stopped: bool)

  /** `s` followed by `t`, unless `s` already ended the crawl. */
  function Then(s: Scan, t: Scan): Scan
  {
    if s.stopped then s else Scan(s.rows + t.rows, t.stopped)
  }

  function Step(e: Entry, bank: string, threshold: int): Scan
  {
    match Normalise(e, bank, threshold)
    case Skip => Scan([], false)
    case Fail => Scan([], true)
    case Emit(r) => Scan([r], false)
  }

  /** The entries of one page, in order, up to the first that raises. */
  function ScanEntries(es: seq<Entry>, bank: string, threshold: int): Scan
  {
    if es == [] then Scan([], false)
    else Then(ScanEntries(es[..|es| - 1], bank, threshold), Step(es[|es| - 1], bank, threshold))
  }

  /**
   * One page: a failed request, a status other than 200 or a body that is
   * not JSON ends the crawl; a non-list `entry` field skips the page.
   */
  function PageScan(p: Page, bank: string, threshold: int): Scan
  {
    if p.Unreachable? || p.status != 200 then Scan([], true)
    else match p.body
      case Undecodable => Scan([], true)
      case NotAList => Scan([], false)
      case Entries(es) => ScanEntries(es, bank, threshold)
  }

  /** The pages of `feed`, in order, until one ends the crawl. */
  function ScanPages(feed: seq<Page>, bank: string, threshold: int): Scan
  {
    if feed == [] then Scan([], false)
    else Then(ScanPages(feed[..|feed| - 1], bank, threshold), PageScan(feed[|feed| - 1], bank, threshold))
  }

  /** The responses a network gives for an app's feed: none for an app it does not know. */
  function FeedOf(feeds: map<int, seq<Page>>, appId: Option<int>): seq<Page>
  {
    if appId.Some? && appId.value in feeds then feeds[appId.value] else []
  }

  /** The live records: none without a truthy app id, whose feed is then never requested. */
  function LiveData(appId: Option<int>, feed: seq<Page>, bank: string, threshold: int): seq<Review>
  {
    if Truthy(appId) then ScanPages(feed, bank, threshold).rows else []
  }

  /** The crawl's result: the live records, or the `dummy` recipe's rows when there are none. */
  function AppleRun(appId: Option<int>, feed: seq<Page>, bank: string, threshold: int,
                    dummy: Recipe, today: int, g: Rng): Run
    requires ValidRecipe(dummy)
  {
    var live := LiveData(appId, feed, bank, threshold);
    if live == [] then Run(SyntheticRows(dummy, FallbackCount, today, g), Advance(g, 2 * FallbackCount))
    else Run(live, g)
  }

  /**
   * The crawl: the page loop with its entry loop, then the fallback. The
   * dummy recipe carries the copy's id scheme, weights and platform tag.
   */
  method CrawlApple(appId: Option<int>, feed: seq<Page>, bank: string, threshold: int,
                    dummy: Recipe, today: int, g: Rng) returns (data: seq<Review>, g': Rng)
    requires ValidRecipe(dummy)
    ensures Run(data, g') == AppleRun(appId, feed, bank, threshold, dummy, today, g)
  {
    data := [];
    if appId.Some? && appId.value != 0 {
      data := ReadPages(feed, bank, threshold);
    }
    if |data| == 0 {
      data, g' := Synthesize(dummy, FallbackCount, today, g);
    } else {
      g' := g;
    }
  }

  /** `for page in range(1, pages + 1)`, with the `break`s of the loop and of its `except`. */
  method ReadPages(feed: seq<Page>, bank: string, threshold: int) returns (data: seq<Review>)
    ensures data == ScanPages(feed, bank, threshold).rows
  {
    data := [];
    var page := 1;
    while page <= |feed|
      invariant 1 <= page <= |feed| + 1
      invariant ScanPages(feed[..page - 1], bank, threshold) == Scan(data, false)
    {
      var r := feed[page - 1];
      ghost var prev := ScanPages(feed[..page - 1], bank, threshold);
      assert feed[..page][..page - 1] == feed[..page - 1];
      assert ScanPages(feed[..page], bank, threshold) == Then(prev, PageScan(r, bank, threshold));
      if r.Unreachable? || r.status != 200 || r.body.Undecodable? {
        PagesFinal(feed, page, bank, threshold);
        return;
      }
      if r.body.NotAList? {
        assert PageScan(r, bank, threshold) == Scan([], false);
        assert data + [] == data;
        page := page + 1;
        continue;
      }
      var failed;
      assert PageScan(r, bank, threshold) == ScanEntries(r.body.entries, bank, threshold);
      data, failed := ReadEntries(r.body.entries, bank, threshold, data);
      if failed {
        PagesFinal(feed, page, bank, threshold);
        return;
      }
      page := page + 1;
    }
    assert feed[..page - 1] == feed;
  }

  /**
   * `for e in entries`: append the record of every kept entry to `data`;
   * `failed` when an entry raised, which leaves the records before it.
   */
  method ReadEntries(entries: seq<Entry>, bank: string, threshold: int, data: seq<Review>)
    returns (data': seq<Review>, failed: bool)
    ensures Scan(data', failed) == Then(Scan(data, false), ScanEntries(entries, bank, threshold))
  {
    data' := data;
    failed := false;
    var i := 0;
    while i < |entries|
      invariant 0 <= i <= |entries|
      invariant Then(Scan(data, false), ScanEntries(entries[..i], bank, threshold)) == Scan(data', false)
    {
      var e := entries[i];
      EntryStep(data, data', entries, i, bank, threshold);
      if e.rating.NoRating? {
        i := i + 1;
        continue;
      }
      if e.rating.Unparsable? || e.idLabel.None? || e.updatedLabel.None? {
        failed := true;
        ScanEntriesStopped(entries, i + 1, bank, threshold);
        return;
      }
      data' := data' + [LiveRecord(e.rating.value, e.idLabel.value, e.updatedLabel.value, bank, threshold)];
      i := i + 1;
    }
    assert entries[..i] == entries;
  }

  /** Reading entry `i` after the records `data'` gathered from the entries before it. */
  lemma EntryStep(data: seq<Review>, data': seq<Review>, entries: seq<Entry>, i: nat, bank: string, threshold: int)
    requires i < |entries|
    requires Then(Scan(data, false), ScanEntries(entries[..i], bank, threshold)) == Scan(data', false)
    ensures Then(Scan(data, false), ScanEntries(entries[..i + 1], bank, threshold))
         == Scan(data' + Step(entries[i], bank, threshold).rows, Step(entries[i], bank, threshold).stopped)
  {
    assert entries[..i + 1][..i] == entries[..i];
    var prev := ScanEntries(entries[..i], bank, threshold);
    assert ScanEntries(entries[..i + 1], bank, threshold) == Then(prev, Step(entries[i], bank, threshold));
    assert data' == data + prev.rows;
    assert data + (prev.rows + Step(entries[i], bank, threshold).rows) == data' + Step(entries[i], bank, threshold).rows;
  }

  /** Once a prefix of the entries ends the crawl, the rest are not read. */
  lemma {:induction false} ScanEntriesStopped(es: seq<Entry>, i: nat, bank: string, threshold: int)
    requires i <= |es| && ScanEntries(es[..i], bank, threshold).stopped
    ensures ScanEntries(es, bank, threshold) == ScanEntries(es[..i], bank, threshold)
    decreases |es| - i
  {
    if i < |es| {
      var n := |es|;
      assert es[..n - 1][..i] == es[..i];
      ScanEntriesStopped(es[..n - 1], i, bank, threshold);
    } else {
      assert es[..i] == es;
    }
  }

  /** Once the first `p` pages end the crawl, no later page is requested. */
  lemma {:induction false} PagesFinal(feed: seq<Page>, p: nat, bank: string, threshold: int)
    requires p <= |feed| && ScanPages(feed[..p], bank, threshold).stopped
    ensures ScanPages(feed, bank, threshold) == ScanPages(feed[..p], bank, threshold)
    decreases |feed| - p
  {
    if p < |feed| {
      var n := |feed|;
      assert feed[..n - 1][..p] == feed[..p];
      PagesFinal(feed[..n - 1], p, bank, threshold);
    } else {
      assert feed[..p] == feed;
    }
  }

  lemma ThenAssoc(a: Scan, b: Scan, c: Scan)
    ensures Then(Then(a, b), c) == Then(a, Then(b, c))
  {
    if !a.stopped && !b.stopped {
      assert (a.rows + b.rows) + c.rows == a.rows + (b.rows + c.rows);
    }
  }

  /** Scanning `a + b` is scanning `a`, then `b` unless `a` raised. */
  lemma {:induction false} ScanAppend(a: seq<Entry>, b: seq<Entry>, bank: string, threshold: int)
    ensures ScanEntries(a + b, bank, threshold) == Then(ScanEntries(a, bank, threshold), ScanEntries(b, bank, threshold))
    decreases |b|
  {
    var sa := ScanEntries(a, bank, threshold);
    if b == [] {
      assert a + b == a;
      if !sa.stopped {
        assert sa.rows + [] == sa.rows;
      }
    } else {
      var n := |b|;
      var init := b[..n - 1];
      assert (a + b)[..|a + b| - 1] == a + init;
      assert (a + b)[|a + b| - 1] == b[n - 1];
      ScanAppend(a, init, bank, threshold);
      ThenAssoc(sa, ScanEntries(init, bank, threshold), Step(b[n - 1], bank, threshold));
    }
  }

  /** An entry without `im:rating` is skipped on its own: the entries around it are read as if it were absent. */
  lemma SkippedEntry(a: seq<Entry>, e: Entry, b: seq<Entry>, bank: string, threshold: int)
    requires e.rating.NoRating?
    ensures ScanEntries(a + [e] + b, bank, threshold) == ScanEntries(a + b, bank, threshold)
  {
    ScanAppend(a + [e], b, bank, threshold);
    ScanAppend(a, [e], bank, threshold);
    ScanAppend(a, b, bank, threshold);
    var sa := ScanEntries(a, bank, threshold);
    assert ScanEntries([e], bank, threshold) == Then(Scan([], false), Scan([], false));
    if !sa.stopped {
      assert sa.rows + [] == sa.rows;
    }
  }

  /** An entry that raises ends the crawl: the records before it stay, those after it are never read. */
  lemma RaisingEntry(a: seq<Entry>, e: Entry, b: seq<Entry>, bank: string, threshold: int)
    requires Normalise(e, bank, threshold).Fail?
    ensures ScanEntries(a + [e] + b, bank, threshold) == Scan(ScanEntries(a, bank, threshold).rows, true)
  {
    ScanAppend(a + [e], b, bank, threshold);
    ScanAppend(a, [e], bank, threshold);
    var sa := ScanEntries(a, bank, threshold);
    assert ScanEntries([e], bank, threshold) == Then(Scan([], false), Scan([], true));
    if !sa.stopped {
      assert sa.rows + [] == sa.rows;
    }
  }

  /** All records of a scan are well-formed live records. */
  predicate AllLive(s: Scan, bank: string, threshold: int)
  {
    forall k :: 0 <= k < |s.rows| ==> LiveRow(s.rows[k], bank, threshold)
  }

  lemma ThenLive(s: Scan, t: Scan, bank: string, threshold: int)
    requires AllLive(s, bank, threshold) && AllLive(t, bank, threshold)
    ensures AllLive(Then(s, t), bank, threshold)
  {
    if !s.stopped {
      var rows := s.rows + t.rows;
      forall k | 0 <= k < |rows| ensures LiveRow(rows[k], bank, threshold) {
        if k >= |s.rows| {
          assert rows[k] == t.rows[k - |s.rows|];
        }
      }
    }
  }

  /** Every record of a page is a well-formed live record, and a page yields at most one per entry. */
  lemma {:induction false} ScanEntriesLive(es: seq<Entry>, bank: string, threshold: int)
    ensures |ScanEntries(es, bank, threshold).rows| <= |es|
    ensures AllLive(ScanEntries(es, bank, threshold), bank, threshold)
  {
    if es != [] {
      var init := es[..|es| - 1];
      ScanEntriesLive(init, bank, threshold);
      var st := Step(es[|es| - 1], bank, threshold);
      assert |st.rows| <= 1 && AllLive(st, bank, threshold);
      ThenLive(ScanEntries(init, bank, threshold), st, bank, threshold);
    }
  }

  lemma PageScanLive(p: Page, bank: string, threshold: int)
    ensures AllLive(PageScan(p, bank, threshold), bank, threshold)
  {
    if p.Page? && p.status == 200 && p.body.Entries? {
      ScanEntriesLive(p.body.entries, bank, threshold);
    }
  }

  /** Every record the pages yield is a well-formed live record. */
  lemma {:induction false} ScanPagesLive(feed: seq<Page>, bank: string, threshold: int)
    ensures AllLive(ScanPages(feed, bank, threshold), bank, threshold)
  {
    if feed != [] {
      var init := feed[..|feed| - 1];
      ScanPagesLive(init, bank, threshold);
      PageScanLive(feed[|feed| - 1], bank, threshold);
      var x := ScanPages(init, bank, threshold);
      var y := PageScan(feed[|feed| - 1], bank, threshold);
      ThenLive(x, y, bank, threshold);
      assert ScanPages(feed, bank, threshold) == Then(x, y);
    }
  }

  /**
   * A failed request, a status other than 200 or a body that is not JSON at
   * page `p` ends pagination: the records are those of the pages before it.
   */
  lemma PageStops(feed: seq<Page>, p: nat, bank: string, threshold: int)
    requires 1 <= p <= |feed|
    requires feed[p - 1].Unreachable? || feed[p - 1].status != 200 || feed[p - 1].body.Undecodable?
    ensures ScanPages(feed, bank, threshold).stopped
    ensures ScanPages(feed, bank, threshold).rows == ScanPages(feed[..p - 1], bank, threshold).rows
  {
    var prev := ScanPages(feed[..p - 1], bank, threshold);
    assert feed[..p][..p - 1] == feed[..p - 1];
    assert ScanPages(feed[..p], bank, threshold) == Then(prev, Scan([], true));
    if !prev.stopped {
      assert prev.rows + [] == prev.rows;
    }
    PagesFinal(feed, p, bank, threshold);
  }

  /** A page whose `entry` field is not a list adds nothing, and pagination goes on. */
  lemma NotAListSkipped(feed: seq<Page>, p: nat, bank: string, threshold: int)
    requires 1 <= p <= |feed| && feed[p - 1] == Page(200, NotAList)
    ensures ScanPages(feed[..p], bank, threshold) == ScanPages(feed[..p - 1], bank, threshold)
  {
    var prev := ScanPages(feed[..p - 1], bank, threshold);
    assert feed[..p][..p - 1] == feed[..p - 1];
    if !prev.stopped {
      assert prev.rows + [] == prev.rows;
    }
  }

  /** Without a truthy app id nothing is fetched and the result is the `dummy` recipe's 300 rows. */
  lemma FalsyIdFallback(appId: Option<int>, feed: seq<Page>, bank: string, threshold: int,
                        dummy: Recipe, today: int, g: Rng)
    requires ValidRecipe(dummy) && !Truthy(appId)
    ensures var run := AppleRun(appId, feed, bank, threshold, dummy, today, g);
      && run.rows == SyntheticRows(dummy, FallbackCount, today, g)
      && |run.rows| == 300
      && forall k :: 0 <= k < |run.rows| ==> run.rows[k].platform == dummy.platform
  {
  }

  /**
   * Live and synthetic records are never mixed: the result is either all
   * live records, or exactly the `dummy` recipe's rows. Either way it is
   * non-empty.
   */
  lemma NeverMixed(appId: Option<int>, feed: seq<Page>, bank: string, threshold: int,
                   dummy: Recipe, today: int, g: Rng)
    requires ValidRecipe(dummy)
    ensures var run := AppleRun(appId, feed, bank, threshold, dummy, today, g);
      && run.rows != []
      && (|| (AllLive(Scan(run.rows, false), bank, threshold) && run.gen == g)
          || (run.rows == SyntheticRows(dummy, FallbackCount, today, g) && run.gen == Advance(g, 2 * FallbackCount)))
  {
    if Truthy(appId) {
      ScanPagesLive(feed, bank, threshold);
    }
  }

  /** Neither live rows nor a fallback without `data_source` set the field. */
  lemma RunHasNoSource(appId: Option<int>, feed: seq<Page>, bank: string, threshold: int,
                       dummy: Recipe, today: int, g: Rng)
    requires ValidRecipe(dummy) && dummy.dataSource.None?
    ensures var run := AppleRun(appId, feed, bank, threshold, dummy, today, g);
      run.rows != [] && !HasSource(run.rows)
  {
    NeverMixed(appId, feed, bank, threshold, dummy, today, g);
    var rows := AppleRun(appId, feed, bank, threshold, dummy, today, g).rows;
    forall k | 0 <= k < |rows| ensures rows[k].dataSource.None? {
      if !AllLive(Scan(rows, false), bank, threshold) {
        assert rows[k] == SyntheticRow(dummy, today, g, k);
      }
    }
  }
}
