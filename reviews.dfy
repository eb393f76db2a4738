/**
 * The common review record every crawler and generator produces: the six
 * fields `review_id, date, bank_name, rating, churn, platform`, plus the
 * `data_source` field that only some generators set.
 */
module Reviews {
  import opened Wrappers

  /**
   * A review date: a calendar day (a `datetime` formatted with
   * `strftime("%Y-%m-%d")`, modelled by its day number), the raw text of a
   * feed label, or a missing date.
   */
  datatype Date = OnDay(day: int) | Label(text: string) | NoDate

  datatype Review = Review(
    reviewId: Option<string>,
    date: Date,
    bankName: string,
    rating: Option<int>,
    churn: int,
    platform: string,
    dataSource: Option<string>)

  const ReviewColumns: seq<string> := ["review_id", "date", "bank_name", "rating", "churn", "platform"]
  const DataSourceColumn: string := "data_source"

  /** Whether some record of a list sets `data_source`. */
  predicate HasSource(rows: seq<Review>)
  {
    exists k :: 0 <= k < |rows| && rows[k].dataSource.Some?
  }

  /** The churn threshold every synthetic path uses: churn iff rating <= 2. */
  const ChurnThreshold: int := 2

  /** `1 if rating <= threshold else 0`. */
  function ChurnFlag(rating: int, threshold: int): (c: int)
    ensures c == 0 || c == 1
    ensures c == 1 <==> rating <= threshold
  {
    if rating <= threshold then 1 else 0
  }
}
