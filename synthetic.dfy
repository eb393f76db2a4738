/**
 * The synthetic review generator every crawler falls back on: `count`
 * records for one bank, each with a rating drawn by weight from 1..5, the
 * churn flag derived from it, a date drawn uniformly from the last
 * `daysBack` days, and a formatted review id.
 *
 * The copies differ only in their recipe: the id scheme, the weights, the
 * platform tag and whether a `data_source` field is set.
 */
module Synthetic {
  import opened Wrappers
  import opened Seqs
  import opened Text
  import opened Rand
  import opened Reviews

  /** The records one crawl returns and the generator state it leaves behind. */
  datatype Run = Run(rows: seq<Review>, gen: Rng)

  /** The records of a per-bank loop, one batch per bank in loop order, and the generator after it. */
  datatype Batched = Batched(parts: seq<seq<Review>>, gen: Rng)

  /** A review id `head + BAN + mid + i`, the index printed with `width` digits. */
  datatype IdScheme = IdScheme(head: string, mid: string, width: nat)

  /** `bank_name[:3].upper()`: the first three characters of the name (fewer if it is shorter), upper-cased. */
  function BankCode(bank: string): (code: string)
    ensures |code| == Min(3, |bank|)
    ensures forall k :: 0 <= k < |code| ==> code[k] == UpperChar(bank[k])
  {
    Upper(Take(bank, 3))
  }

  function SyntheticId(s: IdScheme, bank: string, i: nat): string
  {
    s.head + BankCode(bank) + s.mid + Digits(i, s.width)
  }

  datatype Recipe = Recipe(
    bank: string,
    platform: string,
    ids: IdScheme,
    weights: seq<int>,
    daysBack: nat,
    dataSource: Option<string>)

  /** `random.choices([1, 2, 3, 4, 5], weights=w)` needs five usable weights. */
  predicate ValidRecipe(r: Recipe)
  {
    |r.weights| == 5 && ValidWeights(r.weights)
  }

  /**
   * Row `i` of a run started in generator state `g`: its rating is read from
   * draw `2i` and its day offset from draw `2i + 1`. The rating is in 1..5
   * and never one of weight 0, churn is set exactly for ratings up to 2, and
   * the date lies between `daysBack` days ago and today.
   */
  function SyntheticRow(r: Recipe, today: int, g: Rng, i: nat): (row: Review)
    requires ValidRecipe(r)
    ensures row.rating.Some? && 1 <= row.rating.value <= 5
    ensures r.weights[row.rating.value - 1] > 0
    ensures row.churn == 0 || row.churn == 1
    ensures row.churn == 1 <==> row.rating.value <= 2
    ensures row.date.OnDay? && today - r.daysBack <= row.date.day <= today
    ensures row.reviewId == Some(SyntheticId(r.ids, r.bank, i))
    ensures row.bankName == r.bank && row.platform == r.platform && row.dataSource == r.dataSource
  {
    var rating := 1 + Choice(Advance(g, 2 * i), r.weights);
    var offset := RandInt(Advance(g, 2 * i + 1), 0, r.daysBack);
    Review(Some(SyntheticId(r.ids, r.bank, i)), OnDay(today - r.daysBack + offset),
           r.bank, Some(rating), ChurnFlag(rating, ChurnThreshold), r.platform, r.dataSource)
  }

  /** The `count` rows of one run, in index order. */
  function SyntheticRows(r: Recipe, count: nat, today: int, g: Rng): (rows: seq<Review>)
    requires ValidRecipe(r)
    ensures |rows| == count
    ensures forall i :: 0 <= i < count ==> rows[i] == SyntheticRow(r, today, g, i)
  {
    seq(count, i requires 0 <= i < count => SyntheticRow(r, today, g, i))
  }

  /**
   * The generator loop: appends `count` rows, drawing the rating and then
   * the day offset of each from the running generator state, and returns
   * the state it leaves behind.
   */
  method Synthesize(r: Recipe, count: nat, today: int, g: Rng) returns (rows: seq<Review>, g': Rng)
    requires ValidRecipe(r)
    ensures rows == SyntheticRows(r, count, today, g)
    ensures g' == Advance(g, 2 * count)
  {
    rows := [];
    g' := g;
    var i := 0;
    while i < count
      invariant 0 <= i <= count
      invariant g' == Advance(g, 2 * i)
      invariant |rows| == i
      invariant forall k :: 0 <= k < i ==> rows[k] == SyntheticRow(r, today, g, k)
    {
      var rating := 1 + Choice(g', r.weights);
      g' := Next(g');
      var offset := RandInt(g', 0, r.daysBack);
      g' := Next(g');
      var churn := if rating <= ChurnThreshold then 1 else 0;
      rows := rows + [Review(Some(SyntheticId(r.ids, r.bank, i)), OnDay(today - r.daysBack + offset),
                             r.bank, Some(rating), churn, r.platform, r.dataSource)];
      i := i + 1;
    }
  }

  /** Within one scheme and bank, distinct indices give distinct ids. */
  lemma SyntheticIdsDistinct(s: IdScheme, bank: string, i: nat, j: nat)
    requires i != j
    ensures SyntheticId(s, bank, i) != SyntheticId(s, bank, j)
  {
    var p := s.head + BankCode(bank) + s.mid;
    if SyntheticId(s, bank, i) == SyntheticId(s, bank, j) {
      assert (p + Digits(i, s.width))[|p|..] == Digits(i, s.width);
      assert (p + Digits(j, s.width))[|p|..] == Digits(j, s.width);
      DigitsInjective(i, j, s.width);
    }
  }

  predicate DistinctIds(rows: seq<Review>)
  {
    forall i, j :: 0 <= i < j < |rows| ==> rows[i].reviewId != rows[j].reviewId
  }

  /** The rows of one run carry pairwise distinct ids. */
  lemma SyntheticRowsDistinctIds(r: Recipe, count: nat, today: int, g: Rng)
    requires ValidRecipe(r)
    ensures DistinctIds(SyntheticRows(r, count, today, g))
  {
    var rows := SyntheticRows(r, count, today, g);
    forall i, j | 0 <= i < j < count ensures rows[i].reviewId != rows[j].reviewId {
      SyntheticIdsDistinct(r.ids, r.bank, i, j);
    }
  }

  /** The draws made by `b` runs of `count` rows: two per row. */
  function DrawsBefore(count: nat, b: nat): nat
  {
    if b == 0 then 0 else DrawsBefore(count, b - 1) + 2 * count
  }

  /**
   * Per-bank runs of `count` rows each, in recipe order, every run
   * continuing the generator where the previous one stopped.
   */
  function Batches(recipes: seq<Recipe>, count: nat, today: int, g: Rng): (parts: seq<seq<Review>>)
    requires forall b :: 0 <= b < |recipes| ==> ValidRecipe(recipes[b])
    ensures |parts| == |recipes|
    ensures forall b :: 0 <= b < |parts| ==> parts[b] == SyntheticRows(recipes[b], count, today, Advance(g, DrawsBefore(count, b)))
  {
    seq(|recipes|, b requires 0 <= b < |recipes| => SyntheticRows(recipes[b], count, today, Advance(g, DrawsBefore(count, b))))
  }

  /** Run `b` starts where run `b - 1` left the generator, and leaves it for run `b + 1`. */
  lemma BatchStep(recipes: seq<Recipe>, count: nat, today: int, g: Rng, b: nat, gen: Rng, gen': Rng)
    requires forall p :: 0 <= p < |recipes| ==> ValidRecipe(recipes[p])
    requires b < |recipes|
    requires gen == Advance(g, DrawsBefore(count, b)) && gen' == Advance(gen, 2 * count)
    ensures Batches(recipes, count, today, g)[b] == SyntheticRows(recipes[b], count, today, gen)
    ensures gen' == Advance(g, DrawsBefore(count, b + 1))
  {
    var before := DrawsBefore(count, b);
    var after := DrawsBefore(count, b + 1);
    assert after == before + 2 * count;
    AdvanceAdd(g, before, 2 * count);
    assert gen' == Advance(g, before + 2 * count);
    assert Advance(g, after) == Advance(g, before + 2 * count);
  }

  /** Position `b * count + j`: row `j` of run `b` when every run has `count` rows. */
  function Slot(b: nat, count: nat, j: nat): nat
  {
    b * count + j
  }

  /** Row `j` of bank `b` is at `b * count + j` of the combined rows, and came from that bank's recipe. */
  lemma BatchRow(recipes: seq<Recipe>, count: nat, today: int, g: Rng, b: nat, j: nat)
    requires forall p :: 0 <= p < |recipes| ==> ValidRecipe(recipes[p])
    requires b < |recipes| && j < count
    ensures |Flatten(Batches(recipes, count, today, g))| == count * |recipes|
    ensures Slot(b, count, j) < |Flatten(Batches(recipes, count, today, g))|
         && Flatten(Batches(recipes, count, today, g))[Slot(b, count, j)]
         == SyntheticRow(recipes[b], today, Advance(g, DrawsBefore(count, b)), j)
  {
    var parts := Batches(recipes, count, today, g);
    assert forall p :: 0 <= p < |parts| ==> |parts[p]| == count;
    FlattenUniformAt(parts, count, b, j);
    assert parts[b] == SyntheticRows(recipes[b], count, today, Advance(g, DrawsBefore(count, b)));
  }

  /** A non-empty run has a `data_source` field exactly when its recipe sets one. */
  lemma SyntheticHasSource(r: Recipe, count: nat, today: int, g: Rng)
    requires ValidRecipe(r) && count > 0
    ensures HasSource(SyntheticRows(r, count, today, g)) <==> r.dataSource.Some?
  {
    assert SyntheticRows(r, count, today, g)[0].dataSource == r.dataSource;
  }
}
