/**
 * `add_synthetic_customer_features`: reseed the generator, then assign the
 * customer-profile columns `sex, age, tenure, credit_score, balance,
 * products_number, credit_card, active_member` to the frame in place (and,
 * in the script copies, first a constant `country_of_residence` column).
 *
 * Each column is one list comprehension or one `random.choices(..., k=n)`
 * call, drawn in column order from the reseeded generator, so the `j`-th
 * value of column number `b` is read from draw `b * n + j`.
 */
module Features {
  import opened Seqs
  import opened Text
  import opened Rand
  import opened Reviews
  import opened Frames

  const SexWeights: seq<int> := [48, 52]
  const ProductsWeights: seq<int> := [30, 30, 20, 15, 5]
  const CreditCardWeights: seq<int> := [40, 60]
  const ActiveMemberWeights: seq<int> := [30, 70]
  const MaxBalance: int := 2_000_000_000
  /** The default `seed` of the augmenter, which every script also passes to `random.seed`. */
  const DefaultSeed: int := 42

  const CountryColumn: string := "country_of_residence"
  const Country: string := "Vietnam"

  /** The eight assigned columns, in assignment order, in the source's three groups. */
  const Demographics: seq<string> := ["sex", "age", "tenure"]
  const FinancialIndicators: seq<string> := ["credit_score", "balance", "products_number"]
  const AccountStatus: seq<string> := ["credit_card", "active_member"]
  const FeatureColumns: seq<string> := [
    "sex", "age", "tenure", "credit_score", "balance",
    "products_number", "credit_card", "active_member"
  ]

  lemma FeatureColumnsDistinct()
    ensures Distinct(FeatureColumns) && CountryColumn !in FeatureColumns
    ensures FeatureColumns == Demographics + FinancialIndicators + AccountStatus
  {
  }

  /** The columns one call assigns. */
  function AddedColumns(withCountry: bool): seq<string>
  {
    (if withCountry then [CountryColumn] else []) + FeatureColumns
  }

  /** One customer's synthetic profile: the values of one row of the eight columns. */
  datatype Profile = Profile(
    sex: string, age: int, tenure: int, creditScore: int, balance: int,
    productsNumber: int, creditCard: int, activeMember: int)

  /** The ranges the generator promises, tenure bounded by the same row's age. */
  predicate Plausible(p: Profile)
  {
    && (p.sex == "Male" || p.sex == "Female")
    && 18 <= p.age <= 70
    && 0 <= p.tenure <= Min(20, p.age - 18)
    && 300 <= p.creditScore <= 850
    && 0 <= p.balance <= MaxBalance
    && 1 <= p.productsNumber <= 5
    && (p.creditCard == 0 || p.creditCard == 1)
    && (p.activeMember == 0 || p.activeMember == 1)
  }

  /** The state read for the `j`-th value of column number `b` after `random.seed(seed)`. */
  function Draw(seed: int, n: nat, b: nat, j: nat): Rng
  {
    Advance(Seed(seed), b * n + j)
  }

  /** Row `j` of the `n` rows drawn after `random.seed(seed)`. */
  function ProfileAt(seed: int, n: nat, j: nat): (p: Profile)
    ensures Plausible(p)
  {
    var age := RandInt(Draw(seed, n, 1, j), 18, 70);
    Profile(
      ["Male", "Female"][Choice(Draw(seed, n, 0, j), SexWeights)],
      age,
      RandInt(Draw(seed, n, 2, j), 0, Min(20, age - 18)),
      RandInt(Draw(seed, n, 3, j), 300, 850),
      RandInt(Draw(seed, n, 4, j), 0, MaxBalance),
      1 + Choice(Draw(seed, n, 5, j), ProductsWeights),
      Choice(Draw(seed, n, 6, j), CreditCardWeights),
      Choice(Draw(seed, n, 7, j), ActiveMemberWeights))
  }

  /** The profiles of an `n`-row frame: a function of `seed` and `n` alone. */
  function Profiles(seed: int, n: nat): (ps: seq<Profile>)
    ensures |ps| == n
    ensures forall j :: 0 <= j < n ==> Plausible(ps[j])
  {
    seq(n, j requires 0 <= j < n => ProfileAt(seed, n, j))
  }

  /** The cell a profile puts in one of the eight columns. */
  function ProfileCell(p: Profile, c: string): Cell
  {
    if c == "sex" then Str(p.sex)
    else if c == "age" then Num(p.age)
    else if c == "tenure" then Num(p.tenure)
    else if c == "credit_score" then Num(p.creditScore)
    else if c == "balance" then Num(p.balance)
    else if c == "products_number" then Num(p.productsNumber)
    else if c == "credit_card" then Num(p.creditCard)
    else if c == "active_member" then Num(p.activeMember)
    else Null
  }

  /** Column `c` of the profile rows. */
  function ProfileColumn(ps: seq<Profile>, c: string): (col: seq<Cell>)
    ensures |col| == |ps|
    ensures forall k :: 0 <= k < |ps| ==> col[k] == ProfileCell(ps[k], c)
  {
    seq(|ps|, k requires 0 <= k < |ps| => ProfileCell(ps[k], c))
  }

  /** `df["country_of_residence"] = "Vietnam"`: the scalar broadcast to every row. */
  function CountryCells(n: nat): (col: seq<Cell>)
    ensures |col| == n && forall k :: 0 <= k < n ==> col[k] == Str(Country)
  {
    seq(n, k => Str(Country))
  }

  /** Assigning each of `names` in turn, every column to its profile values. */
  function AssignAll(t: Table, ps: seq<Profile>, names: seq<string>): (r: Table)
    requires Valid(t) && |ps| == t.height
    ensures Valid(r) && r.height == t.height
    ensures forall c :: c !in names ==>
              (c in r.cells <==> c in t.cells) && (c in t.cells ==> r.cells[c] == t.cells[c])
    ensures forall c :: c in names ==> c in r.cells && r.cells[c] == ProfileColumn(ps, c)
    decreases |names|
  {
    if names == [] then t
    else
      var init, c := names[..|names| - 1], names[|names| - 1];
      assert forall x :: x in names <==> x in init || x == c;
      SetColumn(AssignAll(t, ps, init), c, ProfileColumn(ps, c))
  }

  /** Columns the frame lacked are appended in assignment order. */
  lemma {:induction false} AssignAllColumns(t: Table, ps: seq<Profile>, names: seq<string>)
    requires Valid(t) && |ps| == t.height
    requires Distinct(names) && forall c :: c in names ==> c !in t.columns
    ensures AssignAll(t, ps, names).columns == t.columns + names
    decreases |names|
  {
    if names != [] {
      var init, c := names[..|names| - 1], names[|names| - 1];
      assert names == init + [c];
      DistinctInit(names);
      AssignAllColumns(t, ps, init);
      AppendColumn(AssignAll(t, ps, init), c, ProfileColumn(ps, c), t.columns, init);
    }
  }

  /** Assigning a column that is neither in `base` nor in `added` appends it. */
  lemma AppendColumn(prev: Table, c: string, col: seq<Cell>, base: seq<string>, added: seq<string>)
    requires Valid(prev) && |col| == prev.height
    requires prev.columns == base + added && c !in base && c !in added
    ensures SetColumn(prev, c, col).columns == base + (added + [c])
  {
  }

  /** Unfolding the last assignment of a prefix of `names`. */
  lemma AssignAllStep(t: Table, ps: seq<Profile>, names: seq<string>, i: nat)
    requires Valid(t) && |ps| == t.height && i < |names|
    ensures Valid(AssignAll(t, ps, names[..i])) && AssignAll(t, ps, names[..i]).height == |ps|
    ensures AssignAll(t, ps, names[..i + 1])
         == SetColumn(AssignAll(t, ps, names[..i]), names[i], ProfileColumn(ps, names[i]))
  {
    assert names[..i + 1][..i] == names[..i];
  }

  /** The frame after the optional `df["country_of_residence"] = "Vietnam"`. */
  function WithCountry(t: Table, withCountry: bool): (r: Table)
    requires Valid(t)
    ensures Valid(r) && r.height == t.height
  {
    if withCountry then SetColumn(t, CountryColumn, CountryCells(t.height)) else t
  }

  /** The frame after `add_synthetic_customer_features`. */
  function Augmented(t: Table, seed: int, withCountry: bool): (r: Table)
    requires Valid(t)
    ensures Valid(r) && r.height == t.height
  {
    AssignAll(WithCountry(t, withCountry), Profiles(seed, t.height), FeatureColumns)
  }

  /**
   * What the augmenter promises: every column it does not assign is
   * untouched; each of the eight columns holds the profile values, which
   * depend on `seed` and the row count alone and lie within their ranges;
   * the country column, when set, reads "Vietnam" on every row.
   */
  lemma AugmentedCells(t: Table, seed: int, withCountry: bool)
    requires Valid(t)
    ensures var r := Augmented(t, seed, withCountry);
      && (forall c :: c !in AddedColumns(withCountry) ==>
            (c in r.cells <==> c in t.cells) && (c in t.cells ==> r.cells[c] == t.cells[c]))
      && (forall c, k :: c in FeatureColumns && 0 <= k < t.height ==>
            c in r.cells && r.cells[c][k] == ProfileCell(Profiles(seed, t.height)[k], c))
      && (forall k :: 0 <= k < t.height ==> Plausible(Profiles(seed, t.height)[k]))
      && (withCountry ==>
            CountryColumn in r.cells &&
            forall k :: 0 <= k < t.height ==> r.cells[CountryColumn][k] == Str(Country))
  {
    FeatureColumnsDistinct();
  }

  /**
   * The added columns depend on the seed and the row count alone: two
   * frames of the same height, augmented with the same seed, get identical
   * added columns whatever their other contents.
   */
  lemma AugmentReproducible(t1: Table, t2: Table, seed: int, withCountry: bool)
    requires Valid(t1) && Valid(t2) && t1.height == t2.height
    ensures var r1, r2 := Augmented(t1, seed, withCountry), Augmented(t2, seed, withCountry);
      forall c :: c in AddedColumns(withCountry) ==> c in r1.cells && c in r2.cells && r1.cells[c] == r2.cells[c]
  {
    var r1, r2 := Augmented(t1, seed, withCountry), Augmented(t2, seed, withCountry);
    AugmentedCells(t1, seed, withCountry);
    AugmentedCells(t2, seed, withCountry);
    forall c | c in AddedColumns(withCountry)
      ensures c in r1.cells && c in r2.cells && r1.cells[c] == r2.cells[c]
    {
      assert c == CountryColumn || c in FeatureColumns;
      assert |r1.cells[c]| == |r2.cells[c]| == t1.height;
      forall k | 0 <= k < t1.height ensures r1.cells[c][k] == r2.cells[c][k] {
      }
    }
  }

  /** A frame without the assigned columns gets them appended, in assignment order. */
  lemma AugmentedColumns(t: Table, seed: int, withCountry: bool)
    requires Valid(t)
    requires forall c :: c in AddedColumns(withCountry) ==> c !in t.columns
    ensures Augmented(t, seed, withCountry).columns == t.columns + AddedColumns(withCountry)
  {
    var t0 := WithCountry(t, withCountry);
    CountryStep(t, withCountry, t0);
    FeatureColumnsDistinct();
    AssignAllColumns(t0, Profiles(seed, t.height), FeatureColumns);
    var front: seq<string> := if withCountry then [CountryColumn] else [];
    AppendAssoc(t.columns, front, FeatureColumns);
    if !withCountry {
      AppendEmpty(t.columns, front);
    }
  }

  /** After the optional country column, none of the eight columns is present yet. */
  lemma CountryStep(t: Table, withCountry: bool, t0: Table)
    requires Valid(t)
    requires forall c :: c in AddedColumns(withCountry) ==> c !in t.columns
    requires t0 == WithCountry(t, withCountry)
    ensures t0.columns == t.columns + (if withCountry then [CountryColumn] else [])
    ensures forall c :: c in FeatureColumns ==> c !in t0.columns
  {
    if withCountry {
      assert CountryColumn in AddedColumns(true);
    }
    forall c | c in FeatureColumns ensures c !in t0.columns {
      assert c in AddedColumns(withCountry);
    }
  }

  /** Assigning `a` then `b` is assigning `a + b`. */
  lemma {:induction false} AssignAllAppend(t: Table, ps: seq<Profile>, a: seq<string>, b: seq<string>)
    requires Valid(t) && |ps| == t.height
    ensures AssignAll(t, ps, a + b) == AssignAll(AssignAll(t, ps, a), ps, b)
    decreases |b|
  {
    if b == [] {
      assert a + b == a;
    } else {
      var b' := b[..|b| - 1];
      assert (a + b)[..|a + b| - 1] == a + b';
      assert (a + b)[|a + b| - 1] == b[|b| - 1];
      AssignAllAppend(t, ps, a, b');
    }
  }

  /**
   * `add_synthetic_customer_features(df, seed)`: reseeds the generator and
   * assigns the columns to `df` in place, in the source's order. Returns
   * the generator state the draws leave behind.
   */
  method AddSyntheticCustomerFeatures(df: Frame, seed: int, withCountry: bool) returns (g: Rng)
    requires Valid(df.Value())
    modifies df
    ensures df.Value() == Augmented(old(df.Value()), seed, withCountry)
    ensures g == Advance(Seed(seed), |FeatureColumns| * old(df.height))
  {
    var n := df.height;
    var ps := Profiles(seed, n);
    if withCountry {
      df.Assign(CountryColumn, CountryCells(n));
    }
    ghost var t0 := df.Value();
    AssignDemographics(df, ps);
    ghost var t1 := df.Value();
    AssignFinancialIndicators(df, ps);
    ghost var t2 := df.Value();
    AssignAccountStatus(df, ps);
    FeatureColumnsDistinct();
    AssignAllAppend(t0, ps, Demographics, FinancialIndicators);
    AssignAllAppend(t0, ps, Demographics + FinancialIndicators, AccountStatus);
    g := Advance(Seed(seed), |FeatureColumns| * n);
  }

  /** `sex`, `age`, then `tenure`, each drawn against the same row's age. */
  method AssignDemographics(df: Frame, ps: seq<Profile>)
    requires Valid(df.Value()) && |ps| == df.height
    modifies df
    ensures df.Value() == AssignAll(old(df.Value()), ps, Demographics)
  {
    ghost var t := df.Value();
    df.Assign("sex", ProfileColumn(ps, "sex"));
    assert df.Value() == AssignAll(t, ps, ["sex"]);
    df.Assign("age", ProfileColumn(ps, "age"));
    assert ["sex", "age"][..1] == ["sex"];
    assert df.Value() == AssignAll(t, ps, ["sex", "age"]);
    df.Assign("tenure", ProfileColumn(ps, "tenure"));
    assert Demographics[..2] == ["sex", "age"];
  }

  /** `credit_score`, `balance`, then `products_number`. */
  method AssignFinancialIndicators(df: Frame, ps: seq<Profile>)
    requires Valid(df.Value()) && |ps| == df.height
    modifies df
    ensures df.Value() == AssignAll(old(df.Value()), ps, FinancialIndicators)
  {
    ghost var t := df.Value();
    df.Assign("credit_score", ProfileColumn(ps, "credit_score"));
    assert df.Value() == AssignAll(t, ps, ["credit_score"]);
    df.Assign("balance", ProfileColumn(ps, "balance"));
    assert ["credit_score", "balance"][..1] == ["credit_score"];
    assert df.Value() == AssignAll(t, ps, ["credit_score", "balance"]);
    df.Assign("products_number", ProfileColumn(ps, "products_number"));
    assert FinancialIndicators[..2] == ["credit_score", "balance"];
  }

  /** `credit_card`, then `active_member`. */
  method AssignAccountStatus(df: Frame, ps: seq<Profile>)
    requires Valid(df.Value()) && |ps| == df.height
    modifies df
    ensures df.Value() == AssignAll(old(df.Value()), ps, AccountStatus)
  {
    ghost var t := df.Value();
    df.Assign("credit_card", ProfileColumn(ps, "credit_card"));
    assert df.Value() == AssignAll(t, ps, ["credit_card"]);
    df.Assign("active_member", ProfileColumn(ps, "active_member"));
    assert AccountStatus[..1] == ["credit_card"];
  }

  /**
   * A frame of records without `data_source` gets the added columns after
   * the six review fields.
   */
  lemma AugmentedRecords(rows: seq<Review>, seed: int, withCountry: bool)
    requires rows != [] && !HasSource(rows)
    ensures Augmented(FromRecords(rows), seed, withCountry).columns == ReviewColumns + AddedColumns(withCountry)
  {
    var t := FromRecords(rows);
    assert t.columns == ReviewColumns + [];
    AddedColumnsApart(withCountry);
    AugmentedColumns(t, seed, withCountry);
  }

  /**
   * A frame of records that set `data_source` gets the added columns after
   * the six review fields and `data_source`.
   */
  lemma AugmentedSourcedRecords(rows: seq<Review>, seed: int, withCountry: bool)
    requires rows != [] && HasSource(rows)
    ensures Augmented(FromRecords(rows), seed, withCountry).columns
         == ReviewColumns + [DataSourceColumn] + AddedColumns(withCountry)
  {
    var t := FromRecords(rows);
    assert t.columns == ReviewColumns + [DataSourceColumn];
    AddedColumnsApart(withCountry);
    AugmentedColumns(t, seed, withCountry);
  }

  /** No added column is a review field or `data_source`. */
  lemma AddedColumnsApart(withCountry: bool)
    ensures forall c :: c in AddedColumns(withCountry) ==> c !in ReviewColumns + [DataSourceColumn]
  {
    var cols := ReviewColumns + [DataSourceColumn];
    assert cols == ["review_id", "date", "bank_name", "rating", "churn", "platform", "data_source"];
    assert AddedColumns(withCountry) == (if withCountry then [CountryColumn] else []) + FeatureColumns;
  }
}
