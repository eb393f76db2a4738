/**
 * The part of a pandas DataFrame the pipeline relies on: ordered named
 * columns of equal length. `Table` is a frame as a value (construction from
 * records, `pd.concat`, column selection); `Frame` is a frame object whose
 * columns are assigned in place (`df[name] = values`).
 */
module Frames {
  import opened Wrappers
  import opened Seqs
  import opened Reviews

  /** A cell: text, an integer, a calendar day, or NaN/None. */
  datatype Cell = Str(s: string) | Num(n: int) | Day(day: int) | Null

  datatype Table = Table(columns: seq<string>, cells: map<string, seq<Cell>>, height: nat)

  /** Distinct column names, one cell sequence per column, all of the table's height. */
  ghost predicate Valid(t: Table)
  {
    && Distinct(t.columns)
    && (forall c :: c in t.cells <==> c in t.columns)
    && (forall c :: c in t.cells ==> |t.cells[c]| == t.height)
  }

  /** Row `k` of column `c`, or Null (NaN) where the table has no such column. */
  function At(t: Table, c: string, k: int): Cell
  {
    if c in t.cells && 0 <= k < |t.cells[c]| then t.cells[c][k] else Null
  }

  function OptText(o: Option<string>): Cell
  {
    if o.Some? then Str(o.value) else Null
  }

  function DateCell(d: Date): Cell
  {
    match d
    case OnDay(n) => Day(n)
    case Label(s) => Str(s)
    case NoDate => Null
  }

  /** The cell a record puts in column `c` (Null for a key it does not have). */
  function CellOf(r: Review, c: string): Cell
  {
    if c == "review_id" then OptText(r.reviewId)
    else if c == "date" then DateCell(r.date)
    else if c == "bank_name" then Str(r.bankName)
    else if c == "rating" then (if r.rating.Some? then Num(r.rating.value) else Null)
    else if c == "churn" then Num(r.churn)
    else if c == "platform" then Str(r.platform)
    else if c == DataSourceColumn then OptText(r.dataSource)
    else Null
  }

  /**
   * The columns of `pd.DataFrame(records)`: the keys in order of first
   * appearance, so the six review fields, then `data_source` if any record
   * has one; no columns at all for an empty list.
   */
  function RecordColumns(rows: seq<Review>): seq<string>
  {
    if rows == [] then []
    else ReviewColumns + (if HasSource(rows) then [DataSourceColumn] else [])
  }

  /** `pd.DataFrame(records)`: one row per record, in order. */
  function FromRecords(rows: seq<Review>): (t: Table)
    ensures Valid(t) && t.height == |rows| && t.columns == RecordColumns(rows)
    ensures forall c, k :: c in t.cells && 0 <= k < |rows| ==> t.cells[c][k] == CellOf(rows[k], c)
  {
    var cols := RecordColumns(rows);
    Table(cols, map c | c in cols :: seq(|rows|, k requires 0 <= k < |rows| => CellOf(rows[k], c)), |rows|)
  }

  /**
   * `pd.concat([a, b], ignore_index=True)`: the rows of `a`, then those of
   * `b`; the columns of `a`, then the new ones of `b`; NaN where a frame
   * lacks a column.
   */
  function Concat(a: Table, b: Table): (t: Table)
    requires Valid(a) && Valid(b)
    ensures Valid(t)
    ensures t.height == a.height + b.height
    ensures t.columns == a.columns + Unseen(b.columns, a.columns)
    ensures forall c :: c in t.cells ==> t.cells[c] == Stacked(a, b, c)
  {
    UnseenAppendDistinct(a.columns, b.columns);
    var cols := a.columns + Unseen(b.columns, a.columns);
    Table(cols, map c | c in cols :: Stacked(a, b, c), a.height + b.height)
  }

  /** Column `c` of `a` stacked on column `c` of `b`, NaN-padded where absent. */
  function Stacked(a: Table, b: Table, c: string): (col: seq<Cell>)
    ensures |col| == a.height + b.height
    ensures forall k :: 0 <= k < |col| ==>
              col[k] == if k < a.height then At(a, c, k) else At(b, c, k - a.height)
  {
    seq(a.height + b.height, k => if k < a.height then At(a, c, k) else At(b, c, k - a.height))
  }

  function Heights(ts: seq<Table>): nat
  {
    if ts == [] then 0 else Heights(ts[..|ts| - 1]) + ts[|ts| - 1].height
  }

  /** `pd.concat(frames, ignore_index=True)` over a non-empty list of frames. */
  function ConcatAll(ts: seq<Table>): (t: Table)
    requires |ts| > 0 && forall b :: 0 <= b < |ts| ==> Valid(ts[b])
    ensures Valid(t) && t.height == Heights(ts)
  {
    if |ts| == 1 then ts[0]
    else Concat(ConcatAll(ts[..|ts| - 1]), ts[|ts| - 1])
  }

  lemma HasSourceAppend(a: seq<Review>, b: seq<Review>)
    ensures HasSource(a + b) == (HasSource(a) || HasSource(b))
  {
    if HasSource(a) {
      var k :| 0 <= k < |a| && a[k].dataSource.Some?;
      assert (a + b)[k] == a[k];
    }
    if HasSource(b) {
      var k :| 0 <= k < |b| && b[k].dataSource.Some?;
      assert (a + b)[|a| + k] == b[k];
    }
    if HasSource(a + b) {
      var k :| 0 <= k < |a + b| && (a + b)[k].dataSource.Some?;
      if k < |a| { assert (a + b)[k] == a[k]; } else { assert (a + b)[k] == b[k - |a|]; }
    }
  }

  /** Concatenating two frames built from records with the same keys is building one frame from all the records. */
  lemma {:induction false} ConcatRecords(a: seq<Review>, b: seq<Review>)
    requires a != [] && b != [] && HasSource(a) == HasSource(b)
    ensures Concat(FromRecords(a), FromRecords(b)) == FromRecords(a + b)
  {
    var t, tab := Concat(FromRecords(a), FromRecords(b)), FromRecords(a + b);
    ConcatRecordsColumns(a, b);
    forall c | c in t.cells
      ensures t.cells[c] == tab.cells[c]
    {
      ConcatRecordsColumn(a, b, c);
    }
    assert t.cells == tab.cells;
  }

  lemma RecordColumnsAppend(a: seq<Review>, b: seq<Review>)
    requires a != [] && b != [] && HasSource(a) == HasSource(b)
    ensures RecordColumns(a + b) == RecordColumns(a) == RecordColumns(b)
  {
    HasSourceAppend(a, b);
  }

  lemma ConcatRecordsColumns(a: seq<Review>, b: seq<Review>)
    requires a != [] && b != [] && HasSource(a) == HasSource(b)
    ensures Concat(FromRecords(a), FromRecords(b)).columns == FromRecords(a + b).columns == RecordColumns(a)
    ensures Concat(FromRecords(a), FromRecords(b)).cells.Keys == FromRecords(a + b).cells.Keys
    ensures Concat(FromRecords(a), FromRecords(b)).height == FromRecords(a + b).height
  {
    var ta, tb, tab := FromRecords(a), FromRecords(b), FromRecords(a + b);
    RecordColumnsAppend(a, b);
    assert tb.columns == ta.columns == tab.columns;
    UnseenCovered(tb.columns, ta.columns);
    var t := Concat(ta, tb);
    assert t.columns == ta.columns + [] == ta.columns;
    assert forall c :: c in t.cells <==> c in tab.cells;
  }

  lemma ConcatRecordsColumn(a: seq<Review>, b: seq<Review>, c: string)
    requires a != [] && b != [] && HasSource(a) == HasSource(b)
    requires c in RecordColumns(a)
    ensures HasSource(a + b) == HasSource(a)
    ensures c in Concat(FromRecords(a), FromRecords(b)).cells
    ensures Concat(FromRecords(a), FromRecords(b)).cells[c] == FromRecords(a + b).cells[c]
  {
    HasSourceAppend(a, b);
    var ta, tb, tab := FromRecords(a), FromRecords(b), FromRecords(a + b);
    var t := Concat(ta, tb);
    var x, y := t.cells[c], tab.cells[c];
    assert |x| == |y| == |a| + |b|;
    forall k | 0 <= k < |x| ensures x[k] == y[k] {
      if k < |a| {
        assert (a + b)[k] == a[k];
        assert x[k] == At(ta, c, k) == CellOf(a[k], c);
      } else {
        assert (a + b)[k] == b[k - |a|];
        assert x[k] == At(tb, c, k - |a|) == CellOf(b[k - |a|], c);
      }
    }
  }

  lemma {:induction false} FlattenRecords(parts: seq<seq<Review>>)
    requires |parts| > 0
    requires forall b :: 0 <= b < |parts| ==> parts[b] != [] && HasSource(parts[b]) == HasSource(parts[0])
    ensures Flatten(parts) != [] && HasSource(Flatten(parts)) == HasSource(parts[0])
  {
    var n := |parts|;
    if n > 1 {
      FlattenRecords(parts[..n - 1]);
      HasSourceAppend(Flatten(parts[..n - 1]), parts[n - 1]);
    } else {
      assert Flatten(parts) == parts[0] by {
        assert parts[..0] == [];
        assert Flatten(parts[..0]) == [];
        assert [] + parts[0] == parts[0];
      }
    }
  }

  /** `all_dfs` part way through a per-bank loop: one frame per batch so far, built from its records. */
  predicate FramesOf(ts: seq<Table>, parts: seq<seq<Review>>)
  {
    |ts| <= |parts| && forall b :: 0 <= b < |ts| ==> ts[b] == FromRecords(parts[b])
  }

  /** `all_dfs.append(...)` with the frame of the next batch keeps the loop's invariant. */
  lemma FramesOfAppend(ts: seq<Table>, parts: seq<seq<Review>>, t: Table)
    requires FramesOf(ts, parts) && |ts| < |parts| && t == FromRecords(parts[|ts|])
    ensures FramesOf(ts + [t], parts)
  {
  }

  /**
   * The per-bank loops' `pd.concat(all_dfs)`: when every batch is non-empty
   * and all batches agree on having `data_source`, concatenating their
   * frames is the frame of all their records, in batch order.
   */
  lemma {:induction false} ConcatOfRecords(ts: seq<Table>, parts: seq<seq<Review>>)
    requires |ts| == |parts| > 0
    requires forall b :: 0 <= b < |parts| ==> ts[b] == FromRecords(parts[b]) && Valid(ts[b])
    requires forall b :: 0 <= b < |parts| ==> parts[b] != [] && HasSource(parts[b]) == HasSource(parts[0])
    ensures ConcatAll(ts) == FromRecords(Flatten(parts))
  {
    var n := |parts|;
    if n == 1 {
      assert Flatten(parts) == parts[0] by {
        assert parts[..0] == [];
        assert Flatten(parts[..0]) == [];
        assert [] + parts[0] == parts[0];
      }
    } else {
      var init := parts[..n - 1];
      ConcatOfRecords(ts[..n - 1], init);
      FlattenRecords(init);
      ConcatRecords(Flatten(init), parts[n - 1]);
    }
  }

  /**
   * `df[cols]`: the named columns in the given order; None (a KeyError)
   * when one of them is missing.
   */
  function Select(t: Table, cols: seq<string>): (r: Option<Table>)
    requires Valid(t) && Distinct(cols)
    ensures r.Some? <==> forall c :: c in cols ==> c in t.columns
    ensures r.Some? ==> Valid(r.value) && r.value.columns == cols && r.value.height == t.height
    ensures r.Some? ==> forall c :: c in cols ==> r.value.cells[c] == t.cells[c]
  {
    if forall c :: c in cols ==> c in t.cells then
      Some(Table(cols, map c | c in cols :: t.cells[c], t.height))
    else None
  }

  /**
   * `df[[c for c in wanted if c in df.columns]]`: the wanted columns that
   * exist, in `wanted` order; absent ones are omitted and unwanted ones dropped.
   */
  function Project(t: Table, wanted: seq<string>): (r: Table)
    requires Valid(t) && Distinct(wanted)
    ensures Valid(r) && r.height == t.height
    ensures r.columns == Keep(wanted, t.columns)
    ensures forall c :: c in r.cells <==> c in wanted && c in t.cells
    ensures forall c :: c in r.cells ==> r.cells[c] == t.cells[c]
  {
    KeepDistinct(wanted, t.columns);
    Select(t, Keep(wanted, t.columns)).value
  }

  /** Projecting a second time changes nothing. */
  lemma ProjectIdempotent(t: Table, wanted: seq<string>)
    requires Valid(t) && Distinct(wanted)
    ensures Project(Project(t, wanted), wanted) == Project(t, wanted)
  {
    var p := Project(t, wanted);
    KeepCongruent(wanted, p.columns, t.columns);
    var q := Project(p, wanted);
    assert q.columns == p.columns;
    assert q.cells == p.cells;
  }

  /** `df[name] = values`: overwrite the column in place, or append it as the last column. */
  function SetColumn(t: Table, name: string, values: seq<Cell>): (r: Table)
    requires Valid(t) && |values| == t.height
    ensures Valid(r) && r.height == t.height
    ensures name in r.cells && r.cells[name] == values
    ensures forall c :: c != name ==> (c in r.cells <==> c in t.cells)
    ensures forall c :: c != name && c in t.cells ==> r.cells[c] == t.cells[c]
    ensures r.columns == if name in t.columns then t.columns else t.columns + [name]
  {
    var cols := if name in t.columns then t.columns else t.columns + [name];
    assert Distinct(cols);
    Table(cols, t.cells[name := values], t.height)
  }

  /** A DataFrame object, whose columns the augmenter assigns in place. */
  class Frame {
    var columns: seq<string>
    var cells: map<string, seq<Cell>>
    var height: nat

    function Value(): Table
      reads this
    {
      Table(columns, cells, height)
    }

    constructor (t: Table)
      requires Valid(t)
      ensures Value() == t
    {
      columns, cells, height := t.columns, t.cells, t.height;
    }

    /** `df[name] = values`. */
    method Assign(name: string, values: seq<Cell>)
      requires Valid(Value()) && |values| == height
      modifies this
      ensures Value() == SetColumn(old(Value()), name, values)
    {
      if name !in columns {
        columns := columns + [name];
      }
      cells := cells[name := values];
    }
  }
}
