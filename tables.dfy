/** The rectangular tables the dashboard works on, in the shape pandas gives
    them: an ordered list of named columns, each with one declared type
    (its dtype) and one cell per row. Column names need not be distinct:
    trimming them can make two equal. */
module Tables {

  type Month = m: int | 1 <= m <= 12 witness 1

  /** A parsed calendar date (only what the model reads of a timestamp). */
  datatype Date = Date(year: int, month: Month, day: int)

  /** One cell. `Missing` is pandas' NaN / NaT. */
  datatype Cell = Missing | Text(s: string) | Num(v: real) | When(d: Date)

  /** A column's dtype: object (text), int64/float64, or datetime64. */
  datatype Kind = TextKind | NumericKind | DateKind

  datatype Column = Column(name: string, kind: Kind, cells: seq<Cell>)

  datatype Frame = Frame(columns: seq<Column>, height: nat)

  /** The cells a column of the given dtype may hold. */
  predicate Fits(k: Kind, c: Cell)
  {
    c.Missing? ||
    match k
    case TextKind => c.Text?
    case NumericKind => c.Num?
    case DateKind => c.When?
  }

  predicate ColumnFits(col: Column, height: nat)
  {
    |col.cells| == height && forall i :: 0 <= i < height ==> Fits(col.kind, col.cells[i])
  }

  /** Every column has one cell per row, each fitting the column's dtype. */
  predicate WellFormed(f: Frame)
  {
    forall j :: 0 <= j < |f.columns| ==> ColumnFits(f.columns[j], f.height)
  }

  function Names(f: Frame): (names: seq<string>)
    ensures |names| == |f.columns|
    ensures forall j :: 0 <= j < |names| ==> names[j] == f.columns[j].name
  {
    seq(|f.columns|, j requires 0 <= j < |f.columns| => f.columns[j].name)
  }

  /** The number a numeric cell holds; pandas' `sum` skips NaN. */
  function Amount(c: Cell): real
  {
    if c.Num? then c.v else 0.0
  }

  /** `series.sum()` over the rows of `cells`. */
  function Total(cells: seq<Cell>): real
  {
    if cells == [] then 0.0 else Total(cells[..|cells| - 1]) + Amount(cells[|cells| - 1])
  }

  /** The sum of the cells of a sequence is the sum of its two halves. */
  lemma {:induction false} TotalAppend(a: seq<Cell>, b: seq<Cell>)
    ensures Total(a + b) == Total(a) + Total(b)
    decreases |b|
  {
    if b == [] {
      assert a + b == a;
    } else {
      assert (a + b)[..|a + b| - 1] == a + b[..|b| - 1];
      TotalAppend(a, b[..|b| - 1]);
    }
  }
}
