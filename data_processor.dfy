/** The table builder and the table cleaner: raw board items become rows
    (one dictionary per item), the rows become a frame, and the frame is
    cleaned in place. */
module DataProcessor {
  import opened Seqs
  import opened Strings
  import opened Tables

  // ---------------------------------------------------------------------
  // Raw items and their rows
  // ---------------------------------------------------------------------

  /** One `column_values` entry of a board item: its column's title and its text. */
  datatype ColumnValue = ColumnValue(title: string, text: string)

  /** A board item as the board API returns it. */
  datatype Item = Item(name: string, columnValues: seq<ColumnValue>)

  /** A Python dictionary from column name to text: `keys` in insertion order. */
  datatype Record = Record(keys: seq<string>, cells: map<string, string>)

  const ItemName: string := "Item Name"

  /** The keys list and the dictionary agree, and no key is listed twice. */
  ghost predicate ValidRecord(r: Record)
  {
    Distinct(r.keys) && forall k :: k in r.cells <==> k in r.keys
  }

  /** `row[k] = v`: a new key goes to the end; an existing key keeps its place. */
  function Put(r: Record, k: string, v: string): Record
  {
    Record(if k in r.cells then r.keys else r.keys + [k], r.cells[k := v])
  }

  /** The dictionary `{"Item Name": name}`. */
  function Start(name: string): Record
  {
    Record([ItemName], map[ItemName := name])
  }

  /** The row after the assignments of `cvs`, in order, onto `r`. */
  function Fill(r: Record, cvs: seq<ColumnValue>): Record
    decreases |cvs|
  {
    if cvs == [] then r
    else
      var last := cvs[|cvs| - 1];
      Put(Fill(r, cvs[..|cvs| - 1]), last.title, last.text)
  }

  /** The row built for one item. */
  function RowOf(item: Item): Record
  {
    Fill(Start(item.name), item.columnValues)
  }

  function Titles(cvs: seq<ColumnValue>): (ts: seq<string>)
    ensures |ts| == |cvs|
    ensures forall j :: 0 <= j < |cvs| ==> ts[j] == cvs[j].title
  {
    seq(|cvs|, j requires 0 <= j < |cvs| => cvs[j].title)
  }

  /** Filling a row adds each title once, in first-seen order, and the
      dictionary holds exactly the listed keys. */
  lemma {:induction false} FillKeys(name: string, cvs: seq<ColumnValue>)
    ensures Fill(Start(name), cvs).keys == Dedup([ItemName] + Titles(cvs))
    ensures forall k :: k in Fill(Start(name), cvs).cells <==> k in Fill(Start(name), cvs).keys
    decreases |cvs|
  {
    var all := [ItemName] + Titles(cvs);
    if cvs == [] {
      assert all == [ItemName];
      assert Dedup(all[..0]) == [];
    } else {
      var init := cvs[..|cvs| - 1];
      FillKeys(name, init);
      assert all[..|all| - 1] == [ItemName] + Titles(init);
    }
  }

  /** The row of an item is a valid dictionary whose keys are "Item Name"
      followed by the item's titles, each once, in first-seen order. */
  lemma RowKeys(item: Item)
    ensures ValidRecord(RowOf(item))
    ensures RowOf(item).keys == Dedup([ItemName] + Titles(item.columnValues))
    ensures RowOf(item).keys[0] == ItemName
  {
    FillKeys(item.name, item.columnValues);
    DedupElements([ItemName] + Titles(item.columnValues));
    DedupHead([ItemName] + Titles(item.columnValues));
  }

  /** `k` is the title of entry `j` and of no later entry. */
  predicate LastWith(cvs: seq<ColumnValue>, k: string, j: int)
  {
    0 <= j < |cvs| && cvs[j].title == k &&
    forall j' :: j < j' < |cvs| ==> cvs[j'].title != k
  }

  /** What a row holds: "Item Name" and every title are keys and nothing
      else; a title's cell is the text of its last occurrence (the last
      write wins, also over the item's name), and "Item Name" holds the
      item's name unless some title is literally "Item Name". */
  lemma FillCells(name: string, cvs: seq<ColumnValue>, k: string)
    ensures k in Fill(Start(name), cvs).cells <==>
            (k == ItemName || exists j :: 0 <= j < |cvs| && cvs[j].title == k)
    ensures forall j :: LastWith(cvs, k, j) ==> Fill(Start(name), cvs).cells[k] == cvs[j].text
    ensures k == ItemName && (forall j :: 0 <= j < |cvs| ==> cvs[j].title != k) ==>
            Fill(Start(name), cvs).cells[k] == name
  {
    FillHas(name, cvs, k);
    forall j | LastWith(cvs, k, j)
      ensures Fill(Start(name), cvs).cells[k] == cvs[j].text
    {
      FillLast(name, cvs, k, j);
    }
    if k == ItemName && (forall j :: 0 <= j < |cvs| ==> cvs[j].title != k) {
      FillName(name, cvs);
    }
  }

  /** The keys of a filled row are "Item Name" and the titles. */
  lemma {:induction false} FillHas(name: string, cvs: seq<ColumnValue>, k: string)
    ensures k in Fill(Start(name), cvs).cells <==>
            (k == ItemName || exists j :: 0 <= j < |cvs| && cvs[j].title == k)
    decreases |cvs|
  {
    if cvs != [] {
      var init := cvs[..|cvs| - 1];
      FillHas(name, init, k);
      if (exists j :: 0 <= j < |init| && init[j].title == k) {
        var j :| 0 <= j < |init| && init[j].title == k;
        assert cvs[j].title == k;
      }
    }
  }

  /** The last assignment to a title wins. */
  lemma {:induction false} FillLast(name: string, cvs: seq<ColumnValue>, k: string, j: int)
    requires LastWith(cvs, k, j)
    ensures k in Fill(Start(name), cvs).cells && Fill(Start(name), cvs).cells[k] == cvs[j].text
    decreases |cvs|
  {
    var init := cvs[..|cvs| - 1];
    if j < |cvs| - 1 {
      assert LastWith(init, k, j);
      FillLast(name, init, k, j);
    }
  }

  /** With no title "Item Name", the item's name stays in that cell. */
  lemma {:induction false} FillName(name: string, cvs: seq<ColumnValue>)
    requires forall j :: 0 <= j < |cvs| ==> cvs[j].title != ItemName
    ensures ItemName in Fill(Start(name), cvs).cells && Fill(Start(name), cvs).cells[ItemName] == name
    decreases |cvs|
  {
    if cvs != [] {
      FillName(name, cvs[..|cvs| - 1]);
    }
  }

  /** The cells of an item's row, stated on the item. */
  lemma RowCells(item: Item, k: string)
    ensures k in RowOf(item).cells <==>
            (k == ItemName || exists j :: 0 <= j < |item.columnValues| && item.columnValues[j].title == k)
    ensures forall j :: LastWith(item.columnValues, k, j) ==> RowOf(item).cells[k] == item.columnValues[j].text
    ensures k == ItemName && (forall j :: 0 <= j < |item.columnValues| ==> item.columnValues[j].title != k) ==>
            RowOf(item).cells[k] == item.name
  {
    FillCells(item.name, item.columnValues, k);
  }

  /** The inner loop of `convert_to_dataframe`: one dictionary per item. */
  method BuildRow(item: Item) returns (row: Record)
    ensures row == RowOf(item)
  {
    row := Start(item.name);
    var j := 0;
    while j < |item.columnValues|
      invariant 0 <= j <= |item.columnValues|
      invariant row == Fill(Start(item.name), item.columnValues[..j])
    {
      var cv := item.columnValues[j];
      assert item.columnValues[..j + 1][..j] == item.columnValues[..j];
      row := Put(row, cv.title, cv.text);
      j := j + 1;
    }
    assert item.columnValues[..j] == item.columnValues;
  }

  /** The outer loop of `convert_to_dataframe`: one row per item, in order. */
  method BuildRecords(items: seq<Item>) returns (records: seq<Record>)
    ensures |records| == |items|
    ensures forall i :: 0 <= i < |items| ==> records[i] == RowOf(items[i])
  {
    records := [];
    var i := 0;
    while i < |items|
      invariant 0 <= i <= |items|
      invariant |records| == i
      invariant forall i' :: 0 <= i' < i ==> records[i'] == RowOf(items[i'])
    {
      var row := BuildRow(items[i]);
      records := records + [row];
      i := i + 1;
    }
  }

  // ---------------------------------------------------------------------
  // From rows to a frame
  // ---------------------------------------------------------------------

  /** All keys of all rows, row after row. */
  function AllKeys(records: seq<Record>): seq<string>
    decreases |records|
  {
    if records == [] then [] else AllKeys(records[..|records| - 1]) + records[|records| - 1].keys
  }

  lemma {:induction false} AllKeysElements(records: seq<Record>, k: string)
    ensures k in AllKeys(records) <==> exists i :: 0 <= i < |records| && k in records[i].keys
    decreases |records|
  {
    if records != [] {
      AllKeysElements(records[..|records| - 1], k);
      if k in records[|records| - 2 + 1].keys {
      } else if (exists i :: 0 <= i < |records| && k in records[i].keys) {
        var i :| 0 <= i < |records| && k in records[i].keys;
        assert records[..|records| - 1][i] == records[i];
      }
    }
  }

  /** The cell of row `r` in column `k`: NaN where the row lacks the key. */
  function CellOf(r: Record, k: string): Cell
  {
    if k in r.cells then Text(r.cells[k]) else Missing
  }

  /** `pd.DataFrame(records)`: the column names are the keys of all rows in
      first-seen order; every column holds text. */
  function FromRecords(records: seq<Record>): Frame
  {
    var names := Dedup(AllKeys(records));
    Frame(seq(|names|, j requires 0 <= j < |names| =>
            Column(names[j], TextKind, seq(|records|, i requires 0 <= i < |records| => CellOf(records[i], names[j])))),
          |records|)
  }

  function RowsOf(items: seq<Item>): (records: seq<Record>)
    ensures |records| == |items|
    ensures forall i :: 0 <= i < |items| ==> records[i] == RowOf(items[i])
  {
    seq(|items|, i requires 0 <= i < |items| => RowOf(items[i]))
  }

  /** `convert_to_dataframe(items)` as a value. */
  function Converted(items: seq<Item>): Frame
  {
    FromRecords(RowsOf(items))
  }

  /** The built table has one row per item, in order, and every cell is
      that item's row's entry for the column (NaN where the row lacks it). */
  lemma ConvertedRows(items: seq<Item>)
    ensures var f := Converted(items);
      && f.height == |items|
      && WellFormed(f)
      && forall j, i :: 0 <= j < |f.columns| && 0 <= i < |items| ==>
            f.columns[j].kind == TextKind && f.columns[j].cells[i] == CellOf(RowOf(items[i]), f.columns[j].name)
  {
  }

  /** A name is a column of the built table exactly when it is "Item Name"
      (and there is an item) or the title of some item's column value. */
  lemma ConvertedHasColumn(items: seq<Item>, k: string)
    ensures k in Names(Converted(items)) <==>
            (|items| > 0 && k == ItemName) ||
            exists i, j :: 0 <= i < |items| && 0 <= j < |items[i].columnValues| && items[i].columnValues[j].title == k
  {
    var records := RowsOf(items);
    var all := AllKeys(records);
    DedupElements(all);
    assert Names(Converted(items)) == Dedup(all);
    AllKeysElements(records, k);
    if k in Names(Converted(items)) {
      var i :| 0 <= i < |records| && k in records[i].keys;
      RowKeys(items[i]);
      RowCells(items[i], k);
    }
    if |items| > 0 && k == ItemName {
      RowKeys(items[0]);
      assert k in records[0].keys;
    }
    if exists i, j :: 0 <= i < |items| && 0 <= j < |items[i].columnValues| && items[i].columnValues[j].title == k {
      var i, j :| 0 <= i < |items| && 0 <= j < |items[i].columnValues| && items[i].columnValues[j].title == k;
      RowKeys(items[i]);
      RowCells(items[i], k);
      assert k in records[i].keys;
    }
  }

  /** Column names are distinct, and the column set is "Item Name" plus all
      titles seen, in first-seen order across the items (the columns of the
      first items' rows come first). */
  lemma ConvertedColumns(items: seq<Item>, n: nat)
    requires n <= |items|
    ensures Distinct(Names(Converted(items)))
    ensures Names(Converted(items[..n])) <= Names(Converted(items))
  {
    var records := RowsOf(items);
    DedupElements(AllKeys(records));
    assert Names(Converted(items)) == Dedup(AllKeys(records));
    assert RowsOf(items[..n]) == records[..n];
    AllKeysPrefix(records, n);
    var pre := AllKeys(records[..n]);
    assert AllKeys(records)[..|pre|] == pre;
    DedupPrefix(AllKeys(records), |pre|);
  }

  /** "Item Name" is the first column of a table built from any item. */
  lemma ConvertedFirstColumn(items: seq<Item>)
    requires |items| > 0
    ensures |Converted(items).columns| > 0 && Converted(items).columns[0].name == ItemName
  {
    var records := RowsOf(items);
    RowKeys(items[0]);
    AllKeysPrefix(records, 1);
    assert AllKeys(records[..1]) == records[0].keys by {
      assert records[..1][..0] == [];
    }
    var all := AllKeys(records);
    assert all[0] == ItemName;
    DedupHead(all);
  }

  /** The keys of the first rows come first. */
  lemma {:induction false} AllKeysPrefix(records: seq<Record>, k: nat)
    requires k <= |records|
    ensures AllKeys(records[..k]) <= AllKeys(records)
    decreases |records|
  {
    if k < |records| {
      assert records[..|records| - 1][..k] == records[..k];
      AllKeysPrefix(records[..|records| - 1], k);
    } else {
      assert records[..k] == records;
    }
  }

  // ---------------------------------------------------------------------
  // Cleaning, column by column
  // ---------------------------------------------------------------------

  /** What `pd.to_numeric` makes of one text: a number, NaN, or a parse
      failure. The parser itself belongs to pandas and is a parameter here. */
  datatype Parsed = Number(v: real) | NotANumber | Unparseable

  /** Step 1 for one column: trim its name. */
  function TrimName(col: Column): Column
  {
    col.(name := Strip(col.name))
  }

  function DenoiseCell(c: Cell): Cell
  {
    if c.Text? then Text(StripNoise(c.s)) else c
  }

  /** Step 2 for one column: on a text column, drop `,`, the rupee sign and
      `%` from every text cell; other columns are left alone. */
  function DenoiseColumn(col: Column): Column
  {
    if col.kind == TextKind then
      col.(cells := seq(|col.cells|, i requires 0 <= i < |col.cells| => DenoiseCell(col.cells[i])))
    else col
  }

  function NumberCell(c: Cell, parse: string -> Parsed): Cell
  {
    if c.Text? then
      match parse(c.s)
      case Number(v) => Num(v)
      case _ => Missing
    else c
  }

  /** Every text cell of the column parses (as a number or as NaN). */
  predicate AllParse(cells: seq<Cell>, parse: string -> Parsed)
  {
    forall i | 0 <= i < |cells| :: cells[i].Text? ==> !parse(cells[i].s).Unparseable?
  }

  /** Step 3 for one column, `pd.to_numeric(errors="ignore")`: a text column
      all of whose cells parse becomes numeric; any failure leaves it as it was. */
  function NumericColumn(col: Column, parse: string -> Parsed): Column
  {
    if col.kind == TextKind && AllParse(col.cells, parse) then
      Column(col.name, NumericKind, seq(|col.cells|, i requires 0 <= i < |col.cells| => NumberCell(col.cells[i], parse)))
    else col
  }

  /** The column names that step 4 converts. */
  predicate IsDateName(name: string)
  {
    Contains(Lower(name), "date") || Contains(Lower(name), "month")
  }

  function DateCell(c: Cell, parseDate: Cell -> Option<Date>): Cell
  {
    if c.Missing? then Missing
    else match parseDate(c)
      case Some(d) => When(d)
      case None => Missing
  }

  /** Step 4 for one column, `pd.to_datetime(errors="coerce")` on a column
      named like a date or a month: every cell becomes a date or NaT. A column
      that already holds dates is left as it is. */
  function DateColumn(col: Column, parseDate: Cell -> Option<Date>): Column
  {
    if IsDateName(col.name) && col.kind != DateKind then
      Column(col.name, DateKind, seq(|col.cells|, i requires 0 <= i < |col.cells| => DateCell(col.cells[i], parseDate)))
    else col
  }

  /** The four steps on one column. The steps act column by column, so the
      whole cleaning is this function applied to each column. */
  function CleanColumn(col: Column, parse: string -> Parsed, parseDate: Cell -> Option<Date>): Column
  {
    DateColumn(NumericColumn(DenoiseColumn(TrimName(col)), parse), parseDate)
  }

  function MapColumns(f: Frame, g: Column -> Column): (r: Frame)
    ensures r.height == f.height && |r.columns| == |f.columns|
    ensures forall j :: 0 <= j < |f.columns| ==> r.columns[j] == g(f.columns[j])
  {
    Frame(seq(|f.columns|, j requires 0 <= j < |f.columns| => g(f.columns[j])), f.height)
  }

  /** `clean_dataframe` as a value. */
  function Clean(f: Frame, parse: string -> Parsed, parseDate: Cell -> Option<Date>): Frame
  {
    MapColumns(f, col => CleanColumn(col, parse, parseDate))
  }

  /** What cleaning guarantees of one column: its name is trimmed, its
      height is kept, its cells fit its dtype, its text cells carry no noise
      character, and a column named like a date holds dates. */
  lemma CleanColumnShape(col: Column, height: nat, parse: string -> Parsed, parseDate: Cell -> Option<Date>)
    requires ColumnFits(col, height)
    ensures var c := CleanColumn(col, parse, parseDate);
      && c.name == Strip(col.name)
      && ColumnFits(c, height)
      && (forall i :: 0 <= i < height && c.cells[i].Text? ==> NoNoise(c.cells[i].s))
      && (IsDateName(c.name) ==> c.kind == DateKind)
  {
    var t := TrimName(col);
    DenoiseShape(t, height);
    var d := DenoiseColumn(t);
    NumericShape(d, height, parse);
    DateShape(NumericColumn(d, parse), height, parseDate);
  }

  /** Step 2 keeps the shape and leaves no noise character in a text cell. */
  lemma DenoiseShape(col: Column, height: nat)
    requires ColumnFits(col, height)
    ensures var d := DenoiseColumn(col);
      && d.name == col.name && ColumnFits(d, height)
      && forall i :: 0 <= i < height && d.cells[i].Text? ==> NoNoise(d.cells[i].s)
  {
  }

  /** Step 3 keeps the name and the shape, and adds no text cell. */
  lemma NumericShape(col: Column, height: nat, parse: string -> Parsed)
    requires ColumnFits(col, height)
    requires forall i :: 0 <= i < height && col.cells[i].Text? ==> NoNoise(col.cells[i].s)
    ensures var n := NumericColumn(col, parse);
      && n.name == col.name && ColumnFits(n, height)
      && forall i :: 0 <= i < height && n.cells[i].Text? ==> NoNoise(n.cells[i].s)
  {
  }

  /** Step 4 keeps the name and the shape, adds no text cell, and gives a
      column named like a date the datetime dtype. */
  lemma DateShape(col: Column, height: nat, parseDate: Cell -> Option<Date>)
    requires ColumnFits(col, height)
    requires forall i :: 0 <= i < height && col.cells[i].Text? ==> NoNoise(col.cells[i].s)
    ensures var c := DateColumn(col, parseDate);
      && c.name == col.name && ColumnFits(c, height)
      && (forall i :: 0 <= i < height && c.cells[i].Text? ==> NoNoise(c.cells[i].s))
      && (IsDateName(c.name) ==> c.kind == DateKind)
  {
  }

  /** Cleaning never adds or removes rows or columns, keeps the table
      well formed, trims every name and leaves no noise in text cells. */
  lemma CleanShape(f: Frame, parse: string -> Parsed, parseDate: Cell -> Option<Date>)
    requires WellFormed(f)
    ensures var g := Clean(f, parse, parseDate);
      && g.height == f.height && |g.columns| == |f.columns|
      && WellFormed(g)
      && (forall j :: 0 <= j < |g.columns| ==> Trimmed(g.columns[j].name) && g.columns[j].name == Strip(f.columns[j].name))
      && forall j, i :: 0 <= j < |g.columns| && 0 <= i < g.height && g.columns[j].cells[i].Text? ==>
           NoNoise(g.columns[j].cells[i].s)
  {
    forall j | 0 <= j < |f.columns|
      ensures var c := CleanColumn(f.columns[j], parse, parseDate);
        && c.name == Strip(f.columns[j].name)
        && ColumnFits(c, f.height)
        && (forall i :: 0 <= i < f.height && c.cells[i].Text? ==> NoNoise(c.cells[i].s))
    {
      CleanColumnShape(f.columns[j], f.height, parse, parseDate);
    }
  }

  /** After cleaning, a column named like a date or a month holds only
      dates and NaT, one per row. */
  lemma CleanedDateColumn(f: Frame, parse: string -> Parsed, parseDate: Cell -> Option<Date>, j: nat)
    requires WellFormed(f) && j < |f.columns|
    ensures var c := Clean(f, parse, parseDate).columns[j];
      IsDateName(c.name) ==>
        c.kind == DateKind && |c.cells| == f.height && forall i :: 0 <= i < f.height ==> !c.cells[i].Text?
  {
    assert Clean(f, parse, parseDate).columns[j] == CleanColumn(f.columns[j], parse, parseDate);
    CleanedDateCells(f.columns[j], f.height, parse, parseDate);
  }

  lemma CleanedDateCells(col: Column, height: nat, parse: string -> Parsed, parseDate: Cell -> Option<Date>)
    requires ColumnFits(col, height)
    ensures var c := CleanColumn(col, parse, parseDate);
      IsDateName(c.name) ==>
        c.kind == DateKind && |c.cells| == height && forall i :: 0 <= i < height ==> !c.cells[i].Text?
  {
    var c := CleanColumn(col, parse, parseDate);
    CleanColumnShape(col, height, parse, parseDate);
    if IsDateName(c.name) {
      DateCellsNotText(c, height);
    }
  }

  /** A column of datetime dtype holds no text cell. */
  lemma DateCellsNotText(c: Column, height: nat)
    requires ColumnFits(c, height) && c.kind == DateKind
    ensures forall i :: 0 <= i < height ==> !c.cells[i].Text?
  {
    forall i | 0 <= i < height
      ensures !c.cells[i].Text?
    {
      assert Fits(DateKind, c.cells[i]);
    }
  }

  /** Cleaning a column twice is cleaning it once. */
  lemma CleanColumnIdempotent(col: Column, parse: string -> Parsed, parseDate: Cell -> Option<Date>)
    ensures CleanColumn(CleanColumn(col, parse, parseDate), parse, parseDate) == CleanColumn(col, parse, parseDate)
  {
    var c := CleanColumn(col, parse, parseDate);
    StripIdempotent(col.name);
    assert TrimName(c) == c;
    CleanedIsDenoised(col, parse, parseDate);
    CleanedIsNumeric(col, parse, parseDate);
  }

  /** A cleaned column has nothing left for step 2 to strip. */
  lemma CleanedIsDenoised(col: Column, parse: string -> Parsed, parseDate: Cell -> Option<Date>)
    ensures var c := CleanColumn(col, parse, parseDate);
      DenoiseColumn(c) == c
  {
    var t := TrimName(col);
    var d := DenoiseColumn(t);
    var c := CleanColumn(col, parse, parseDate);
    if c.kind == TextKind {
      assert c == d;
      forall i | 0 <= i < |c.cells|
        ensures DenoiseCell(c.cells[i]) == c.cells[i]
      {
        if c.cells[i].Text? {
          StripNoiseIdempotent(t.cells[i].s);
        }
      }
      assert DenoiseColumn(c).cells == c.cells;
    }
  }

  /** A cleaned column is left alone by step 3. */
  lemma CleanedIsNumeric(col: Column, parse: string -> Parsed, parseDate: Cell -> Option<Date>)
    ensures var c := CleanColumn(col, parse, parseDate);
      NumericColumn(c, parse) == c
  {
    var d := DenoiseColumn(TrimName(col));
    var c := CleanColumn(col, parse, parseDate);
    if c.kind == TextKind {
      assert c == d && NumericColumn(d, parse) == d;
    }
  }

  /** `clean_dataframe` is idempotent. */
  lemma CleanIdempotent(f: Frame, parse: string -> Parsed, parseDate: Cell -> Option<Date>)
    ensures Clean(Clean(f, parse, parseDate), parse, parseDate) == Clean(f, parse, parseDate)
  {
    var g := Clean(f, parse, parseDate);
    forall j | 0 <= j < |f.columns|
      ensures CleanColumn(g.columns[j], parse, parseDate) == g.columns[j]
    {
      CleanColumnIdempotent(f.columns[j], parse, parseDate);
    }
  }

  // ---------------------------------------------------------------------
  // The frame object and its in-place cleaning
  // ---------------------------------------------------------------------

  /** A pandas DataFrame: `clean_dataframe` reassigns its column index and
      overwrites its columns in place. */
  class DataFrame {
    var columns: seq<Column>
    var height: nat

    function Value(): Frame
      reads this
    {
      Frame(columns, height)
    }

    constructor (f: Frame)
      ensures Value() == f
    {
      columns := f.columns;
      height := f.height;
    }

    /** `df.columns = df.columns.str.strip()`. */
    method StripColumnNames()
      modifies this
      ensures Value() == MapColumns(old(Value()), TrimName)
    {
      columns := MapColumns(Value(), TrimName).columns;
    }

    /** The first loop: overwrite every text column with its denoised cells. */
    method StripNoiseCells()
      modifies this
      ensures Value() == MapColumns(old(Value()), DenoiseColumn)
    {
      var j := 0;
      while j < |columns|
        invariant 0 <= j <= |columns| == |old(columns)| && height == old(height)
        invariant forall j' :: 0 <= j' < j ==> columns[j'] == DenoiseColumn(old(columns)[j'])
        invariant forall j' :: j <= j' < |columns| ==> columns[j'] == old(columns)[j']
      {
        if columns[j].kind == TextKind {
          columns := columns[j := DenoiseColumn(columns[j])];
        }
        j := j + 1;
      }
    }

    /** The second loop: `pd.to_numeric(errors="ignore")` on every column. */
    method ToNumeric(parse: string -> Parsed)
      modifies this
      ensures Value() == MapColumns(old(Value()), col => NumericColumn(col, parse))
    {
      var j := 0;
      while j < |columns|
        invariant 0 <= j <= |columns| == |old(columns)| && height == old(height)
        invariant forall j' :: 0 <= j' < j ==> columns[j'] == NumericColumn(old(columns)[j'], parse)
        invariant forall j' :: j <= j' < |columns| ==> columns[j'] == old(columns)[j']
      {
        columns := columns[j := NumericColumn(columns[j], parse)];
        j := j + 1;
      }
    }

    /** The third loop: `pd.to_datetime(errors="coerce")` on every column
        whose lower-cased name contains "date" or "month". */
    method ToDates(parseDate: Cell -> Option<Date>)
      modifies this
      ensures Value() == MapColumns(old(Value()), col => DateColumn(col, parseDate))
    {
      var j := 0;
      while j < |columns|
        invariant 0 <= j <= |columns| == |old(columns)| && height == old(height)
        invariant forall j' :: 0 <= j' < j ==> columns[j'] == DateColumn(old(columns)[j'], parseDate)
        invariant forall j' :: j <= j' < |columns| ==> columns[j'] == old(columns)[j']
      {
        if IsDateName(columns[j].name) {
          columns := columns[j := DateColumn(columns[j], parseDate)];
        }
        j := j + 1;
      }
    }

    /** `clean_dataframe(df)`: the four steps in order, on this frame. */
    method CleanInPlace(parse: string -> Parsed, parseDate: Cell -> Option<Date>)
      modifies this
      ensures Value() == Clean(old(Value()), parse, parseDate)
    {
      StripColumnNames();
      StripNoiseCells();
      ToNumeric(parse);
      ToDates(parseDate);
    }
  }

  /** `convert_to_dataframe(items)`: build the rows, then the frame. */
  method ConvertToDataFrame(items: seq<Item>) returns (df: DataFrame)
    ensures fresh(df)
    ensures df.Value() == Converted(items)
  {
    var records := BuildRecords(items);
    assert records == RowsOf(items);
    df := new DataFrame(FromRecords(records));
  }
}
