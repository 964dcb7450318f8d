/**
 * Tables before and after date-key normalisation. A sheet is what
 * `pd.read_excel` returns: named columns and rows of cells. Normalisation adds a
 * `datetime` column built row by row from the date-part columns, makes it the
 * index (`set_index`) and drops the date-part columns; every other cell stays.
 */
module Frames {
  import opened Outcomes
  import opened Dates

  /** A spreadsheet cell: an integer, a text, or a floating-point value kept opaque. */
  datatype Cell<V> = Int(n: int) | Text(s: string) | Float(v: V)

  /** A sheet as read: column names in order, and per row the cells by column name (a column missing from a row is an empty cell). */
  datatype Sheet<V> = Sheet(columns: seq<string>, rows: seq<map<string, Cell<V>>>)

  /** A normalised row: its date key, and the cells of the value columns. */
  datatype Row<V> = Row(key: Date, cells: map<string, Cell<V>>)

  /** A table indexed by date; `columns` are its value columns. */
  datatype Table<V> = Table(columns: seq<string>, rows: seq<Row<V>>)

  /** How a family lays out dates in its sheets. */
  datatype DateLayout =
    | YearMonthDay   // integer columns year, month, day
    | YearMonth      // integer columns year, month; the day is the first
    | MonthYear      // one "Month/Year" text column, "MM/YYYY"

  const KeyColumn := "datetime"

  function DatePartColumns(layout: DateLayout): seq<string> {
    match layout
    case YearMonthDay => ["year", "month", "day"]
    case YearMonth => ["year", "month"]
    case MonthYear => ["Month/Year"]
  }

  /** Columns that do not survive normalisation: the date parts, dropped, and `datetime`, moved to the index. */
  function Removed(layout: DateLayout): seq<string> {
    DatePartColumns(layout) + [KeyColumn]
  }

  /**
   * The text a date-part cell contributes. For the integer layouts this is
   * `f"{cell}"`: a float renders with a decimal point ("2020.0") and an
   * empty cell as "nan", and no format of the package accepts either, so
   * both are modelled as None. The "Month/Year" cell goes to `to_datetime`
   * as it is; a text is parsed, and anything else is modelled as None,
   * although `to_datetime` turns a missing cell into NaT instead of raising.
   */
  function CellText<V>(row: map<string, Cell<V>>, column: string): Option<string> {
    if column !in row then None
    else
      match row[column]
      case Int(n) => Some(IntText(n))
      case Text(s) => Some(s)
      case Float(_) => None
  }

  /** The text each family hands to `to_datetime` for one row. */
  function DateText<V>(layout: DateLayout, row: map<string, Cell<V>>): Option<string> {
    match layout
    case YearMonthDay =>
      var y, m, d := CellText(row, "year"), CellText(row, "month"), CellText(row, "day");
      if y.None? || m.None? || d.None? then None else Some(y.value + "-" + m.value + "-" + d.value)
    case YearMonth =>
      var y, m := CellText(row, "year"), CellText(row, "month");
      if y.None? || m.None? then None else Some(y.value + "-" + m.value + "-01")
    case MonthYear =>
      CellText(row, "Month/Year")
  }

  /** The strptime format each family parses its texts with (for YearMonth, the intended one: see the Illiquidity module). */
  function DateFormat(layout: DateLayout): seq<Directive> {
    match layout
    case YearMonthDay => YearMonthDayFormat
    case YearMonth => YearMonthDayFormat
    case MonthYear => MonthYearFormat
  }

  /**
   * The date key of one row, or None when `to_datetime` rejects its text.
   * Every key has a month in 1..12 and a day in 1..31, and a "Month/Year"
   * key, whose format reads no day, is the first of its month.
   */
  function RowKey<V>(layout: DateLayout, row: map<string, Cell<V>>): (r: Option<Date>)
    ensures r.Some? ==> 1 <= r.value.month <= 12 && 1 <= r.value.day <= 31
    ensures r.Some? && layout == MonthYear ==> r.value.day == 1
  {
    var t := DateText(layout, row);
    if t.None? then None
    else
      var r := ParseDate(DateFormat(layout), t.value);
      assert r.Some? ==> FieldOf(r.value, Month) == r.value.month && FieldOf(r.value, Day) == r.value.day;
      assert Number(Month) in DateFormat(layout);
      assert layout != MonthYear ==> Number(Day) in DateFormat(layout);
      assert layout == MonthYear ==> Number(Day) !in DateFormat(layout);
      r
  }

  /** All the values of `xs`, or None when one of them is missing. */
  function Collect<T>(xs: seq<Option<T>>): (r: Option<seq<T>>)
    ensures r.Some? <==> forall i :: 0 <= i < |xs| ==> xs[i].Some?
    ensures r.Some? ==> |r.value| == |xs| && forall i :: 0 <= i < |xs| ==> Some(r.value[i]) == xs[i]
  {
    if xs == [] then Some([])
    else
      var rest := Collect(xs[1..]);
      if xs[0].None? then None
      else if rest.None? then
        assert exists j :: 0 <= j < |xs[1..]| && xs[1..][j].None?;
        None
      else
        Some([xs[0].value] + rest.value)
  }

  /** The date keys of all rows, built row by row; None when some row has none. */
  function Keys<V>(layout: DateLayout, rows: seq<map<string, Cell<V>>>): (r: Option<seq<Date>>)
    ensures r.Some? <==> forall i :: 0 <= i < |rows| ==> RowKey(layout, rows[i]).Some?
    ensures r.Some? ==> |r.value| == |rows|
    ensures r.Some? ==> forall i :: 0 <= i < |rows| ==> Some(r.value[i]) == RowKey(layout, rows[i])
  {
    var ks := RowKeys(layout, rows);
    var r := Collect(ks);
    assert forall i :: 0 <= i < |rows| ==> ks[i] == RowKey(layout, rows[i]);
    r
  }

  function RowKeys<V>(layout: DateLayout, rows: seq<map<string, Cell<V>>>): (r: seq<Option<Date>>)
    ensures |r| == |rows| && forall i :: 0 <= i < |rows| ==> r[i] == RowKey(layout, rows[i])
  {
    seq(|rows|, i requires 0 <= i < |rows| => RowKey(layout, rows[i]))
  }

  /** The first of `required` absent from `columns` (where `df.year` or `df["Month/Year"]` raises). */
  function FirstMissing(required: seq<string>, columns: seq<string>): (r: Option<string>)
    ensures r.None? <==> forall c :: c in required ==> c in columns
    ensures r.Some? ==> r.value in required && r.value !in columns
  {
    if required == [] then None
    else if required[0] !in columns then Some(required[0])
    else
      var r := FirstMissing(required[1..], columns);
      assert forall c :: c in required ==> c == required[0] || c in required[1..];
      r
  }

  /** The columns of `columns` not in `drop`. */
  function Without(columns: seq<string>, drop: seq<string>): (r: seq<string>)
    ensures forall c :: c in r <==> c in columns && c !in drop
  {
    if columns == [] then []
    else
      var rest := Without(columns[1..], drop);
      assert forall c :: c in columns <==> c == columns[0] || c in columns[1..];
      if columns[0] in drop then rest else [columns[0]] + rest
  }

  /** A row's cells without the removed columns. */
  function KeepCells<V>(row: map<string, Cell<V>>, drop: seq<string>): map<string, Cell<V>> {
    map c | c in row && c !in drop :: row[c]
  }

  /** Attaches each key to the remaining cells of its row. */
  function IndexRows<V>(keys: seq<Date>, rows: seq<map<string, Cell<V>>>, drop: seq<string>): (r: seq<Row<V>>)
    requires |keys| == |rows|
    ensures |r| == |rows|
    ensures forall i :: 0 <= i < |rows| ==> r[i] == Row(keys[i], KeepCells(rows[i], drop))
  {
    if rows == [] then [] else [Row(keys[0], KeepCells(rows[0], drop))] + IndexRows(keys[1..], rows[1..], drop)
  }

  /**
   * Lines that set the index: build the keys, `set_index(["datetime"])`,
   * `drop(<date-part columns>)`. Fails where the source raises: a missing
   * date-part column, or a text `to_datetime` rejects.
   */
  function Normalize<V>(sheet: Sheet<V>, layout: DateLayout): (r: Result<Table<V>>)
    ensures r.Ok? <==>
              (forall c :: c in DatePartColumns(layout) ==> c in sheet.columns) &&
              (forall i :: 0 <= i < |sheet.rows| ==> RowKey(layout, sheet.rows[i]).Some?)
    ensures r.Err? ==> r.error.UnparsableDate? || r.error.MissingColumn?
    ensures r.Err? && r.error.MissingColumn? ==>
              r.error.column in DatePartColumns(layout) && r.error.column !in sheet.columns
    ensures r.Ok? ==> |r.value.rows| == |sheet.rows|
    ensures r.Ok? ==> forall c :: c in r.value.columns <==> c in sheet.columns && c !in Removed(layout)
    ensures r.Ok? ==> forall i :: 0 <= i < |sheet.rows| ==> Some(r.value.rows[i].key) == RowKey(layout, sheet.rows[i])
    ensures r.Ok? ==> forall i, c :: 0 <= i < |sheet.rows| ==>
              (c in r.value.rows[i].cells <==> c in sheet.rows[i] && c !in Removed(layout)) &&
              (c in r.value.rows[i].cells ==> r.value.rows[i].cells[c] == sheet.rows[i][c])
  {
    var missing := FirstMissing(DatePartColumns(layout), sheet.columns);
    if missing.Some? then Err(MissingColumn(missing.value))
    else
      var keys := Keys(layout, sheet.rows);
      if keys.None? then Err(UnparsableDate)
      else
        Ok(Table(Without(sheet.columns, Removed(layout)), IndexRows(keys.value, sheet.rows, Removed(layout))))
  }

  // ---------------------------------------------------------------------------
  // What the key of a well-formed row is
  // ---------------------------------------------------------------------------

  /** The row's date-part cells denote `date` in the family's layout. */
  predicate Dated<V>(layout: DateLayout, row: map<string, Cell<V>>, date: Date) {
    match layout
    case YearMonthDay =>
      && ValidParts(date.year, date.month, date.day)
      && "year" in row && row["year"] == Int(date.year)
      && "month" in row && row["month"] == Int(date.month)
      && "day" in row && row["day"] == Int(date.day)
    case YearMonth =>
      && ValidParts(date.year, date.month, date.day) && date.day == 1
      && "year" in row && row["year"] == Int(date.year)
      && "month" in row && row["month"] == Int(date.month)
    case MonthYear =>
      && ValidParts(date.year, date.month, date.day) && date.day == 1
      && "Month/Year" in row && row["Month/Year"] == Text(MonthYearLabel(date.month, date.year))
  }

  /** A row whose parts denote a date gets that date as its key. */
  lemma RowKeyOfDated<V>(layout: DateLayout, row: map<string, Cell<V>>, date: Date)
    requires Dated(layout, row, date)
    ensures RowKey(layout, row) == Some(date)
  {
    match layout
    case YearMonthDay =>
      assert DateText(layout, row) == Some(YearMonthDayText(date.year, date.month, date.day));
      YearMonthDayRoundTrip(date.year, date.month, date.day);
    case YearMonth =>
      assert DateText(layout, row) == Some(YearMonthFirstText(date.year, date.month));
      YearMonthFirstRoundTrip(date.year, date.month);
    case MonthYear =>
      MonthYearLabelRoundTrip(date.month, date.year);
  }

  /** Integer year/month/day cells give a key exactly when they are in range, and the key is their date. */
  lemma RowKeyOfIntParts<V>(row: map<string, Cell<V>>, y: int, m: int, d: int)
    requires "year" in row && row["year"] == Int(y)
    requires "month" in row && row["month"] == Int(m)
    requires "day" in row && row["day"] == Int(d)
    ensures RowKey(YearMonthDay, row) == if ValidParts(y, m, d) then Some(Date(y, m, d)) else None
  {
    assert DateText(YearMonthDay, row) == Some(YearMonthDayText(y, m, d));
    YearMonthDayRoundTrip(y, m, d);
  }

  /** Integer year/month cells with the day fixed at "01" give a key exactly when they are in range, and the key is the first of that month. */
  lemma RowKeyOfYearMonthInts<V>(row: map<string, Cell<V>>, y: int, m: int)
    requires "year" in row && row["year"] == Int(y)
    requires "month" in row && row["month"] == Int(m)
    ensures RowKey(YearMonth, row) == if ValidParts(y, m, 1) then Some(Date(y, m, 1)) else None
  {
    assert DateText(YearMonth, row) == Some(YearMonthFirstText(y, m));
    YearMonthFirstRoundTrip(y, m);
  }

  /**
   * A sheet of integer year/month/day cells normalises exactly when it has
   * the three columns and every row is in range; then each key is its row's
   * date.
   */
  lemma NormalizeIntParts<V>(sheet: Sheet<V>)
    requires forall i :: 0 <= i < |sheet.rows| ==>
               "year" in sheet.rows[i] && sheet.rows[i]["year"].Int? && "month" in sheet.rows[i] && sheet.rows[i]["month"].Int? &&
               "day" in sheet.rows[i] && sheet.rows[i]["day"].Int?
    ensures Normalize(sheet, YearMonthDay).Ok? <==>
              && "year" in sheet.columns && "month" in sheet.columns && "day" in sheet.columns
              && forall i :: 0 <= i < |sheet.rows| ==>
                   ValidParts(sheet.rows[i]["year"].n, sheet.rows[i]["month"].n, sheet.rows[i]["day"].n)
    ensures Normalize(sheet, YearMonthDay).Ok? ==> forall i :: 0 <= i < |sheet.rows| ==>
              Normalize(sheet, YearMonthDay).value.rows[i].key
                == Date(sheet.rows[i]["year"].n, sheet.rows[i]["month"].n, sheet.rows[i]["day"].n)
  {
    forall i | 0 <= i < |sheet.rows|
      ensures RowKey(YearMonthDay, sheet.rows[i])
           == var y, m, d := sheet.rows[i]["year"].n, sheet.rows[i]["month"].n, sheet.rows[i]["day"].n;
              if ValidParts(y, m, d) then Some(Date(y, m, d)) else None
    {
      RowKeyOfIntParts(sheet.rows[i], sheet.rows[i]["year"].n, sheet.rows[i]["month"].n, sheet.rows[i]["day"].n);
    }
  }

  /**
   * A sheet of integer year/month cells normalises exactly when it has both
   * columns and every row is in range; then each key is the first of its
   * row's month.
   */
  lemma NormalizeYearMonthInts<V>(sheet: Sheet<V>)
    requires forall i :: 0 <= i < |sheet.rows| ==>
               "year" in sheet.rows[i] && sheet.rows[i]["year"].Int? && "month" in sheet.rows[i] && sheet.rows[i]["month"].Int?
    ensures Normalize(sheet, YearMonth).Ok? <==>
              && "year" in sheet.columns && "month" in sheet.columns
              && forall i :: 0 <= i < |sheet.rows| ==> ValidParts(sheet.rows[i]["year"].n, sheet.rows[i]["month"].n, 1)
    ensures Normalize(sheet, YearMonth).Ok? ==> forall i :: 0 <= i < |sheet.rows| ==>
              Normalize(sheet, YearMonth).value.rows[i].key == Date(sheet.rows[i]["year"].n, sheet.rows[i]["month"].n, 1)
  {
    forall i | 0 <= i < |sheet.rows|
      ensures RowKey(YearMonth, sheet.rows[i])
           == var y, m := sheet.rows[i]["year"].n, sheet.rows[i]["month"].n;
              if ValidParts(y, m, 1) then Some(Date(y, m, 1)) else None
    {
      RowKeyOfYearMonthInts(sheet.rows[i], sheet.rows[i]["year"].n, sheet.rows[i]["month"].n);
    }
  }

  /** A sheet whose every row denotes a date normalises, with those dates as keys, in order. */
  lemma NormalizeDated<V>(sheet: Sheet<V>, layout: DateLayout, dates: seq<Date>)
    requires forall c :: c in DatePartColumns(layout) ==> c in sheet.columns
    requires |dates| == |sheet.rows|
    requires forall i :: 0 <= i < |sheet.rows| ==> Dated(layout, sheet.rows[i], dates[i])
    ensures Normalize(sheet, layout).Ok?
    ensures forall i :: 0 <= i < |sheet.rows| ==> Normalize(sheet, layout).value.rows[i].key == dates[i]
  {
    forall i | 0 <= i < |sheet.rows|
      ensures RowKey(layout, sheet.rows[i]) == Some(dates[i])
    {
      RowKeyOfDated(layout, sheet.rows[i], dates[i]);
    }
  }
}
