/** The data frame both variants update in place: the caller's date and
    balance columns, plus the remaining columns by name. */
module Frames {
  import opened Common
  import opened Table
  import opened Sorting

  /** The first position of `name` among the column names. */
  function IndexOf(cols: seq<string>, name: string): (k: nat)
    requires name in cols
    ensures k < |cols| && cols[k] == name
    ensures forall j :: 0 <= j < k ==> cols[j] != name
  {
    if cols[0] == name then 0 else 1 + IndexOf(cols[1..], name)
  }

  /** A row's cells after `df[name] = ...` stores `v` in that row. */
  function Put(cols: seq<string>, cells: seq<Value>, name: string, v: Value): seq<Value>
    requires |cells| == |cols|
  {
    if name in cols then cells[IndexOf(cols, name) := v] else cells + [v]
  }

  /** A frame with columns `columns` and rows `rows` holds `series`, whose
      other cells are laid out by `cols`, with the column `name` set to
      `values`: replaced when `cols` has it, appended otherwise. Every date,
      balance and other cell of the series is kept, row for row. */
  ghost predicate HoldsWithColumn(columns: seq<string>, rows: seq<RawRow>, cols: seq<string>,
                                  series: seq<Row>, name: string, values: seq<Value>)
  {
    && columns == (if name in cols then cols else cols + [name])
    && |rows| == |series| == |values|
    && (forall i :: 0 <= i < |series| ==> |series[i].other| == |cols|)
    && forall i :: 0 <= i < |rows| ==>
         rows[i] == RawRow(Stamp(series[i].date), series[i].balance,
                           Put(cols, series[i].other, name, values[i]))
  }

  /** A numeric column as cells: NaN becomes a missing cell. */
  function NumberColumn(col: seq<Option<real>>): (vs: seq<Value>)
    ensures |vs| == |col|
    ensures forall i :: 0 <= i < |col| ==> vs[i] == (if col[i].Some? then Num(col[i].value) else Missing)
  {
    if col == [] then []
    else [if col[0].Some? then Num(col[0].value) else Missing] + NumberColumn(col[1..])
  }

  class Frame {
    /** Names of the columns other than the date and balance columns. */
    var columns: seq<string>
    var rows: seq<RawRow>

    /** Every row has one cell per named column. */
    ghost predicate Valid()
      reads this
    {
      forall i :: 0 <= i < |rows| ==> |rows[i].other| == |columns|
    }

    /** The cells of the named column, in row order. */
    ghost function Column(name: string): seq<Value>
      reads this
      requires Valid() && name in columns
    {
      var rs, k := rows, IndexOf(columns, name);
      seq(|rs|, i requires 0 <= i < |rs| => rs[i].other[k])
    }

    constructor (columns: seq<string>, rows: seq<RawRow>)
      requires forall i :: 0 <= i < |rows| ==> |rows[i].other| == |columns|
      ensures Valid() && this.columns == columns && this.rows == rows
    {
      this.columns := columns;
      this.rows := rows;
    }

    /** `df[date_col] = pd.to_datetime(df[date_col])`. When every cell
        parses, the date column now holds timestamps; otherwise the
        conversion raises before anything is stored. */
    method CoerceDateColumn(parse: Parser) returns (ok: bool)
      requires Valid()
      modifies this
      ensures Valid() && columns == old(columns)
      ensures ok == AllCoercible(old(rows), parse)
      ensures rows == if ok then Stamped(CoercedRows(old(rows), parse)) else old(rows)
    {
      ok := AllCoercible(rows, parse);
      if ok {
        rows := Stamped(CoercedRows(rows, parse));
      }
    }

    /** `df.sort_values(by=date_col)`: a new frame with the same columns and
        the rows in date order. */
    method SortValuesByDate() returns (sorted: Frame)
      requires Valid() && AllStamped(rows)
      ensures fresh(sorted) && sorted.Valid()
      ensures sorted.columns == columns
      ensures sorted.rows == Stamped(SortByDate(Typed(rows)))
    {
      var s := SortByDate(Typed(rows));
      forall i | 0 <= i < |s| ensures |s[i].other| == |columns| {
        assert s[i] in multiset(Typed(rows));
      }
      sorted := new Frame(columns, Stamped(s));
    }

    /** `df[name] = values`: the column of that name, if there is one, is
        overwritten in place, otherwise it is appended; the date, balance
        and every other column are untouched. */
    method SetColumn(name: string, values: seq<Value>)
      requires Valid() && |values| == |rows|
      modifies this
      ensures Valid()
      ensures columns == if name in old(columns) then old(columns) else old(columns) + [name]
      ensures |rows| == |old(rows)|
      ensures forall i :: 0 <= i < |rows| ==>
                rows[i] == old(rows[i]).(other := Put(old(columns), old(rows[i].other), name, values[i]))
      ensures name in columns && Column(name) == values
      ensures forall c :: c in old(columns) && c != name ==> c in columns && Column(c) == old(Column(c))
    {
      var cols, rs := columns, rows;
      rows := seq(|rs|, i requires 0 <= i < |rs| =>
                rs[i].(other := Put(cols, rs[i].other, name, values[i])));
      if name !in cols {
        columns := cols + [name];
      }
      forall c | c in cols && c != name ensures IndexOf(columns, c) == IndexOf(cols, c) {
        IndexOfPrefix(cols, columns, c);
      }
      if name !in cols {
        assert IndexOf(columns, name) == |cols| by { IndexOfAppended(cols, name); }
      }
    }
  }

  lemma {:induction false} IndexOfPrefix(cols: seq<string>, cols': seq<string>, c: string)
    requires c in cols && |cols| <= |cols'| && cols'[..|cols|] == cols
    ensures c in cols' && IndexOf(cols', c) == IndexOf(cols, c)
  {
    assert cols[0] == cols'[0];
    if cols[0] != c {
      assert cols[1..] == cols'[1..][..|cols| - 1];
      IndexOfPrefix(cols[1..], cols'[1..], c);
    }
  }

  lemma IndexOfAppended(cols: seq<string>, name: string)
    requires name !in cols
    ensures IndexOf(cols + [name], name) == |cols|
  {
  }
}
