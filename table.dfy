/** Rows of the uploaded sheet and the strict coercion of its date column. */
module Table {
  import opened Common

  /** A cell of the date column as the spreadsheet reader delivers it:
      either a timestamp already (modelled by its ordered key) or text that
      still has to be parsed. */
  datatype Cell = Stamp(key: int) | Text(text: string)

  /** A cell of any other column. */
  datatype Value = Str(s: string) | Num(x: real) | Missing

  /** A row of the sheet: its date cell, its cash balance, and the cells of
      the remaining columns, which are carried along but never inspected. */
  datatype RawRow = RawRow(date: Cell, balance: real, other: seq<Value>)

  /** A row whose date has been coerced to its ordered key. */
  datatype Row = Row(date: int, balance: real, other: seq<Value>)

  /** A row restricted to the date and balance columns. */
  datatype Point = Point(date: int, balance: real)

  /** The date parser that `pd.to_datetime` applies to a text cell. */
  type Parser = string -> Option<int>

  function CoerceCell(c: Cell, parse: Parser): Option<int>
  {
    match c
    case Stamp(k) => Some(k)
    case Text(t) => parse(t)
  }

  predicate Coercible(r: RawRow, parse: Parser)
  {
    CoerceCell(r.date, parse).Some?
  }

  predicate AllCoercible(s: seq<RawRow>, parse: Parser)
  {
    forall i :: 0 <= i < |s| ==> Coercible(s[i], parse)
  }

  function CoerceRow(r: RawRow, parse: Parser): Row
    requires Coercible(r, parse)
  {
    Row(CoerceCell(r.date, parse).value, r.balance, r.other)
  }

  /** The rows with their dates coerced, in the same order. */
  function CoercedRows(s: seq<RawRow>, parse: Parser): (t: seq<Row>)
    requires AllCoercible(s, parse)
    ensures |t| == |s|
    ensures forall i :: 0 <= i < |s| ==> t[i] == CoerceRow(s[i], parse)
  {
    if s == [] then [] else [CoerceRow(s[0], parse)] + CoercedRows(s[1..], parse)
  }

  /** Strict coercion of the whole date column: one cell that does not
      parse fails the whole operation, otherwise every row keeps its
      balance and other cells and gets the parsed date. */
  function CoerceDates(s: seq<RawRow>, parse: Parser): (r: Result<seq<Row>>)
    ensures r.Failure? <==> exists i :: 0 <= i < |s| && CoerceCell(s[i].date, parse).None?
    ensures r.Failure? ==> r.error == DateParseError
    ensures r.Success? ==> |r.value| == |s|
    ensures r.Success? ==> forall i :: 0 <= i < |s| ==>
              Some(r.value[i].date) == CoerceCell(s[i].date, parse)
              && r.value[i].balance == s[i].balance && r.value[i].other == s[i].other
  {
    if AllCoercible(s, parse) then Success(CoercedRows(s, parse)) else Failure(DateParseError)
  }

  /** The balance column of a series. */
  function Balances(s: seq<Row>): (b: seq<real>)
    ensures |b| == |s|
    ensures forall i :: 0 <= i < |s| ==> b[i] == s[i].balance
  {
    if s == [] then [] else [s[0].balance] + Balances(s[1..])
  }

  /** The first and last balances of a non-empty series. */
  lemma BalancesEnds(s: seq<Row>)
    requires |s| > 0
    ensures Balances(s)[|Balances(s)| - 1] == s[|s| - 1].balance
    ensures Balances(s)[0] == s[0].balance
  {
  }

  /** A series restricted to its date and balance columns. */
  function Project(s: seq<Row>): (p: seq<Point>)
    ensures |p| == |s|
    ensures forall i :: 0 <= i < |s| ==> p[i] == Point(s[i].date, s[i].balance)
  {
    if s == [] then [] else [Point(s[0].date, s[0].balance)] + Project(s[1..])
  }

  /** The rows as they stand in the frame once the date column has been
      overwritten with timestamps. */
  function Stamped(s: seq<Row>): (t: seq<RawRow>)
    ensures |t| == |s|
    ensures forall i :: 0 <= i < |s| ==> t[i] == RawRow(Stamp(s[i].date), s[i].balance, s[i].other)
  {
    if s == [] then [] else [RawRow(Stamp(s[0].date), s[0].balance, s[0].other)] + Stamped(s[1..])
  }

  predicate AllStamped(s: seq<RawRow>)
  {
    forall i :: 0 <= i < |s| ==> s[i].date.Stamp?
  }

  /** Rows whose date cells are all timestamps, read as coerced rows. */
  function Typed(s: seq<RawRow>): (t: seq<Row>)
    requires AllStamped(s)
    ensures |t| == |s|
    ensures forall i :: 0 <= i < |s| ==> t[i] == Row(s[i].date.key, s[i].balance, s[i].other)
  {
    if s == [] then [] else [Row(s[0].date.key, s[0].balance, s[0].other)] + Typed(s[1..])
  }

  /** Rows that agree on date and balance look the same once restricted
      to those two columns. */
  lemma ProjectIgnoresOtherColumns(s: seq<RawRow>, t: seq<RawRow>)
    requires AllStamped(s) && |s| == |t|
    requires forall i :: 0 <= i < |s| ==> t[i].date == s[i].date && t[i].balance == s[i].balance
    ensures AllStamped(t) && Project(Typed(t)) == Project(Typed(s))
  {
  }

  /** Overwriting the date column with timestamps loses nothing: coercing
      again, with any parser, gives back the same rows. */
  lemma StampedRoundTrip(s: seq<Row>, parse: Parser)
    ensures AllStamped(Stamped(s)) && Typed(Stamped(s)) == s
    ensures AllCoercible(Stamped(s), parse) && CoercedRows(Stamped(s), parse) == s
  {
  }

  lemma {:induction false} CoercedRowsAppend(a: seq<RawRow>, b: seq<RawRow>, parse: Parser)
    requires AllCoercible(a, parse) && AllCoercible(b, parse)
    ensures AllCoercible(a + b, parse)
    ensures CoercedRows(a + b, parse) == CoercedRows(a, parse) + CoercedRows(b, parse)
  {
  }

  /** Coercion does not depend on the order of the rows: a permutation of
      the rows coerces exactly when the rows do, to a permutation of the
      coerced rows. */
  lemma {:induction false} CoercionPermutes(s: seq<RawRow>, t: seq<RawRow>, parse: Parser)
    requires multiset(s) == multiset(t)
    ensures AllCoercible(s, parse) <==> AllCoercible(t, parse)
    ensures AllCoercible(s, parse) ==>
              multiset(CoercedRows(s, parse)) == multiset(CoercedRows(t, parse))
  {
    CoercibleByMembership(s, t, parse);
    if AllCoercible(s, parse) {
      CoercedPermutes(s, t, parse);
    }
  }

  lemma CoercibleByMembership(s: seq<RawRow>, t: seq<RawRow>, parse: Parser)
    requires multiset(s) == multiset(t)
    ensures AllCoercible(s, parse) <==> AllCoercible(t, parse)
  {
    if AllCoercible(s, parse) { CoercibleTransfers(s, t, parse); }
    if AllCoercible(t, parse) { CoercibleTransfers(t, s, parse); }
  }

  lemma CoercibleTransfers(s: seq<RawRow>, t: seq<RawRow>, parse: Parser)
    requires multiset(s) == multiset(t)
    requires AllCoercible(s, parse)
    ensures AllCoercible(t, parse)
  {
    forall i | 0 <= i < |t| ensures Coercible(t[i], parse) {
      assert t[i] in multiset(s);
      var k :| 0 <= k < |s| && s[k] == t[i];
    }
  }

  lemma {:induction false} CoercedPermutes(s: seq<RawRow>, t: seq<RawRow>, parse: Parser)
    requires multiset(s) == multiset(t)
    requires AllCoercible(s, parse) && AllCoercible(t, parse)
    ensures multiset(CoercedRows(s, parse)) == multiset(CoercedRows(t, parse))
    decreases |s|
  {
    if s == [] {
      assert |t| == |multiset(t)| == 0;
    } else {
      var x := s[0];
      assert x in multiset(t);
      var j :| 0 <= j < |t| && t[j] == x;
      var rest := RemovedAt(t, j);
      HeadRemoved(s, rest, multiset(t));
      CoercibleTransfers(s[1..], rest, parse);
      CoercedPermutes(s[1..], rest, parse);
      CoercedRemovedAt(t, j, parse);
      CoercedHead(s, parse);
    }
  }

  lemma CoercedHead(s: seq<RawRow>, parse: Parser)
    requires s != [] && AllCoercible(s, parse)
    ensures AllCoercible(s[1..], parse)
    ensures multiset(CoercedRows(s, parse))
         == multiset(CoercedRows(s[1..], parse)) + multiset{CoerceRow(s[0], parse)}
  {
    assert CoercedRows(s, parse) == [CoerceRow(s[0], parse)] + CoercedRows(s[1..], parse);
  }

  /** Cancelling the first element of `s` from both sides of a multiset equation. */
  lemma HeadRemoved<T>(s: seq<T>, rest: seq<T>, m: multiset<T>)
    requires s != [] && multiset(s) == m && m == multiset(rest) + multiset{s[0]}
    ensures multiset(s[1..]) == multiset(rest)
  {
    assert s == [s[0]] + s[1..];
    assert multiset(s) == multiset{s[0]} + multiset(s[1..]);
    forall y ensures multiset(s[1..])[y] == multiset(rest)[y] {
      assert multiset(s)[y] == m[y];
    }
  }

  function RemovedAt<T>(t: seq<T>, j: nat): (r: seq<T>)
    requires j < |t|
    ensures multiset(t) == multiset(r) + multiset{t[j]}
  {
    assert t == t[..j] + [t[j]] + t[j+1..];
    t[..j] + t[j+1..]
  }

  lemma CoercedRemovedAt(t: seq<RawRow>, j: nat, parse: Parser)
    requires j < |t| && AllCoercible(t, parse)
    ensures AllCoercible(RemovedAt(t, j), parse)
    ensures multiset(CoercedRows(t, parse))
         == multiset(CoercedRows(RemovedAt(t, j), parse)) + multiset{CoerceRow(t[j], parse)}
  {
    var pre, mid, post := t[..j], [t[j]], t[j+1..];
    SplitAt(t, j);
    assert AllCoercible(pre, parse) && AllCoercible(post, parse) && AllCoercible(mid, parse);
    CoercedRowsAppend(pre, post, parse);
    CoercedRowsAppend(pre, mid, parse);
    CoercedRowsAppend(pre + mid, post, parse);
    var cp, cm, cq := CoercedRows(pre, parse), CoercedRows(mid, parse), CoercedRows(post, parse);
    assert CoercedRows(t, parse) == cp + cm + cq;
    assert CoercedRows(RemovedAt(t, j), parse) == cp + cq;
    assert cm == [CoerceRow(t[j], parse)];
    SumOfThree(cp, cm, cq);
  }

  lemma SumOfThree<T>(a: seq<T>, b: seq<T>, c: seq<T>)
    ensures multiset(a + b + c) == multiset(a + c) + multiset(b)
  {
  }

  lemma SplitAt<T>(t: seq<T>, j: nat)
    requires j < |t|
    ensures t == t[..j] + [t[j]] + t[j+1..]
  {
  }
}
