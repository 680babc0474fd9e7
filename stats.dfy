/** The column arithmetic both variants share: successive differences
    (`diff`), dropping the leading missing value (`dropna`), the trailing
    window (`tail`) and the mean, all in exact real arithmetic. */
module Stats {
  import opened Common

  function Sum(s: seq<real>): real
  {
    if s == [] then 0.0 else s[0] + Sum(s[1..])
  }

  /** pandas' `mean`: the arithmetic mean, or NaN (`None`) when there is
      nothing to average. */
  function Mean(s: seq<real>): (m: Option<real>)
    ensures m.Some? <==> |s| > 0
  {
    if |s| == 0 then None else Some(Sum(s) / |s| as real)
  }

  /** The mean times the number of values is their sum. */
  lemma MeanTimesCount(s: seq<real>)
    requires |s| > 0
    ensures Mean(s).value * (|s| as real) == Sum(s)
  {
  }

  /** The period-over-period changes of a balance column: one fewer than
      there are balances, the i-th being the step from balance i to i+1. */
  function Changes(b: seq<real>): (c: seq<real>)
    ensures |c| == if |b| == 0 then 0 else |b| - 1
    ensures forall i :: 0 <= i < |c| ==> c[i] == b[i + 1] - b[i]
  {
    if |b| < 2 then [] else [b[1] - b[0]] + Changes(b[1..])
  }

  /** pandas' `diff` on a column: missing in the first row, the change from
      the previous row everywhere else. */
  function DiffColumn(b: seq<real>): seq<Option<real>>
  {
    seq(|b|, i requires 0 <= i < |b| => if i == 0 then None else Some(b[i] - b[i - 1]))
  }

  /** pandas' `dropna`: the present values, in order. */
  function DropNa(col: seq<Option<real>>): seq<real>
  {
    if col == [] then []
    else (if col[0].Some? then [col[0].value] else []) + DropNa(col[1..])
  }

  /** pandas' `tail(k)`: the last `min(k, n)` entries, in order. */
  function Tail<T>(s: seq<T>, k: nat): (t: seq<T>)
    ensures |t| == Min(k, |s|)
  {
    s[|s| - Min(k, |s|)..]
  }

  lemma {:induction false} DropNaAllPresent(col: seq<Option<real>>)
    requires forall i :: 0 <= i < |col| ==> col[i].Some?
    ensures |DropNa(col)| == |col|
    ensures forall i :: 0 <= i < |col| ==> DropNa(col)[i] == col[i].value
  {
    if col != [] {
      DropNaAllPresent(col[1..]);
    }
  }

  /** Dropping the missing entries of the `diff` column leaves exactly the
      successive changes: the first row contributes nothing. */
  lemma {:induction false} DropNaOfDiff(b: seq<real>)
    ensures DropNa(DiffColumn(b)) == Changes(b)
  {
    var col := DiffColumn(b);
    if |b| > 0 {
      assert col == [None] + col[1..];
      assert DropNa(col) == DropNa(col[1..]);
      var rest := col[1..];
      DropNaAllPresent(rest);
      var d, c := DropNa(rest), Changes(b);
      assert |d| == |c|;
      forall i | 0 <= i < |d| ensures d[i] == c[i] {
        assert rest[i] == col[i + 1] == Some(b[i + 1] - b[i]);
      }
    }
  }

  /** The changes of a suffix are the suffix of the changes. */
  lemma {:induction false} ChangesOfSuffix(b: seq<real>, j: nat)
    requires j < |b|
    ensures Changes(b)[j..] == Changes(b[j..])
  {
    var c, d := Changes(b)[j..], Changes(b[j..]);
    assert |c| == |d|;
    forall i | 0 <= i < |c| ensures c[i] == d[i] {
      assert b[j..][i + 1] == b[j + i + 1];
    }
  }

  /** Telescoping: the changes of a non-empty series add up to its last
      balance minus its first. */
  lemma {:induction false} ChangesTelescope(b: seq<real>)
    requires |b| > 0
    ensures Sum(Changes(b)) == b[|b| - 1] - b[0]
  {
    if |b| >= 2 {
      ChangesTelescope(b[1..]);
      assert Changes(b) == [b[1] - b[0]] + Changes(b[1..]);
    }
  }

  /** The last `k` changes add up to the last balance minus the balance
      `min(k, n - 1)` rows before it. */
  lemma TrailingChangesTelescope(b: seq<real>, k: nat)
    requires |b| > 0
    ensures Sum(Tail(Changes(b), k)) == b[|b| - 1] - b[|b| - 1 - Min(k, |b| - 1)]
  {
    var j := |b| - 1 - Min(k, |b| - 1);
    ChangesOfSuffix(b, j);
    ChangesTelescope(b[j..]);
  }
}
