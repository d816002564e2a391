/**
 * The dashboard's flow table: one row per contract with its per-trade
 * analysis, ordered by unusual score from highest to lowest (a stable sort,
 * so contracts of equal score keep their input order), and cut to the top 50.
 */
module Dashboard {
  import opened OptionRecords
  import opened FlowAnalyzer

  const TableLimit: nat := 50

  /** One row of the flow table; `delta` reads a column the frame does not
      have, so it is always the default 0. */
  datatype TableRow = TableRow(
    contractSymbol: string,
    optionType: string,
    strike: real,
    volume: int,
    totalPremium: real,
    impliedVolatility: real,
    delta: real,
    flowType: FlowType,
    unusualScore: real)

  /** The `option_type` text of a row. */
  function KindLabel(kind: OptionKind): string
  {
    match kind
    case Call => "call"
    case Put => "put"
    case Other(name) => name
  }

  function UpperChar(c: char): (u: char)
    ensures 'a' <= c <= 'z' ==> u as int == c as int - 32
    ensures !('a' <= c <= 'z') ==> u == c
  {
    if 'a' <= c <= 'z' then (c as int - 32) as char else c
  }

  /** `str.upper()` on ASCII letters; other characters are kept. */
  function ToUpper(s: string): (u: string)
    ensures |u| == |s|
    ensures forall i :: 0 <= i < |s| ==> u[i] == UpperChar(s[i])
  {
    seq(|s|, i requires 0 <= i < |s| => UpperChar(s[i]))
  }

  lemma UpperCaseLabels()
    ensures ToUpper(KindLabel(Call)) == "CALL"
    ensures ToUpper(KindLabel(Put)) == "PUT"
  {
  }

  /** The table row of one contract. */
  function TableRowOf(q: Quote): TableRow
  {
    var a := FlowAnalysisOf(q);
    TableRow(q.contract, ToUpper(KindLabel(q.kind)), q.strike, q.volume, q.totalPremium,
             q.impliedVolatility, 0.0, a.flowType, a.unusualScore)
  }

  /** The rows before sorting, in input order. */
  function TableRowsOf(rows: seq<Quote>): (t: seq<TableRow>)
    ensures |t| == |rows| && forall i :: 0 <= i < |rows| ==> t[i] == TableRowOf(rows[i])
  {
    seq(|rows|, i requires 0 <= i < |rows| => TableRowOf(rows[i]))
  }

  predicate Descending(s: seq<TableRow>)
  {
    forall i, j :: 0 <= i < j < |s| ==> s[i].unusualScore >= s[j].unusualScore
  }

  /** Places `x` after every row of score at least its own. */
  function InsertByScore(s: seq<TableRow>, x: TableRow): (r: seq<TableRow>)
    ensures multiset(r) == multiset(s) + multiset{x}
    ensures |r| == |s| + 1
  {
    if s == [] then [x]
    else
      assert s == [s[0]] + s[1..];
      if s[0].unusualScore >= x.unusualScore then [s[0]] + InsertByScore(s[1..], x)
      else [x] + s
  }

  /** `list.sort(key=unusual_score, reverse=True)`: a stable sort, modelled as
      insertion of each row, in input order, into the sorted prefix. */
  function SortByScore(s: seq<TableRow>): (r: seq<TableRow>)
    ensures multiset(r) == multiset(s)
    ensures |r| == |s|
  {
    if s == [] then []
    else
      assert s == s[..|s| - 1] + [s[|s| - 1]];
      InsertByScore(SortByScore(s[..|s| - 1]), s[|s| - 1])
  }

  /** A row scoring at least every row of a descending sequence can head it. */
  lemma ConsDescending(h: TableRow, rest: seq<TableRow>)
    requires Descending(rest)
    requires forall k :: 0 <= k < |rest| ==> h.unusualScore >= rest[k].unusualScore
    ensures Descending([h] + rest)
  {
    var r := [h] + rest;
    forall i, j | 0 <= i < j < |r|
      ensures r[i].unusualScore >= r[j].unusualScore
    {
      assert r[j] == rest[j - 1];
      if i > 0 {
        assert r[i] == rest[i - 1];
      }
    }
  }

  /** Inserting `x` below the head keeps the head on top. */
  lemma InsertBelowHead(s: seq<TableRow>, x: TableRow)
    requires Descending(s) && s != [] && s[0].unusualScore >= x.unusualScore
    ensures forall k :: 0 <= k < |InsertByScore(s[1..], x)| ==>
      s[0].unusualScore >= InsertByScore(s[1..], x)[k].unusualScore
  {
    var rest := InsertByScore(s[1..], x);
    forall k | 0 <= k < |rest|
      ensures s[0].unusualScore >= rest[k].unusualScore
    {
      var y := rest[k];
      assert y in multiset(rest);
      if y != x {
        assert y in multiset(s[1..]);
        var m :| 0 <= m < |s[1..]| && s[1..][m] == y;
        assert y == s[m + 1];
      }
    }
  }

  lemma {:induction false} InsertByScoreDescending(s: seq<TableRow>, x: TableRow)
    requires Descending(s)
    ensures Descending(InsertByScore(s, x))
  {
    if s == [] {
    } else if s[0].unusualScore >= x.unusualScore {
      assert Descending(s[1..]);
      InsertByScoreDescending(s[1..], x);
      InsertBelowHead(s, x);
      ConsDescending(s[0], InsertByScore(s[1..], x));
    } else {
      ConsDescending(x, s);
    }
  }

  /** The sorted rows run from the highest unusual score to the lowest. */
  lemma {:induction false} SortByScoreDescending(s: seq<TableRow>)
    ensures Descending(SortByScore(s))
  {
    if s != [] {
      SortByScoreDescending(s[..|s| - 1]);
      InsertByScoreDescending(SortByScore(s[..|s| - 1]), s[|s| - 1]);
    }
  }

  /** The rows of one score, in order. */
  function WithScore(s: seq<TableRow>, v: real): (r: seq<TableRow>)
    ensures |r| <= |s|
  {
    if s == [] then []
    else WithScore(s[..|s| - 1], v) + (if s[|s| - 1].unusualScore == v then [s[|s| - 1]] else [])
  }

  lemma {:induction false} WithScoreMembership(s: seq<TableRow>, v: real)
    ensures forall y :: y in WithScore(s, v) <==> y in s && y.unusualScore == v
  {
    if s != [] {
      var init := s[..|s| - 1];
      WithScoreMembership(init, v);
      assert forall y :: y in s <==> y in init || y == s[|s| - 1];
    }
  }

  lemma {:induction false} WithScoreConcat(a: seq<TableRow>, b: seq<TableRow>, v: real)
    ensures WithScore(a + b, v) == WithScore(a, v) + WithScore(b, v)
  {
    if b == [] {
      assert a + b == a;
    } else {
      var init := b[..|b| - 1];
      var last := b[|b| - 1];
      var tail := if last.unusualScore == v then [last] else [];
      assert (a + b)[..|a + b| - 1] == a + init;
      assert (a + b)[|a + b| - 1] == last;
      assert WithScore(a + b, v) == WithScore(a + init, v) + tail;
      WithScoreConcat(a, init, v);
      assert WithScore(b, v) == WithScore(init, v) + tail;
    }
  }

  /** The rows of a single row. */
  lemma WithScoreSingle(x: TableRow, v: real)
    ensures WithScore([x], v) == if x.unusualScore == v then [x] else []
  {
    assert [x][..0] == [];
  }

  /** No row of a descending sequence headed by a score below `v` has score `v`. */
  lemma NoneWithHigherScore(s: seq<TableRow>, v: real)
    requires Descending(s) && s != [] && s[0].unusualScore < v
    ensures WithScore(s, v) == []
  {
    forall y | y in s
      ensures y.unusualScore < v
    {
      var k :| 0 <= k < |s| && s[k] == y;
    }
    WithScoreMembership(s, v);
    if WithScore(s, v) != [] {
      assert WithScore(s, v)[0] in WithScore(s, v);
    }
  }

  lemma StableBelowHead(s: seq<TableRow>, x: TableRow, v: real)
    requires s != [] && s[0].unusualScore >= x.unusualScore
    requires WithScore(InsertByScore(s[1..], x), v) == WithScore(s[1..], v) + WithScore([x], v)
    ensures WithScore(InsertByScore(s, x), v) == WithScore(s, v) + WithScore([x], v)
  {
    var rest := InsertByScore(s[1..], x);
    calc {
      WithScore(InsertByScore(s, x), v);
      WithScore([s[0]] + rest, v);
      { WithScoreConcat([s[0]], rest, v); }
      WithScore([s[0]], v) + (WithScore(s[1..], v) + WithScore([x], v));
      (WithScore([s[0]], v) + WithScore(s[1..], v)) + WithScore([x], v);
      { WithScoreConcat([s[0]], s[1..], v); }
      WithScore([s[0]] + s[1..], v) + WithScore([x], v);
      { assert s == [s[0]] + s[1..]; }
      WithScore(s, v) + WithScore([x], v);
    }
  }

  lemma StableAboveHead(s: seq<TableRow>, x: TableRow, v: real)
    requires Descending(s) && s != [] && s[0].unusualScore < x.unusualScore
    ensures WithScore(InsertByScore(s, x), v) == WithScore(s, v) + WithScore([x], v)
  {
    assert InsertByScore(s, x) == [x] + s;
    WithScoreConcat([x], s, v);
    WithScoreSingle(x, v);
    if x.unusualScore == v {
      NoneWithHigherScore(s, v);
    }
  }

  lemma {:induction false} InsertByScoreStable(s: seq<TableRow>, x: TableRow, v: real)
    requires Descending(s)
    ensures WithScore(InsertByScore(s, x), v) == WithScore(s, v) + WithScore([x], v)
  {
    if s == [] {
      assert InsertByScore(s, x) == [x];
      assert [] + WithScore([x], v) == WithScore([x], v);
    } else if s[0].unusualScore >= x.unusualScore {
      assert Descending(s[1..]);
      InsertByScoreStable(s[1..], x, v);
      StableBelowHead(s, x, v);
    } else {
      StableAboveHead(s, x, v);
    }
  }

  /** Stability: the rows of any one score come out of the sort in the order
      they went in. */
  lemma {:induction false} SortByScoreStable(s: seq<TableRow>, v: real)
    ensures WithScore(SortByScore(s), v) == WithScore(s, v)
  {
    if s != [] {
      var init := s[..|s| - 1];
      var last := s[|s| - 1];
      SortByScoreStable(init, v);
      SortByScoreDescending(init);
      InsertByScoreStable(SortByScore(init), last, v);
      WithScoreSingle(last, v);
    }
  }

  /** The loop of the table builder: one row per contract, in input order,
      each carrying its per-trade analysis. */
  method BuildTableRows(rows: seq<Quote>) returns (tableRows: seq<TableRow>)
    ensures tableRows == TableRowsOf(rows)
  {
    tableRows := [];
    var i := 0;
    while i < |rows|
      invariant 0 <= i <= |rows|
      invariant |tableRows| == i
      invariant forall j :: 0 <= j < i ==> tableRows[j] == TableRowOf(rows[j])
    {
      var row := rows[i];
      var flowAnalysis := AnalyzeSingleTrade(row);
      var tableRow := TableRow(row.contract, ToUpper(KindLabel(row.kind)), row.strike, row.volume,
                               row.totalPremium, row.impliedVolatility, 0.0,
                               flowAnalysis.flowType, flowAnalysis.unusualScore);
      assert tableRow == TableRowOf(row);
      tableRows := tableRows + [tableRow];
      i := i + 1;
    }
  }

  /** Every row of `table` is the row of one of the contracts. */
  predicate RowsFromInput(table: seq<TableRow>, rows: seq<Quote>)
  {
    forall k :: 0 <= k < |table| ==> exists j :: 0 <= j < |rows| && table[k] == TableRowOf(rows[j])
  }

  /** Every row of the sorted sequence is a row of the input. */
  lemma SortedRowsAreInputRows(t: seq<TableRow>)
    ensures forall k :: 0 <= k < |t| ==> exists j :: 0 <= j < |t| && SortByScore(t)[k] == t[j]
  {
    var sorted := SortByScore(t);
    forall k | 0 <= k < |t|
      ensures exists j :: 0 <= j < |t| && sorted[k] == t[j]
    {
      assert sorted[k] in multiset(sorted);
      assert sorted[k] in multiset(t);
      var j :| 0 <= j < |t| && t[j] == sorted[k];
    }
  }

  /** Every row of a prefix of the sorted table is the row of an input contract. */
  lemma SortedRowsComeFromInput(rows: seq<Quote>, n: nat)
    requires n <= |rows|
    ensures RowsFromInput(SortByScore(TableRowsOf(rows))[..n], rows)
  {
    var tableRows := TableRowsOf(rows);
    var sorted := SortByScore(tableRows);
    var table := sorted[..n];
    SortedRowsAreInputRows(tableRows);
    forall k | 0 <= k < |table|
      ensures exists j :: 0 <= j < |rows| && table[k] == TableRowOf(rows[j])
    {
      assert table[k] == sorted[k];
      var j :| 0 <= j < |tableRows| && sorted[k] == tableRows[j];
      assert tableRows[j] == TableRowOf(rows[j]);
    }
  }

  lemma PrefixDescending(s: seq<TableRow>, n: nat)
    requires Descending(s) && n <= |s|
    ensures Descending(s[..n])
  {
  }

  /** An empty frame gives an empty table. Otherwise the table holds the
      first min(50, n) rows of the n contracts' rows sorted by unusual score,
      highest first; each of its rows is the row of one input contract. */
  method PrepareTableData(rows: seq<Quote>) returns (table: seq<TableRow>)
    ensures rows == [] ==> table == []
    ensures |table| == if |rows| < TableLimit then |rows| else TableLimit
    ensures table == SortByScore(TableRowsOf(rows))[..|table|]
    ensures Descending(table)
    ensures RowsFromInput(table, rows)
  {
    if rows == [] {
      return [];
    }
    var tableRows := BuildTableRows(rows);
    var sorted := SortByScore(tableRows);
    assert |sorted| == |rows|;
    SortByScoreDescending(tableRows);
    var n := if |sorted| < TableLimit then |sorted| else TableLimit;
    table := sorted[..n];
    assert |table| == n;
    PrefixDescending(sorted, n);
    SortedRowsComeFromInput(rows, n);
  }

  /** The table keeps the highest scores: every kept row scores at least as
      high as every row cut off. */
  lemma TopRowsKept(rows: seq<Quote>, n: nat)
    requires n <= |rows|
    ensures var sorted := SortByScore(TableRowsOf(rows));
            forall k, d :: 0 <= k < n <= d < |sorted| ==> sorted[k].unusualScore >= sorted[d].unusualScore
  {
    SortByScoreDescending(TableRowsOf(rows));
  }
}
