/**
 * The row shape of one options-chain reading, as the data collector builds it
 * (one row per contract), and the column sums the analytics take over a batch.
 */
module OptionRecords {

  datatype Option<+T> = None | Some(value: T)

  /** The `option_type` column. The collector writes "call" or "put"; any other
      label (including a missing one) is kept as `Other`. */
  datatype OptionKind = Call | Put | Other(name: string)

  /** The `moneyness` column; "Unknown" until a spot price is known. */
  datatype Moneyness = ITM | ATM | OTM | Unknown

  /** The four boolean columns written by the unusual-activity pass. */
  datatype UnusualFlags = UnusualFlags(
    highPremium: bool,
    highVolumeRatio: bool,
    potentialBlock: bool,
    unusualActivity: bool)

  /** One row of the options frame. `avgVolume` is the optional `avg_volume`
      column that the per-trade scorer reads when present; `flags` is absent
      until the unusual-activity pass has run. */
  datatype Quote = Quote(
    contract: string,
    expiration: string,
    strike: real,
    kind: OptionKind,
    lastPrice: real,
    bid: real,
    ask: real,
    volume: int,
    openInterest: int,
    impliedVolatility: real,
    totalPremium: real,
    moneyness: Moneyness,
    avgVolume: Option<real>,
    flags: Option<UnusualFlags>)

  function Min(a: real, b: real): (m: real)
    ensures m <= a && m <= b && (m == a || m == b)
  {
    if a <= b then a else b
  }

  function Max(a: real, b: real): (m: real)
    ensures m >= a && m >= b && (m == a || m == b)
  {
    if a >= b then a else b
  }

  function Abs(x: real): (a: real)
    ensures a >= 0.0 && (a == x || a == -x)
  {
    if x < 0.0 then -x else x
  }

  /** The distinct strikes of a batch (`options_data['strike'].unique()`). */
  function Strikes(rows: seq<Quote>): set<real>
  {
    set q | q in rows :: q.strike
  }

  /** The distinct expirations of a batch. */
  function Expiries(rows: seq<Quote>): set<string>
  {
    set q | q in rows :: q.expiration
  }

  /** The strike column, in row order. */
  function StrikeColumn(rows: seq<Quote>): (c: seq<real>)
    ensures |c| == |rows| && forall i :: 0 <= i < |rows| ==> c[i] == rows[i].strike
  {
    seq(|rows|, i requires 0 <= i < |rows| => rows[i].strike)
  }

  /** The expiration column, in row order. */
  function ExpiryColumn(rows: seq<Quote>): (c: seq<string>)
    ensures |c| == |rows| && forall i :: 0 <= i < |rows| ==> c[i] == rows[i].expiration
  {
    seq(|rows|, i requires 0 <= i < |rows| => rows[i].expiration)
  }

  /** The strikes of a batch are exactly the values of its strike column. */
  lemma StrikesAreColumn(rows: seq<Quote>)
    ensures forall k :: k in Strikes(rows) <==> k in StrikeColumn(rows)
  {
    var col := StrikeColumn(rows);
    forall k | k in col ensures k in Strikes(rows) {
      var i :| 0 <= i < |col| && col[i] == k;
      assert rows[i] in rows;
    }
  }

  /** The expiries of a batch are exactly the values of its expiration column. */
  lemma ExpiriesAreColumn(rows: seq<Quote>)
    ensures forall e :: e in Expiries(rows) <==> e in ExpiryColumn(rows)
  {
    var col := ExpiryColumn(rows);
    forall e | e in col ensures e in Expiries(rows) {
      var i :| 0 <= i < |col| && col[i] == e;
      assert rows[i] in rows;
    }
  }

  /** The `total_premium` and `volume` columns. */
  function Premium(q: Quote): real { q.totalPremium }
  function Volume(q: Quote): int { q.volume }

  /** Sum of a real-valued column over the rows, added left to right. */
  function SumReal(rows: seq<Quote>, f: Quote -> real): real
  {
    if rows == [] then 0.0 else SumReal(rows[..|rows| - 1], f) + f(rows[|rows| - 1])
  }

  /** Sum of an integer-valued column over the rows, added left to right. */
  function SumInt(rows: seq<Quote>, f: Quote -> int): int
  {
    if rows == [] then 0 else SumInt(rows[..|rows| - 1], f) + f(rows[|rows| - 1])
  }

  /** Number of rows satisfying a filter (`len(options_data[mask])`). */
  function CountWhere(rows: seq<Quote>, p: Quote -> bool): (n: nat)
    ensures n <= |rows|
  {
    if rows == [] then 0
    else CountWhere(rows[..|rows| - 1], p) + (if p(rows[|rows| - 1]) then 1 else 0)
  }

  /** The rows passing a filter, in row order (`options_data[mask]`). */
  function Filter(rows: seq<Quote>, p: Quote -> bool): (r: seq<Quote>)
    ensures forall q :: q in r <==> q in rows && p(q)
    ensures |r| <= |rows|
  {
    if rows == [] then []
    else
      var init := rows[..|rows| - 1];
      var last := rows[|rows| - 1];
      assert forall q :: q in rows <==> q in init || q == last;
      Filter(init, p) + (if p(last) then [last] else [])
  }

  /** No row passes the filter exactly when the count is 0. */
  lemma {:induction false} CountWhereZero(rows: seq<Quote>, p: Quote -> bool)
    ensures CountWhere(rows, p) == 0 <==> forall q :: q in rows ==> !p(q)
  {
    if rows != [] {
      var init := rows[..|rows| - 1];
      assert forall q :: q in rows <==> q in init || q == rows[|rows| - 1];
      CountWhereZero(init, p);
    }
  }

  /** A sum of non-negative terms is non-negative. */
  lemma {:induction false} SumRealNonNegative(rows: seq<Quote>, f: Quote -> real)
    requires forall q :: q in rows ==> f(q) >= 0.0
    ensures SumReal(rows, f) >= 0.0
  {
    if rows != [] {
      assert forall q :: q in rows[..|rows| - 1] ==> q in rows;
      SumRealNonNegative(rows[..|rows| - 1], f);
    }
  }

  /** Appending one row adds its term to the sum. */
  lemma SumRealSnoc(rows: seq<Quote>, q: Quote, f: Quote -> real)
    ensures SumReal(rows + [q], f) == SumReal(rows, f) + f(q)
  {
    assert (rows + [q])[..|rows + [q]| - 1] == rows;
  }

  /** Appending one row adds its term to the sum. */
  lemma SumIntSnoc(rows: seq<Quote>, q: Quote, f: Quote -> int)
    ensures SumInt(rows + [q], f) == SumInt(rows, f) + f(q)
  {
    assert (rows + [q])[..|rows + [q]| - 1] == rows;
  }

  /** Appending one row adds one to the count when it passes the filter. */
  lemma CountWhereSnoc(rows: seq<Quote>, q: Quote, p: Quote -> bool)
    ensures CountWhere(rows + [q], p) == CountWhere(rows, p) + (if p(q) then 1 else 0)
  {
    assert (rows + [q])[..|rows + [q]| - 1] == rows;
  }

  /** Two batches of the same length whose rows agree, position by position,
      on the summed column have the same sum. */
  lemma {:induction false} SumRealPointwise(a: seq<Quote>, b: seq<Quote>, f: Quote -> real, g: Quote -> real)
    requires |a| == |b| && forall i :: 0 <= i < |a| ==> f(a[i]) == g(b[i])
    ensures SumReal(a, f) == SumReal(b, g)
  {
    if a != [] {
      SumRealPointwise(a[..|a| - 1], b[..|b| - 1], f, g);
    }
  }

  /** Two batches of the same length whose rows agree, position by position,
      on the filter have the same count. */
  lemma {:induction false} CountWherePointwise(a: seq<Quote>, b: seq<Quote>, p: Quote -> bool, r: Quote -> bool)
    requires |a| == |b| && forall i :: 0 <= i < |a| ==> p(a[i]) == r(b[i])
    ensures CountWhere(a, p) == CountWhere(b, r)
  {
    if a != [] {
      CountWherePointwise(a[..|a| - 1], b[..|b| - 1], p, r);
    }
  }
}
