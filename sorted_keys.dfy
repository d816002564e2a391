/**
 * The distinct values of a column in ascending order: what the analytics get
 * from `unique()` followed by `sort()` on the strike column, and the order in
 * which a `groupby` visits its keys.
 */
module SortedKeys {

  /** `less` is irreflexive, transitive and total on distinct values. */
  ghost predicate StrictTotalOrder<T(!new)>(less: (T, T) -> bool)
  {
    && (forall a :: !less(a, a))
    && (forall a, b, c :: less(a, b) && less(b, c) ==> less(a, c))
    && (forall a, b :: a == b || less(a, b) || less(b, a))
  }

  predicate Ascending<T>(s: seq<T>, less: (T, T) -> bool)
  {
    forall i, j :: 0 <= i < j < |s| ==> less(s[i], s[j])
  }

  /** Inserts `x` into an ascending sequence of distinct values, unless present. */
  function Insert<T(==,!new)>(s: seq<T>, x: T, less: (T, T) -> bool): (r: seq<T>)
    requires StrictTotalOrder(less) && Ascending(s, less)
    ensures Ascending(r, less)
    ensures forall y :: y in r <==> y in s || y == x
  {
    if s == [] then [x]
    else if s[0] == x then s
    else if less(x, s[0]) then [x] + s
    else
      var tail := Insert(s[1..], x, less);
      assert forall y :: y in tail ==> less(s[0], y) by {
        forall y | y in tail ensures less(s[0], y) {
          if y != x {
            var j :| 1 <= j < |s| && s[j] == y;
          }
        }
      }
      [s[0]] + tail
  }

  /** The distinct values of `keys`, ascending. */
  function SortedDistinct<T(==,!new)>(keys: seq<T>, less: (T, T) -> bool): (r: seq<T>)
    requires StrictTotalOrder(less)
    ensures Ascending(r, less)
    ensures forall y :: y in r <==> y in keys
  {
    if keys == [] then []
    else
      var r' := SortedDistinct(keys[..|keys| - 1], less);
      assert forall y :: y in keys <==> y in keys[..|keys| - 1] || y == keys[|keys| - 1];
      Insert(r', keys[|keys| - 1], less)
  }

  /** An ascending sequence holds no value twice. */
  lemma AscendingDistinct<T(!new)>(s: seq<T>, less: (T, T) -> bool, i: int, j: int)
    requires StrictTotalOrder(less) && Ascending(s, less)
    requires 0 <= i < |s| && 0 <= j < |s| && i != j
    ensures s[i] != s[j]
  {
    if i < j { assert less(s[i], s[j]); } else { assert less(s[j], s[i]); }
  }

  function RealLess(a: real, b: real): bool
  {
    a < b
  }

  lemma RealLessIsStrictTotalOrder()
    ensures StrictTotalOrder(RealLess)
  {
  }

  /** Lexicographic order on strings by code point, as Python compares `str`. */
  predicate StrLess(a: string, b: string)
  {
    if a == [] then b != []
    else if b == [] then false
    else if a[0] != b[0] then a[0] < b[0]
    else StrLess(a[1..], b[1..])
  }

  lemma {:induction false} StrLessIrreflexive(a: string)
    ensures !StrLess(a, a)
  {
    if a != [] { StrLessIrreflexive(a[1..]); }
  }

  lemma {:induction false} StrLessTransitive(a: string, b: string, c: string)
    requires StrLess(a, b) && StrLess(b, c)
    ensures StrLess(a, c)
  {
    if a != [] && b != [] && c != [] && a[0] == b[0] && b[0] == c[0] {
      StrLessTransitive(a[1..], b[1..], c[1..]);
    }
  }

  lemma {:induction false} StrLessTotal(a: string, b: string)
    ensures a == b || StrLess(a, b) || StrLess(b, a)
  {
    if a != [] && b != [] && a[0] == b[0] {
      StrLessTotal(a[1..], b[1..]);
      if a[1..] == b[1..] {
        assert a == [a[0]] + a[1..] && b == [b[0]] + b[1..];
      }
    }
  }

  lemma StrLessIsStrictTotalOrder()
    ensures StrictTotalOrder(StrLess)
  {
    forall a: string { StrLessIrreflexive(a); }
    forall a: string, b: string, c: string | StrLess(a, b) && StrLess(b, c)
      ensures StrLess(a, c)
    {
      StrLessTransitive(a, b, c);
    }
    forall a: string, b: string { StrLessTotal(a, b); }
  }
}
