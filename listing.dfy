/** What the record store does for a listing query: fetch the rows of a table,
    keep those a filter accepts, order them (`order_by`) and cut one page out of
    the result (`offset` then `limit`). Generic in the row type and the order. */
module Listing {

  /** No row appears twice. */
  predicate Distinct<T(==)>(s: seq<T>)
  {
    forall i, j :: 0 <= i < j < |s| ==> s[i] != s[j]
  }

  /** `s` is in ascending order for `le`. */
  predicate SortedBy<T>(s: seq<T>, le: (T, T) -> bool)
  {
    forall i, j :: 0 <= i < j < |s| ==> le(s[i], s[j])
  }

  /** `le` is a total preorder: every two rows compare, and comparisons chain.
      Rows that compare both ways (equal sort keys) may come in either order. */
  ghost predicate TotalPreorder<T(!new)>(le: (T, T) -> bool)
  {
    && (forall a, b :: le(a, b) || le(b, a))
    && (forall a, b, c :: le(a, b) && le(b, c) ==> le(a, c))
  }

  /** `all` is an acceptable answer of the store to "the rows in `wanted`,
      ordered by `le`": each wanted row exactly once, in ascending order. */
  ghost predicate Arranges<T(!new)>(all: seq<T>, wanted: set<T>, le: (T, T) -> bool)
  {
    && Distinct(all)
    && (forall x :: x in all <==> x in wanted)
    && SortedBy(all, le)
  }

  /** One `filter(...)` applied to a query: the rows `p` accepts, in their order. */
  function Filter<T(==,!new)>(s: seq<T>, p: T -> bool): (r: seq<T>)
    ensures |r| <= |s|
    ensures forall x :: x in r <==> x in s && p(x)
    ensures Distinct(s) ==> Distinct(r)
  {
    if s == [] then []
    else if p(s[0]) then [s[0]] + Filter(s[1..], p)
    else Filter(s[1..], p)
  }

  /** `x` placed in front of the first row it does not come after. */
  function Insert<T(==,!new)>(s: seq<T>, x: T, le: (T, T) -> bool): (r: seq<T>)
    ensures |r| == |s| + 1
    ensures forall y :: y in r <==> y in s || y == x
    ensures Distinct(s) && x !in s ==> Distinct(r)
    ensures TotalPreorder(le) && SortedBy(s, le) ==> SortedBy(r, le)
  {
    if s == [] then [x]
    else if le(x, s[0]) then
      assert SortedBy(s, le) && TotalPreorder(le) ==> forall j :: 0 <= j < |s| ==> le(x, s[j]);
      [x] + s
    else
      var t := Insert(s[1..], x, le);
      assert TotalPreorder(le) && SortedBy(s, le) ==> forall y :: y in t ==> le(s[0], y) by {
        if TotalPreorder(le) && SortedBy(s, le) {
          forall y | y in t ensures le(s[0], y) {
            if y != x {
              var k :| 0 <= k < |s[1..]| && s[1..][k] == y;
              assert s[k + 1] == y;
            }
          }
        }
      }
      assert Distinct(s) && x !in s ==> Distinct([s[0]] + t) by {
        if Distinct(s) && x !in s {
          assert s[0] !in s[1..];
          DistinctCons(s[0], t);
        }
      }
      [s[0]] + t
  }

  lemma DistinctCons<T>(a: T, t: seq<T>)
    requires Distinct(t) && a !in t
    ensures Distinct([a] + t)
  {
    var r := [a] + t;
    forall i, j | 0 <= i < j < |r| ensures r[i] != r[j] {
      if i == 0 { assert r[j] == t[j - 1]; }
    }
  }

  /** The ordering of an `order_by`: insertion sort by `le`. */
  function SortBy<T(==,!new)>(s: seq<T>, le: (T, T) -> bool): (r: seq<T>)
    ensures |r| == |s|
    ensures forall y :: y in r <==> y in s
    ensures Distinct(s) ==> Distinct(r)
    ensures TotalPreorder(le) ==> SortedBy(r, le)
  {
    if s == [] then [] else Insert(SortBy(s[1..], le), s[0], le)
  }

  /** `.offset(offset).limit(limit)`: skip `offset` rows, keep at most `limit`. */
  function Page<T>(s: seq<T>, offset: nat, limit: nat): (r: seq<T>)
    ensures offset >= |s| ==> r == []
    ensures offset < |s| ==> |r| == (if |s| - offset < limit then |s| - offset else limit)
    ensures offset < |s| ==> r == s[offset..offset + |r|]
  {
    var rest := if offset < |s| then s[offset..] else [];
    if limit < |rest| then rest[..limit] else rest
  }

  /** `query(Table).all()`: the rows of a table, each once, in some order. */
  method Rows<T(==)>(table: set<T>) returns (r: seq<T>)
    ensures Distinct(r)
    ensures forall x :: x in r <==> x in table
  {
    r := [];
    var left := table;
    while left != {}
      invariant left <= table
      invariant Distinct(r)
      invariant forall x :: x in r <==> x in table && x !in left
      decreases left
    {
      var x :| x in left;
      r := r + [x];
      left := left - {x};
    }
  }
}
