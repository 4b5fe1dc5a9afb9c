/**
 * Result ordering of the database queries (`orderBy`): a finite set of rows
 * listed in ascending order of a total preorder.  Rows that compare equal may
 * come in either order, as the database gives no tie-break beyond the keys it
 * is asked to sort by.
 */
module Ordering {

  /** `a <= b <= c`; named so that transitivity is used only where a proof asks for it. */
  ghost predicate Chain<T>(le: (T, T) -> bool, a: T, b: T, c: T)
  {
    le(a, b) && le(b, c)
  }

  ghost predicate TotalPreorder<T(!new)>(le: (T, T) -> bool)
  {
    && (forall a, b :: le(a, b) || le(b, a))
    && (forall a, b, c :: Chain(le, a, b, c) ==> le(a, c))
  }

  ghost predicate SortedBy<T>(s: seq<T>, le: (T, T) -> bool)
  {
    forall i, j :: 0 <= i < j < |s| ==> le(s[i], s[j])
  }

  ghost predicate Distinct<T>(s: seq<T>)
  {
    forall i, j :: 0 <= i < j < |s| ==> s[i] != s[j]
  }

  /** One column of a list of rows, such as their ids, in row order. */
  function Column<T, K>(rows: seq<T>, field: T -> K): (r: seq<K>)
    ensures |r| == |rows| && forall i :: 0 <= i < |rows| ==> r[i] == field(rows[i])
  {
    seq(|rows|, i requires 0 <= i < |rows| => field(rows[i]))
  }

  /** Every non-empty finite set has a least element under a total preorder. */
  lemma {:induction false} LeastExists<T(!new)>(s: set<T>, le: (T, T) -> bool)
    requires s != {} && TotalPreorder(le)
    ensures exists m :: m in s && forall y :: y in s ==> le(m, y)
    decreases s
  {
    var x :| x in s;
    if s == {x} {
      assert le(x, x);
    } else {
      LeastExists(s - {x}, le);
      var m :| m in s - {x} && forall y :: y in s - {x} ==> le(m, y);
      if le(m, x) {
        forall y | y in s ensures le(m, y) {
          if y == x {
          } else {
            assert y in s - {x};
          }
        }
      } else {
        assert le(x, m);
        forall y | y in s ensures le(x, y) {
          if y != x {
            assert y in s - {x};
            assert Chain(le, x, m, y);
          }
        }
      }
    }
  }

  /** The elements of `s`, each once, in ascending order. */
  ghost function SortSet<T(!new)>(s: set<T>, le: (T, T) -> bool): (r: seq<T>)
    requires TotalPreorder(le)
    ensures |r| == |s|
    ensures forall x :: x in r <==> x in s
    ensures Distinct(r)
    ensures SortedBy(r, le)
    decreases s
  {
    if s == {} then []
    else
      LeastExists(s, le);
      var m :| m in s && forall y :: y in s ==> le(m, y);
      var rest := SortSet(s - {m}, le);
      assert forall i :: 0 <= i < |rest| ==> rest[i] in s - {m};
      ConsLeast(m, rest, le);
      [m] + rest
  }

  /** Putting an element below all others, and not among them, in front keeps a sequence sorted and distinct. */
  lemma ConsLeast<T>(m: T, rest: seq<T>, le: (T, T) -> bool)
    requires SortedBy(rest, le) && Distinct(rest)
    requires forall i :: 0 <= i < |rest| ==> le(m, rest[i]) && rest[i] != m
    ensures SortedBy([m] + rest, le) && Distinct([m] + rest)
  {
    var r := [m] + rest;
    forall i, j | 0 <= i < j < |r| ensures le(r[i], r[j]) && r[i] != r[j] {
      assert r[j] == rest[j - 1];
      if i > 0 {
        assert r[i] == rest[i - 1];
      }
    }
  }
}
