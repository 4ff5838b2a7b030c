/**
 * The relational engine's part in the queries: WHERE keeps the rows that
 * satisfy a condition, ORDER BY arranges them by a total preorder. The engine
 * leaves the order of equal keys open; OrderBy fixes one admissible order
 * (stable insertion), and everything the model proves about a query rests
 * only on OrderBy's result being sorted and a permutation of its input.
 */
module Relational {
  import opened Wrappers

  /** A total preorder: every two rows compare, and comparing is transitive. */
  ghost predicate TotalPreorder<T(!new)>(le: (T, T) -> bool)
  {
    && (forall a, b :: le(a, b) || le(b, a))
    && (forall a, b, c :: le(a, b) && le(b, c) ==> le(a, c))
  }

  /** A strict total order. */
  ghost predicate StrictTotalOrder<T(!new)>(lt: (T, T) -> bool)
  {
    && (forall a :: !lt(a, a))
    && (forall a, b, c :: lt(a, b) && lt(b, c) ==> lt(a, c))
    && (forall a, b :: a == b || lt(a, b) || lt(b, a))
  }

  ghost predicate SortedBy<T>(s: seq<T>, le: (T, T) -> bool)
  {
    forall i, j :: 0 <= i < j < |s| ==> le(s[i], s[j])
  }

  /** WHERE: the rows that satisfy `keep`, in table order. */
  function Where<T>(rows: seq<T>, keep: T -> bool): (r: seq<T>)
    ensures |r| <= |rows|
  {
    if rows == [] then []
    else (if keep(rows[0]) then [rows[0]] else []) + Where(rows[1..], keep)
  }

  /** A row is selected exactly when it is in the table and satisfies the condition. */
  lemma {:induction false} WhereMembers<T>(rows: seq<T>, keep: T -> bool)
    ensures forall x :: x in multiset(Where(rows, keep)) <==> x in multiset(rows) && keep(x)
    ensures forall x :: x in Where(rows, keep) <==> x in rows && keep(x)
  {
    if rows != [] {
      WhereMembers(rows[1..], keep);
      assert rows == [rows[0]] + rows[1..];
    }
  }

  /** Nothing is selected exactly when no row satisfies the condition. */
  lemma WhereEmpty<T>(rows: seq<T>, keep: T -> bool)
    ensures Where(rows, keep) == [] <==> forall i :: 0 <= i < |rows| ==> !keep(rows[i])
  {
    WhereMembers(rows, keep);
    if Where(rows, keep) != [] {
      assert Where(rows, keep)[0] in Where(rows, keep);
    }
  }

  /** How often a row occurs in the selection: as often as in the table if it qualifies, else never. */
  lemma {:induction false} WhereCount<T>(rows: seq<T>, keep: T -> bool)
    ensures forall x :: multiset(Where(rows, keep))[x] == if keep(x) then multiset(rows)[x] else 0
  {
    if rows != [] {
      WhereCount(rows[1..], keep);
      assert rows == [rows[0]] + rows[1..];
    }
  }

  /** What QueryRow scans: the first row that satisfies `keep`, if any. */
  function First<T>(rows: seq<T>, keep: T -> bool): (r: Option<T>)
    ensures r.Some? ==> r.value in rows && keep(r.value)
    ensures r.None? <==> forall i :: 0 <= i < |rows| ==> !keep(rows[i])
  {
    if rows == [] then None
    else if keep(rows[0]) then Some(rows[0])
    else First(rows[1..], keep)
  }

  /** A row appended to a table in which nothing qualified is the first to qualify. */
  lemma {:induction false} FirstOfAppended<T>(rows: seq<T>, x: T, keep: T -> bool)
    requires forall i :: 0 <= i < |rows| ==> !keep(rows[i])
    requires keep(x)
    ensures First(rows + [x], keep) == Some(x)
  {
    if rows != [] {
      assert (rows + [x])[1..] == rows[1..] + [x];
      FirstOfAppended(rows[1..], x, keep);
    }
  }

  function InsertBy<T>(x: T, s: seq<T>, le: (T, T) -> bool): (r: seq<T>)
    ensures multiset(r) == multiset(s) + multiset{x}
  {
    if s == [] then [x]
    else if le(x, s[0]) then [x] + s
    else
      assert s == [s[0]] + s[1..];
      [s[0]] + InsertBy(x, s[1..], le)
  }

  /** ORDER BY. */
  function OrderBy<T>(s: seq<T>, le: (T, T) -> bool): (r: seq<T>)
    ensures multiset(r) == multiset(s)
  {
    if s == [] then []
    else
      assert s == [s[0]] + s[1..];
      InsertBy(s[0], OrderBy(s[1..], le), le)
  }

  /** A bound below the new row and below every old row is below every row of the result. */
  lemma {:induction false} InsertByBound<T>(x: T, s: seq<T>, le: (T, T) -> bool, b: T)
    requires le(b, x) && forall i :: 0 <= i < |s| ==> le(b, s[i])
    ensures forall j :: 0 <= j < |InsertBy(x, s, le)| ==> le(b, InsertBy(x, s, le)[j])
  {
    if s != [] && !le(x, s[0]) {
      var tail := InsertBy(x, s[1..], le);
      InsertByBound(x, s[1..], le, b);
      assert InsertBy(x, s, le) == [s[0]] + tail;
    }
  }

  lemma {:induction false} InsertBySorted<T(!new)>(x: T, s: seq<T>, le: (T, T) -> bool)
    requires TotalPreorder(le) && SortedBy(s, le)
    ensures SortedBy(InsertBy(x, s, le), le)
  {
    if s != [] && !le(x, s[0]) {
      var rest := s[1..];
      var tail := InsertBy(x, rest, le);
      InsertBySorted(x, rest, le);
      assert le(s[0], x);
      assert forall i :: 0 <= i < |rest| ==> le(s[0], rest[i]) by {
        forall i | 0 <= i < |rest| ensures le(s[0], rest[i]) {
          assert rest[i] == s[i + 1];
        }
      }
      InsertByBound(x, rest, le, s[0]);
      var r := [s[0]] + tail;
      assert InsertBy(x, s, le) == r;
      forall i, j | 0 <= i < j < |r| ensures le(r[i], r[j]) {
        if i == 0 {
          assert r[j] == tail[j - 1];
        } else {
          assert r[i] == tail[i - 1] && r[j] == tail[j - 1];
        }
      }
    }
  }

  /** ORDER BY returns the same rows, sorted. */
  lemma {:induction false} OrderBySorted<T(!new)>(s: seq<T>, le: (T, T) -> bool)
    requires TotalPreorder(le)
    ensures SortedBy(OrderBy(s, le), le)
    ensures forall x :: x in OrderBy(s, le) <==> x in s
  {
    if s != [] {
      OrderBySorted(s[1..], le);
      InsertBySorted(s[0], OrderBy(s[1..], le), le);
    }
    assert forall x :: x in OrderBy(s, le) <==> x in multiset(OrderBy(s, le));
    assert forall x :: x in s <==> x in multiset(s);
  }

  /**
   * SELECT ... WHERE keep ORDER BY le: the qualifying rows, each as often as
   * in the table, sorted.
   */
  function Select<T(!new)>(rows: seq<T>, keep: T -> bool, le: (T, T) -> bool): (r: seq<T>)
    requires TotalPreorder(le)
    ensures forall x :: multiset(r)[x] == if keep(x) then multiset(rows)[x] else 0
    ensures forall x :: x in r <==> x in rows && keep(x)
    ensures SortedBy(r, le)
  {
    var selected := Where(rows, keep);
    WhereCount(rows, keep);
    WhereMembers(rows, keep);
    OrderBySorted(selected, le);
    OrderBy(selected, le)
  }

  /**
   * A condition that agrees with `spec` on the table's rows selects the rows
   * `spec` describes: each as often as in the table, every one of them in the
   * table and satisfying `spec`.
   */
  lemma SelectAgrees<T(!new)>(rows: seq<T>, keep: T -> bool, spec: T -> bool, le: (T, T) -> bool)
    requires TotalPreorder(le)
    requires forall x :: x in rows ==> (keep(x) <==> spec(x))
    ensures var r := Select(rows, keep, le);
      && (forall x :: multiset(r)[x] == if spec(x) then multiset(rows)[x] else 0)
      && (forall i :: 0 <= i < |r| ==> r[i] in rows && keep(r[i]) && spec(r[i]))
  {
    var r := Select(rows, keep, le);
    forall x ensures multiset(r)[x] == if spec(x) then multiset(rows)[x] else 0 {
      if x !in rows {
        assert multiset(rows)[x] == 0;
      }
    }
    forall i | 0 <= i < |r| ensures r[i] in rows && keep(r[i]) && spec(r[i]) {
      assert r[i] in r;
    }
  }

  /** Two conditions that agree on every row of the table select the same rows, in the same order. */
  lemma {:induction false} WhereSameRows<T>(rows: seq<T>, k1: T -> bool, k2: T -> bool)
    requires forall x :: x in rows ==> (k1(x) <==> k2(x))
    ensures Where(rows, k1) == Where(rows, k2)
  {
    if rows != [] {
      WhereSameRows(rows[1..], k1, k2);
    }
  }

  /** Two conditions that agree on every row of the table give the same query result. */
  lemma SelectSameRows<T(!new)>(rows: seq<T>, k1: T -> bool, k2: T -> bool, le: (T, T) -> bool)
    requires TotalPreorder(le)
    requires forall x :: x in rows ==> (k1(x) <==> k2(x))
    ensures Select(rows, k1, le) == Select(rows, k2, le)
  {
    WhereSameRows(rows, k1, k2);
  }

  /**
   * Lexicographic order on sequences from a strict order on elements: a proper
   * prefix comes first, otherwise the first differing element decides.
   */
  function LexLe<T(==)>(a: seq<T>, b: seq<T>, lt: (T, T) -> bool): bool
  {
    a == [] || (b != [] && (lt(a[0], b[0]) || (a[0] == b[0] && LexLe(a[1..], b[1..], lt))))
  }

  lemma {:induction false} LexLeTotal<T(!new)>(a: seq<T>, b: seq<T>, lt: (T, T) -> bool)
    requires StrictTotalOrder(lt)
    ensures LexLe(a, b, lt) || LexLe(b, a, lt)
  {
    if a != [] && b != [] && a[0] == b[0] {
      LexLeTotal(a[1..], b[1..], lt);
    }
  }

  lemma {:induction false} LexLeTransitive<T(!new)>(a: seq<T>, b: seq<T>, c: seq<T>, lt: (T, T) -> bool)
    requires StrictTotalOrder(lt)
    requires LexLe(a, b, lt) && LexLe(b, c, lt)
    ensures LexLe(a, c, lt)
  {
    if a != [] && a[0] == b[0] && b[0] == c[0] {
      LexLeTransitive(a[1..], b[1..], c[1..], lt);
    }
  }

  lemma {:induction false} LexLeAntisymmetric<T(!new)>(a: seq<T>, b: seq<T>, lt: (T, T) -> bool)
    requires StrictTotalOrder(lt)
    requires LexLe(a, b, lt) && LexLe(b, a, lt)
    ensures a == b
  {
    if a != [] {
      assert b != [];
      assert a[0] == b[0];
      LexLeAntisymmetric(a[1..], b[1..], lt);
      assert a == [a[0]] + a[1..] && b == [b[0]] + b[1..];
    }
  }
}
