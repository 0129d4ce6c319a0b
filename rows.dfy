/** Row selection and ordering for the queries of the storage layer: `WHERE`
    is `Select`, `ORDER BY key DESC` is `SortDesc`, an insertion sort on an
    integer key (an ascending order is a descending one on the negated key).
    The database leaves the order of rows with equal keys unspecified; this
    model fixes one such order, table order, so its results agree with the
    database's up to the order within a run of equal keys. */
module Rows {
  import opened Wrappers

  /** The rows of `s` that satisfy `p`, in table order. */
  function Select<T>(s: seq<T>, p: T -> bool): (r: seq<T>)
    ensures |r| <= |s|
    ensures forall i :: 0 <= i < |r| ==> r[i] in s && p(r[i])
    ensures forall i :: 0 <= i < |s| && p(s[i]) ==> s[i] in r
  {
    if s == [] then [] else (if p(s[0]) then [s[0]] else []) + Select(s[1..], p)
  }

  /** Index of the first row satisfying `p`, or None when no row does. */
  function IndexWhere<T>(s: seq<T>, p: T -> bool): (r: Option<nat>)
    ensures r.Some? ==> r.value < |s| && p(s[r.value])
    ensures r.Some? ==> forall k :: 0 <= k < r.value ==> !p(s[k])
    ensures r.None? <==> forall k :: 0 <= k < |s| ==> !p(s[k])
  {
    if s == [] then None
    else if p(s[0]) then Some(0)
    else match IndexWhere(s[1..], p)
      case None => None
      case Some(i) => Some(i + 1)
  }

  /** Non-increasing in `key`: newest first when the key is a timestamp. */
  ghost predicate SortedDesc<T>(s: seq<T>, key: T -> int) {
    forall i, j :: 0 <= i < j < |s| ==> key(s[i]) >= key(s[j])
  }

  /** Put `x` in front of the first row whose key is not larger than its own. */
  function InsertDesc<T>(x: T, t: seq<T>, key: T -> int): seq<T> {
    if t == [] || key(x) >= key(t[0]) then [x] + t
    else [t[0]] + InsertDesc(x, t[1..], key)
  }

  /** Sort by descending key. Rows with equal keys keep their table order,
      which is one of the orders the database may return. */
  function SortDesc<T>(s: seq<T>, key: T -> int): seq<T> {
    if s == [] then [] else InsertDesc(s[0], SortDesc(s[1..], key), key)
  }

  lemma {:induction false} InsertDescPermutes<T>(x: T, t: seq<T>, key: T -> int)
    ensures multiset(InsertDesc(x, t, key)) == multiset(t) + multiset{x}
  {
    if t != [] && key(x) < key(t[0]) {
      InsertDescPermutes(x, t[1..], key);
      assert t == [t[0]] + t[1..];
    }
  }

  lemma {:induction false} InsertDescSorted<T>(x: T, t: seq<T>, key: T -> int)
    requires SortedDesc(t, key)
    ensures SortedDesc(InsertDesc(x, t, key), key)
  {
    if t != [] && key(x) < key(t[0]) {
      InsertDescSorted(x, t[1..], key);
      var rest := InsertDesc(x, t[1..], key);
      InsertDescPermutes(x, t[1..], key);
      forall y | y in rest ensures key(t[0]) >= key(y) {
        assert y in multiset(rest);
        if y != x {
          assert y in multiset(t[1..]);
          var k :| 0 <= k < |t[1..]| && t[1..][k] == y;
          assert t[k + 1] == y;
        }
      }
      assert InsertDesc(x, t, key) == [t[0]] + rest;
    }
  }

  /** The result of the query holds exactly the selected rows. */
  lemma {:induction false} SortDescPermutes<T>(s: seq<T>, key: T -> int)
    ensures multiset(SortDesc(s, key)) == multiset(s)
  {
    if s != [] {
      SortDescPermutes(s[1..], key);
      InsertDescPermutes(s[0], SortDesc(s[1..], key), key);
      assert s == [s[0]] + s[1..];
    }
  }

  /** The result of the query is in the promised order. */
  lemma {:induction false} SortDescSorted<T>(s: seq<T>, key: T -> int)
    ensures SortedDesc(SortDesc(s, key), key)
  {
    if s != [] {
      SortDescSorted(s[1..], key);
      InsertDescSorted(s[0], SortDesc(s[1..], key), key);
    }
  }

  /** A row whose key is not larger than any other lands last: appending a
      row stamped no earlier than the rest appends it to an ascending listing. */
  lemma {:induction false} SortDescAppendSmallest<T>(s: seq<T>, x: T, key: T -> int)
    requires forall y :: y in s ==> key(y) >= key(x)
    ensures SortDesc(s + [x], key) == SortDesc(s, key) + [x]
  {
    if s == [] {
      assert SortDesc([x], key) == InsertDesc(x, [], key);
    } else {
      assert (s + [x])[1..] == s[1..] + [x];
      assert (s + [x])[0] == s[0];
      SortDescAppendSmallest(s[1..], x, key);
      SortDescPermutes(s[1..], key);
      InsertBeforeSmallest(s[0], SortDesc(s[1..], key), x, key);
    }
  }

  lemma {:induction false} InsertBeforeSmallest<T>(y: T, t: seq<T>, x: T, key: T -> int)
    requires key(y) >= key(x)
    ensures InsertDesc(y, t + [x], key) == InsertDesc(y, t, key) + [x]
  {
    if t == [] {
      assert InsertDesc(y, [x], key) == [y, x];
    } else if key(y) >= key(t[0]) {
      assert InsertDesc(y, t + [x], key) == [y] + (t + [x]);
    } else {
      assert (t + [x])[1..] == t[1..] + [x];
      InsertBeforeSmallest(y, t[1..], x, key);
    }
  }

  lemma {:induction false} SelectCons<T>(a: T, t: seq<T>, p: T -> bool)
    ensures Select([a] + t, p) == (if p(a) then [a] else []) + Select(t, p)
  {
    assert ([a] + t)[1..] == t;
  }

  /** Inserting a row that is not smaller than any selected row puts it in front. */
  lemma {:induction false} InsertDescFront<T>(x: T, u: seq<T>, key: T -> int)
    requires forall y :: y in u ==> key(x) >= key(y)
    ensures InsertDesc(x, u, key) == [x] + u
  {
    if u != [] {
      assert u[0] in u;
    }
  }

  lemma {:induction false} SelectInsertFront<T>(x: T, t: seq<T>, p: T -> bool, key: T -> int)
    requires SortedDesc(t, key)
    requires t == [] || key(x) >= key(t[0])
    ensures Select(InsertDesc(x, t, key), p)
         == if p(x) then InsertDesc(x, Select(t, p), key) else Select(t, p)
  {
    SelectCons(x, t, p);
    if p(x) {
      var u := Select(t, p);
      forall y | y in u ensures key(x) >= key(y) {
        var i :| 0 <= i < |u| && u[i] == y;
        assert y in t;
        var k :| 0 <= k < |t| && t[k] == y;
        assert key(t[0]) >= key(t[k]);
      }
      InsertDescFront(x, u, key);
    }
  }

  lemma {:induction false} SelectInsertBehind<T>(x: T, t: seq<T>, p: T -> bool, key: T -> int)
    requires t != [] && key(x) < key(t[0])
    requires Select(InsertDesc(x, t[1..], key), p)
          == if p(x) then InsertDesc(x, Select(t[1..], p), key) else Select(t[1..], p)
    ensures Select(InsertDesc(x, t, key), p)
         == if p(x) then InsertDesc(x, Select(t, p), key) else Select(t, p)
  {
    var a, t' := t[0], t[1..];
    var u := Select(t', p);
    var ins := InsertDesc(x, t', key);
    var v := Select(ins, p);
    assert InsertDesc(x, t, key) == [a] + ins;
    SelectCons(a, ins, p);
    assert t == [a] + t';
    SelectCons(a, t', p);
    if p(a) {
      assert Select(InsertDesc(x, t, key), p) == [a] + v;
      assert Select(t, p) == [a] + u;
      if p(x) {
        InsertDescBehind(x, a, u, key);
      }
    } else {
      assert Select(InsertDesc(x, t, key), p) == v;
      assert Select(t, p) == u;
    }
  }

  lemma {:induction false} InsertDescBehind<T>(x: T, a: T, u: seq<T>, key: T -> int)
    requires key(x) < key(a)
    ensures InsertDesc(x, [a] + u, key) == [a] + InsertDesc(x, u, key)
  {
    assert ([a] + u)[1..] == u;
  }

  lemma {:induction false} SelectInsert<T>(x: T, t: seq<T>, p: T -> bool, key: T -> int)
    requires SortedDesc(t, key)
    ensures Select(InsertDesc(x, t, key), p)
         == if p(x) then InsertDesc(x, Select(t, p), key) else Select(t, p)
  {
    if t == [] || key(x) >= key(t[0]) {
      SelectInsertFront(x, t, p, key);
    } else {
      assert SortedDesc(t[1..], key);
      SelectInsert(x, t[1..], p, key);
      SelectInsertBehind(x, t, p, key);
    }
  }

  /** Filtering a sorted listing gives the sorted listing of the filtered rows:
      a narrower query keeps the order of a wider one. */
  lemma {:induction false} SelectSortDesc<T>(s: seq<T>, p: T -> bool, key: T -> int)
    ensures Select(SortDesc(s, key), p) == SortDesc(Select(s, p), key)
  {
    if s != [] {
      SortDescSorted(s[1..], key);
      SelectInsert(s[0], SortDesc(s[1..], key), p, key);
      SelectSortDesc(s[1..], p, key);
      if p(s[0]) {
        assert Select(s, p) == [s[0]] + Select(s[1..], p);
        assert Select(s, p)[1..] == Select(s[1..], p);
      } else {
        assert Select(s, p) == Select(s[1..], p);
      }
    }
  }

  /** Two successive WHERE clauses equal one conjoined WHERE clause. */
  lemma {:induction false} SelectSelect<T>(s: seq<T>, p: T -> bool, q: T -> bool, pq: T -> bool)
    requires forall x :: pq(x) == (p(x) && q(x))
    ensures Select(Select(s, p), q) == Select(s, pq)
  {
    if s != [] {
      var s' := s[1..];
      SelectSelect(s', p, q, pq);
      assert s == [s[0]] + s';
      SelectCons(s[0], s', p);
      SelectCons(s[0], s', pq);
      assert pq(s[0]) == (p(s[0]) && q(s[0]));
      if p(s[0]) {
        assert Select(s, p) == [s[0]] + Select(s', p);
        SelectCons(s[0], Select(s', p), q);
      } else {
        assert Select(s, p) == Select(s', p);
      }
    }
  }

  /** Appending a row appends it to every query it satisfies and to no other. */
  lemma {:induction false} SelectAppend<T>(s: seq<T>, x: T, p: T -> bool)
    ensures Select(s + [x], p) == Select(s, p) + (if p(x) then [x] else [])
  {
    if s == [] {
      assert [] + [x] == [x];
    } else {
      assert (s + [x])[1..] == s[1..] + [x];
      assert (s + [x])[0] == s[0];
      SelectAppend(s[1..], x, p);
    }
  }

  /** Overwriting the first matching row with another matching row keeps its position first. */
  lemma {:induction false} IndexWhereUpdate<T>(s: seq<T>, p: T -> bool, k: nat, v: T)
    requires IndexWhere(s, p) == Some(k) && p(v)
    ensures IndexWhere(s[k := v], p) == Some(k)
  {
    assert p(s[k := v][k]);
  }
}
